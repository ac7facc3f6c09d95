/** The workshop specialties as the admin form edits them: a JSON list of
    strings shown as one specialty per line, and read back by splitting the text
    on newlines, stripping each line and dropping the blank ones. */
module Specialties {
  import opened Common
  import opened Text

  /** `s.split('\n')`: never empty; splitting `""` gives `[""]`. */
  function SplitLines(s: string): (r: seq<string>)
    ensures |r| >= 1
    ensures forall i :: 0 <= i < |r| ==> '\n' !in r[i]
  {
    if s == "" then [""]
    else
      var rest := SplitLines(s[1..]);
      if s[0] == '\n' then [""] + rest
      else [[s[0]] + rest[0]] + rest[1..]
  }

  /** `'\n'.join(xs)`. */
  function JoinLines(xs: seq<string>): string {
    if |xs| == 0 then ""
    else if |xs| == 1 then xs[0]
    else xs[0] + "\n" + JoinLines(xs[1..])
  }

  /** The list comprehension of `clean_specialties_input`:
      `[s.strip() for s in lines if s.strip()]`. */
  function ParseLines(lines: seq<string>): seq<string> {
    if lines == [] then []
    else (if Strip(lines[0]) != "" then [Strip(lines[0])] else []) + ParseLines(lines[1..])
  }

  /** `clean_specialties_input`: empty text gives no specialties, otherwise the
      stripped non-blank lines. */
  function ParseSpecialties(text: string): (r: seq<string>)
    ensures text == "" ==> r == []
    ensures forall i :: 0 <= i < |r| ==> r[i] != "" && IsStripped(r[i]) && '\n' !in r[i]
  {
    if text == "" then []
    else
      ParseLinesWellFormed(SplitLines(text));
      ParseLines(SplitLines(text))
  }

  lemma {:induction false} ParseLinesWellFormed(lines: seq<string>)
    requires forall i :: 0 <= i < |lines| ==> '\n' !in lines[i]
    ensures forall i :: 0 <= i < |ParseLines(lines)| ==>
              ParseLines(lines)[i] != "" && IsStripped(ParseLines(lines)[i]) && '\n' !in ParseLines(lines)[i]
  {
    if lines != [] {
      ParseLinesWellFormed(lines[1..]);
      StripIsInfix(lines[0]);
    }
  }

  /** Parsing works line by line: the specialties of two blocks of lines are
      those of the first block followed by those of the second, so the input
      order is kept. */
  lemma {:induction false} ParseLinesAppend(a: seq<string>, b: seq<string>)
    ensures ParseLines(a + b) == ParseLines(a) + ParseLines(b)
  {
    if a == [] {
      assert a + b == b;
    } else {
      assert (a + b)[0] == a[0];
      assert (a + b)[1..] == a[1..] + b;
      ParseLinesAppend(a[1..], b);
    }
  }

  function StripAll(lines: seq<string>): (r: seq<string>)
    ensures |r| == |lines|
    ensures forall i :: 0 <= i < |lines| ==> r[i] == Strip(lines[i])
  {
    if lines == [] then [] else [Strip(lines[0])] + StripAll(lines[1..])
  }

  /** The comprehension is exactly "strip every line, keep the non-empty ones",
      so a line that is blank or whitespace only contributes nothing and the
      kept lines stay in input order. */
  lemma {:induction false} ParseLinesIsStripThenFilter(lines: seq<string>)
    ensures ParseLines(lines) == Filter(StripAll(lines), (s: string) => s != "")
  {
    if lines != [] {
      ParseLinesIsStripThenFilter(lines[1..]);
      assert StripAll(lines)[1..] == StripAll(lines[1..]);
    }
  }

  lemma {:induction false} SplitLinesOfLine(a: string)
    requires '\n' !in a
    ensures SplitLines(a) == [a]
  {
    if a != "" {
      assert a[1..] == a[1..];
      assert forall c :: c in a[1..] ==> c in a;
      SplitLinesOfLine(a[1..]);
      assert [a[0]] + a[1..] == a;
    }
  }

  lemma {:induction false} SplitLinesAfterLine(a: string, rest: string)
    requires '\n' !in a
    ensures SplitLines(a + "\n" + rest) == [a] + SplitLines(rest)
  {
    var s := a + "\n" + rest;
    if a == "" {
      assert s == "\n" + rest;
      assert s[1..] == rest;
    } else {
      assert s[0] == a[0];
      assert s[1..] == a[1..] + "\n" + rest;
      assert forall c :: c in a[1..] ==> c in a;
      SplitLinesAfterLine(a[1..], rest);
      assert [a[0]] + a[1..] == a;
    }
  }

  /** Splitting undoes joining for a non-empty list of newline-free strings. */
  lemma {:induction false} SplitJoin(xs: seq<string>)
    requires |xs| >= 1
    requires forall i :: 0 <= i < |xs| ==> '\n' !in xs[i]
    ensures SplitLines(JoinLines(xs)) == xs
  {
    if |xs| == 1 {
      SplitLinesOfLine(xs[0]);
    } else {
      SplitLinesAfterLine(xs[0], JoinLines(xs[1..]));
      SplitJoin(xs[1..]);
      assert [xs[0]] + xs[1..] == xs;
    }
  }

  /** Joining undoes splitting: no text is lost by `split('\n')`. */
  lemma {:induction false} JoinSplit(s: string)
    ensures JoinLines(SplitLines(s)) == s
  {
    if s != "" {
      var rest := SplitLines(s[1..]);
      JoinSplit(s[1..]);
      if s[0] == '\n' {
        assert s == "\n" + s[1..];
      } else {
        var r := SplitLines(s);
        assert r == [[s[0]] + rest[0]] + rest[1..];
        if |rest| == 1 {
          assert JoinLines(r) == [s[0]] + rest[0];
        } else {
          assert r[1..] == rest[1..];
          assert JoinLines(rest) == rest[0] + "\n" + JoinLines(rest[1..]);
        }
        assert s == [s[0]] + s[1..];
      }
    }
  }

  lemma {:induction false} ParseLinesOfCleanList(xs: seq<string>)
    requires forall i :: 0 <= i < |xs| ==> xs[i] != "" && IsStripped(xs[i])
    ensures ParseLines(xs) == xs
  {
    if xs != [] {
      ParseLinesOfCleanList(xs[1..]);
      assert [xs[0]] + xs[1..] == xs;
    }
  }

  /** Round trip of the admin form: showing a list of non-empty, already
      stripped, newline-free specialties one per line and parsing the text
      back gives the same list. */
  lemma SpecialtiesRoundTrip(xs: seq<string>)
    requires forall i :: 0 <= i < |xs| ==> xs[i] != "" && IsStripped(xs[i]) && '\n' !in xs[i]
    ensures ParseSpecialties(JoinLines(xs)) == xs
  {
    if xs != [] {
      SplitJoin(xs);
      ParseLinesOfCleanList(xs);
      assert JoinLines(xs) != "" by {
        assert |JoinLines(xs)| >= |xs[0]|;
      }
    }
  }
}
