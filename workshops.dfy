/** Workshops: the average of their review ratings, and the admin form that
    edits their specialties and assigns their owner. */
module Workshops {
  import opened Common
  import Specialties
  import Text

  // ----- average_rating -----

  function SumRatings(ratings: seq<real>): real {
    if ratings == [] then 0.0 else SumRatings(ratings[..|ratings| - 1]) + ratings[|ratings| - 1]
  }

  predicate RatingsInRange(ratings: seq<real>) {
    forall i :: 0 <= i < |ratings| ==> 0.0 <= ratings[i] <= 5.0
  }

  lemma {:induction false} SumRatingsBounds(ratings: seq<real>)
    requires RatingsInRange(ratings)
    ensures 0.0 <= SumRatings(ratings) <= 5.0 * |ratings| as real
  {
    if ratings != [] {
      var prefix := ratings[..|ratings| - 1];
      assert forall i :: 0 <= i < |prefix| ==> prefix[i] == ratings[i];
      SumRatingsBounds(prefix);
    }
  }

  /** `Workshop.average_rating`: the arithmetic mean of the review ratings, or
      exactly 0 when there are none. With every rating inside the review
      validators' 0..5 range, so is the mean. */
  function AverageRating(ratings: seq<real>): (r: real)
    ensures ratings == [] ==> r == 0.0
    ensures ratings != [] ==> r * |ratings| as real == SumRatings(ratings)
    ensures RatingsInRange(ratings) ==> 0.0 <= r <= 5.0
  {
    if ratings == [] then 0.0
    else
      SumRatingsBounds(if RatingsInRange(ratings) then ratings else []);
      SumRatings(ratings) / |ratings| as real
  }

  // ----- The specialties JSON value -----

  /** A value stored in the `specialties` JSON column; only what the form
      inspects is kept of objects and numbers. */
  datatype Json =
    | JNull
    | JBool(b: bool)
    | JNumber(n: int)
    | JString(s: string)
    | JList(items: seq<Json>)
    | JObject(size: nat)

  /** Python truthiness of the decoded value. */
  predicate Truthy(j: Json) {
    match j
    case JNull => false
    case JBool(b) => b
    case JNumber(n) => n != 0
    case JString(s) => s != ""
    case JList(items) => items != []
    case JObject(size) => size != 0
  }

  predicate AllStrings(items: seq<Json>) {
    forall i :: 0 <= i < |items| ==> items[i].JString?
  }

  function Texts(items: seq<Json>): (r: seq<string>)
    requires AllStrings(items)
    ensures |r| == |items|
    ensures forall i :: 0 <= i < |r| ==> r[i] == items[i].s
  {
    if items == [] then [] else [items[0].s] + Texts(items[1..])
  }

  function ToJson(xs: seq<string>): (j: Json)
    ensures j.JList? && |j.items| == |xs| && AllStrings(j.items)
    ensures forall i :: 0 <= i < |xs| ==> j.items[i] == JString(xs[i])
  {
    JList(seq(|xs|, i requires 0 <= i < |xs| => JString(xs[i])))
  }

  lemma TextsOfToJson(xs: seq<string>)
    ensures Texts(ToJson(xs).items) == xs
  {
  }

  datatype FormError = JoinTypeError

  /** The initial text of the specialties box (`WorkshopAdminForm.__init__`):
      `None` leaves the field's own default. It is set only for a saved workshop
      (non-zero primary key) with truthy specialties: a list is shown one item
      per line, any other value as empty text, and a list holding a non-string
      makes `'\n'.join` raise. */
  function InitialSpecialtiesText(pk: Option<nat>, specialties: Json): (r: Result<Option<string>, FormError>)
    ensures (pk.None? || pk.value == 0 || !Truthy(specialties)) ==> r == Ok(None)
    ensures r.Err? <==> pk.Some? && pk.value != 0 && specialties.JList? && specialties.items != []
                        && !AllStrings(specialties.items)
    ensures r.Ok? && r.value.Some? && specialties.JList? ==>
              AllStrings(specialties.items) && r.value.value == Specialties.JoinLines(Texts(specialties.items))
    ensures pk.Some? && pk.value != 0 && Truthy(specialties) && !specialties.JList? ==> r == Ok(Some(""))
  {
    if pk.None? || pk.value == 0 || !Truthy(specialties) then Ok(None)
    else if !specialties.JList? then Ok(Some(Specialties.JoinLines([])))
    else if !AllStrings(specialties.items) then Err(JoinTypeError)
    else Ok(Some(Specialties.JoinLines(Texts(specialties.items))))
  }

  /** The text a user sees in the box: the initial text, or empty when none was set. */
  function ShownText(initial: Option<string>): string {
    if initial.Some? then initial.value else ""
  }

  /** Opening a saved workshop in the admin form and saving it without edits
      keeps its specialties, provided they are non-empty, already stripped and
      newline-free. */
  lemma {:induction false} UneditedFormKeepsSpecialties(pk: nat, xs: seq<string>)
    requires pk != 0
    requires forall i :: 0 <= i < |xs| ==> xs[i] != "" && Text.IsStripped(xs[i]) && '\n' !in xs[i]
    ensures InitialSpecialtiesText(Some(pk), ToJson(xs)).Ok?
    ensures ToJson(Specialties.ParseSpecialties(ShownText(InitialSpecialtiesText(Some(pk), ToJson(xs)).value))) == ToJson(xs)
  {
    TextsOfToJson(xs);
    if xs != [] {
      Specialties.SpecialtiesRoundTrip(xs);
    } else {
      assert ToJson(xs).items == [];
    }
  }

  // ----- The admin form and the model admin -----

  /** The workshop row the admin edits. */
  class Workshop {
    var pk: Option<nat>
    var userId: Option<UserId>
    var name: string
    var specialties: Json

    constructor (pk: Option<nat>, userId: Option<UserId>, name: string, specialties: Json)
      ensures this.pk == pk && this.userId == userId && this.name == name && this.specialties == specialties
    {
      this.pk, this.userId, this.name, this.specialties := pk, userId, name, specialties;
    }
  }

  /** `WorkshopAdminForm`: the edited instance, the initial text of the
      specialties box and, once cleaned, the parsed specialties. */
  class WorkshopAdminForm {
    const instance: Workshop
    var initial: Option<string>
    var cleanedSpecialties: Option<seq<string>>

    /** `__init__`, for an instance whose specialties can be shown. */
    constructor (instance: Workshop)
      requires InitialSpecialtiesText(instance.pk, instance.specialties).Ok?
      ensures this.instance == instance
      ensures initial == InitialSpecialtiesText(instance.pk, instance.specialties).value
      ensures cleanedSpecialties.None?
    {
      this.instance := instance;
      initial := InitialSpecialtiesText(instance.pk, instance.specialties).value;
      cleanedSpecialties := None;
    }

    /** `clean_specialties_input` on the submitted text, stored as the field's
        cleaned value. It runs only on text the field's validators accepted. */
    method CleanSpecialtiesInput(text: string) returns (specialties: seq<string>)
      requires Text.NoNullCharacter(text)
      modifies this`cleanedSpecialties
      ensures specialties == Specialties.ParseSpecialties(text)
      ensures text == "" ==> specialties == []
      ensures cleanedSpecialties == Some(specialties)
    {
      specialties := Specialties.ParseSpecialties(text);
      cleanedSpecialties := Some(specialties);
    }

    /** The form's cleaning of `specialties_input`: the `CharField`'s own
        validators first, which refuse U+0000, and only then
        `clean_specialties_input`. A refused field leaves no cleaned value and
        the form invalid. */
    method CleanSpecialtiesField(text: string) returns (valid: bool)
      modifies this`cleanedSpecialties
      ensures valid <==> Text.NoNullCharacter(text)
      ensures valid ==> cleanedSpecialties == Some(Specialties.ParseSpecialties(text))
      ensures !valid ==> cleanedSpecialties.None?
    {
      if !Text.NoNullCharacter(text) {
        cleanedSpecialties := None;
        return false;
      }
      var _ := CleanSpecialtiesInput(text);
      valid := true;
    }

    /** `save`: overwrite the instance's specialties with the cleaned list, or
        with `[]` when there is none. Only `specialties` changes. */
    method Save() returns (saved: Workshop)
      modifies instance`specialties
      ensures saved == instance
      ensures instance.specialties == ToJson(if cleanedSpecialties.Some? then cleanedSpecialties.value else [])
    {
      var list := if cleanedSpecialties.Some? then cleanedSpecialties.value else [];
      instance.specialties := ToJson(list);
      saved := instance;
    }
  }

  /** `WorkshopAdmin.save_model`: a workshop without an owner (no user id, or
      the falsy id 0) is given the requesting user; an existing owner is kept. */
  method SaveModel(requestUser: UserId, workshop: Workshop)
    modifies workshop`userId
    ensures old(workshop.userId).None? || old(workshop.userId).value == 0 ==> workshop.userId == Some(requestUser)
    ensures old(workshop.userId).Some? && old(workshop.userId).value != 0 ==> workshop.userId == old(workshop.userId)
  {
    if workshop.userId.None? || workshop.userId.value == 0 {
      workshop.userId := Some(requestUser);
    }
  }
}
