/** The material-category tree and its nested serialization, in which every
    category carries the serializations of its children. */
module Categories {
  import opened Common

  /** A `MaterialCategory` with the categories whose `parent` it is. */
  datatype Category = Category(
    id: nat,
    name: string,
    description: string,
    parent: Option<nat>,
    children: seq<Category>)

  /** What `MaterialCategorySerializer` produces for one category. */
  datatype CategoryData = CategoryData(
    id: nat,
    name: string,
    description: string,
    parent: Option<nat>,
    parentName: Option<string>,
    children: seq<CategoryData>)

  /** Every child names its parent's id, all the way down. */
  predicate WellFormed(c: Category)
    decreases c
  {
    forall i :: 0 <= i < |c.children| ==>
      c.children[i].parent == Some(c.id) && WellFormed(c.children[i])
  }

  /** The serialization of `c`, whose parent is called `parentName` (`parent.name`).
      `get_children` gives `[]` for a leaf and otherwise the serializations of
      the children, whose parent is `c` itself. */
  function Serialize(c: Category, parentName: Option<string>): (d: CategoryData)
    decreases c
    ensures d.id == c.id && d.name == c.name && d.parent == c.parent && d.parentName == parentName
    ensures |d.children| == |c.children|
    ensures c.children == [] ==> d.children == []
    ensures forall i :: 0 <= i < |d.children| ==>
              d.children[i].id == c.children[i].id && d.children[i].parentName == Some(c.name)
  {
    CategoryData(c.id, c.name, c.description, c.parent, parentName, GetChildren(c))
  }

  /** `MaterialCategorySerializer.get_children`. */
  function GetChildren(c: Category): (r: seq<CategoryData>)
    decreases c, 0
    ensures |r| == |c.children|
    ensures forall i :: 0 <= i < |r| ==> r[i].id == c.children[i].id && r[i].parentName == Some(c.name)
  {
    if |c.children| > 0 then
      seq(|c.children|, i requires 0 <= i < |c.children| => Serialize(c.children[i], Some(c.name)))
    else []
  }

  /** Entry `i` of `get_children` is the serialization of child `i`. */
  lemma GetChildrenAt(c: Category, i: int)
    requires 0 <= i < |c.children|
    ensures GetChildren(c)[i] == Serialize(c.children[i], Some(c.name))
  {
  }

  /** Reading a category back from its serialization. */
  function Restore(d: CategoryData): Category
    decreases d
  {
    Category(d.id, d.name, d.description, d.parent,
             seq(|d.children|, i requires 0 <= i < |d.children| => Restore(d.children[i])))
  }

  /** The serialization loses nothing: the whole subtree can be read back. */
  lemma {:induction false} RestoreSerialize(c: Category, parentName: Option<string>)
    decreases c
    ensures Restore(Serialize(c, parentName)) == c
  {
    var d := Serialize(c, parentName);
    assert d.children == GetChildren(c);
    forall i | 0 <= i < |c.children|
      ensures Restore(d.children[i]) == c.children[i]
    {
      GetChildrenAt(c, i);
      RestoreSerialize(c.children[i], Some(c.name));
    }
    assert Restore(d).children == c.children;
  }

  /** In the serialization of a well-formed tree every nested category names its
      parent by both id and name. */
  predicate ParentsConsistent(d: CategoryData)
    decreases d
  {
    forall i :: 0 <= i < |d.children| ==>
      d.children[i].parent == Some(d.id) && d.children[i].parentName == Some(d.name)
      && ParentsConsistent(d.children[i])
  }

  lemma {:induction false} SerializeKeepsParents(c: Category, parentName: Option<string>)
    requires WellFormed(c)
    decreases c
    ensures ParentsConsistent(Serialize(c, parentName))
  {
    var d := Serialize(c, parentName);
    forall i | 0 <= i < |d.children|
      ensures d.children[i].parent == Some(d.id) && d.children[i].parentName == Some(d.name)
              && ParentsConsistent(d.children[i])
    {
      GetChildrenAt(c, i);
      assert d.children[i] == GetChildren(c)[i];
      SerializeKeepsParents(c.children[i], Some(c.name));
    }
  }
}
