// A node of the tree that lays out the flat rows of a data mapping
// (libs/utils/vs/TreeNode.ts).  A property the constructor leaves unset is
// `None` (undefined in JavaScript); `children` is `None` until the first
// child is added.

module TreeNodes {
  import opened Wrappers
  import opened FieldTypes

  /** The JavaScript truthiness of an optional string: set and non-empty. */
  predicate Truthy(s: Option<string>)
  {
    s.Some? && s.value != ""
  }

  /** What `if (x) this.f = x` leaves in a property that starts unset. */
  function IfTruthy(s: Option<string>): (r: Option<string>)
    ensures Truthy(s) ==> r == s
    ensures !Truthy(s) ==> r == None
    ensures r.Some? ==> r.value != ""
  {
    if Truthy(s) then s else None
  }

  const NullChild := "a child node must not be null"
  const EmptyName := "name parameter cannot be null or empty"
  const TypeClash := "field already defined with another type"

  class TreeNode {
    var fieldName: Option<string>
    var fieldType: Option<FieldType>
    var desc: Option<string>
    var children: Option<seq<TreeNode>>
    var id: Option<string>
    var pid: Option<string>

    /** Only the arguments that are truthy are stored.  Every tag of the
        field-type enum is a non-empty string, so a given type is stored. */
    constructor (fieldName: Option<string>, fieldType: Option<FieldType>, id: Option<string>, pid: Option<string>)
      ensures this.fieldName == IfTruthy(fieldName)
      ensures this.fieldType == fieldType
      ensures this.id == IfTruthy(id) && this.pid == IfTruthy(pid)
      ensures desc == None && children == None
    {
      this.fieldName := IfTruthy(fieldName);
      this.fieldType := fieldType;
      this.id := IfTruthy(id);
      this.pid := IfTruthy(pid);
      desc := None;
      children := None;
    }

    /** addChild: a null child is refused; otherwise the list is created on
        first use and the child goes to its end. */
    method AddChild(child: TreeNode?) returns (o: Outcome)
      modifies this
      ensures child == null ==> o == Throw(Failure(Generic, NullChild, [])) && children == old(children)
      ensures child != null ==> (o == Pass && children == Some(old(children).GetOr([]) + [child]))
      ensures fieldName == old(fieldName) && fieldType == old(fieldType) && desc == old(desc)
      ensures id == old(id) && pid == old(pid)
    {
      if child == null {
        return Throw(Failure(Generic, NullChild, []));
      }
      if children.None? {
        children := Some([]);
      }
      children := Some(children.value + [child]);
      o := Pass;
    }

    /** getChildByName: an empty name is refused; otherwise the first child
        with that field name, or null. */
    method GetChildByName(name: string) returns (r: Result<Option<TreeNode>>)
      ensures name == "" <==> r.Fail?
      ensures r.Fail? ==> r.failure == Failure(Generic, EmptyName, [])
      ensures r.Ok? && r.value.Some? ==>
        (children.Some? && exists i :: (0 <= i < |children.value| && children.value[i] == r.value.value
                                           && FirstNamed(children.value, name, i)))
      ensures r == Ok(None) ==> (children.None? || NoneNamed(children.value, name))
      ensures name != "" && children.Some? && !NoneNamed(children.value, name) ==> r.Ok? && r.value.Some?
    {
      if name == "" {
        return Fail(Failure(Generic, EmptyName, []));
      }
      if children.None? {
        return Ok(None);
      }
      var cs := children.value;
      for i := 0 to |cs|
        invariant forall j :: 0 <= j < i ==> cs[j].fieldName != Some(name)
      {
        if cs[i].fieldName == Some(name) {
          return Ok(Some(cs[i]));
        }
      }
      r := Ok(None);
    }
  }

  /** `i` is the first child whose field name is `name`. */
  ghost predicate FirstNamed(cs: seq<TreeNode>, name: string, i: int)
    reads set c | c in cs
  {
    && 0 <= i < |cs|
    && cs[i].fieldName == Some(name)
    && forall j :: 0 <= j < i ==> cs[j].fieldName != Some(name)
  }

  /** No child has the field name `name`. */
  ghost predicate NoneNamed(cs: seq<TreeNode>, name: string)
    reads set c | c in cs
  {
    forall j :: 0 <= j < |cs| ==> cs[j].fieldName != Some(name)
  }

  /** childContainsNameAndCheckDuplicate: is `name` already a child?  No list
      and no child of that name give false; the first child of that name gives
      true when its type is `fieldType` and throws when it is another. */
  method ChildContainsNameAndCheckDuplicate(children: Option<seq<TreeNode>>, name: string, fieldType: Option<FieldType>)
    returns (r: Result<bool>)
    ensures children.None? ==> r == Ok(false)
    ensures children.Some? && NoneNamed(children.value, name) ==> r == Ok(false)
    ensures r.Ok? && r.value ==> (children.Some? && exists i :: (FirstNamed(children.value, name, i)
                                                                   && children.value[i].fieldType == fieldType))
    ensures r.Fail? ==> (children.Some? && r.failure == Failure(Generic, TypeClash, [name])
                         && exists i :: (FirstNamed(children.value, name, i)
                                         && children.value[i].fieldType != fieldType))
    ensures r == Ok(false) ==> (children.None? || NoneNamed(children.value, name))
  {
    if children.None? {
      return Ok(false);
    }
    var cs := children.value;
    for i := 0 to |cs|
      invariant forall j :: 0 <= j < i ==> cs[j].fieldName != Some(name)
    {
      if cs[i].fieldName == Some(name) {
        assert FirstNamed(cs, name, i);
        if cs[i].fieldType == fieldType {
          return Ok(true);
        } else {
          return Fail(Failure(Generic, TypeClash, [name]));
        }
      }
    }
    r := Ok(false);
  }

  /** The first child of a name stays the first one when a child is added at
      the end, and a name that was absent is first found at the new child. */
  lemma {:induction false} FirstNamedAfterAdd(cs: seq<TreeNode>, c: TreeNode, name: string, i: int)
    ensures FirstNamed(cs, name, i) ==> FirstNamed(cs + [c], name, i)
    ensures NoneNamed(cs, name) && c.fieldName == Some(name) ==> FirstNamed(cs + [c], name, |cs|)
    ensures NoneNamed(cs, name) && c.fieldName != Some(name) ==> NoneNamed(cs + [c], name)
  {
    if FirstNamed(cs, name, i) {
      forall j | 0 <= j < i ensures (cs + [c])[j].fieldName != Some(name) {
        assert (cs + [c])[j] == cs[j];
      }
    }
    if NoneNamed(cs, name) {
      forall j | 0 <= j < |cs| ensures (cs + [c])[j].fieldName != Some(name) {
        assert (cs + [c])[j] == cs[j];
      }
    }
  }

  /** At most one child is the first of a name. */
  lemma FirstNamedUnique(cs: seq<TreeNode>, name: string, i: int, k: int)
    requires FirstNamed(cs, name, i) && FirstNamed(cs, name, k)
    ensures i == k
  {
  }
}
