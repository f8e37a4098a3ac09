/** The get-or-create tree builder of the request mapper. Groups are found
    by name in the group list and created at its end when missing; within a
    group, a property is found by name and created at the end when missing.
    An existing property is never overwritten: the first write wins. */
module PropertyTree {
  import opened Wrappers
  import opened Dsapi

  /** `k` is the position of the first occurrence of `name`. */
  predicate FirstIndex(names: seq<string>, name: string, k: nat) {
    && k < |names|
    && names[k] == name
    && forall j :: 0 <= j < k ==> names[j] != name
  }

  /** The position `find` stops at: the first entry named `name`, or `None`
      when there is none. */
  function IndexOf(names: seq<string>, name: string): (r: Option<nat>)
    ensures r.None? <==> name !in names
    ensures r.Some? ==> FirstIndex(names, name, r.value)
    decreases |names|
  {
    if |names| == 0 then None
    else if names[0] == name then Some(0)
    else
      match IndexOf(names[1..], name)
      case None => None
      case Some(k) => Some(k + 1)
  }

  /** The first occurrence is unique, so it determines `IndexOf`. */
  lemma IndexOfFirst(names: seq<string>, name: string, k: nat)
    requires FirstIndex(names, name, k)
    ensures IndexOf(names, name) == Some(k)
  {
    var r := IndexOf(names, name);
    assert names[k] == name;
    assert r.Some?;
  }

  /** Appending an entry moves no existing first occurrence. */
  lemma IndexOfAppend(names: seq<string>, x: string, name: string)
    requires name in names || name != x
    ensures IndexOf(names + [x], name) == IndexOf(names, name)
  {
    var s := names + [x];
    match IndexOf(names, name)
    case Some(k) =>
      assert FirstIndex(s, name, k);
      IndexOfFirst(s, name, k);
    case None =>
      assert name !in s;
  }

  /** Finds the group named `name`, appending an empty one when there is
      none; returns the (possibly extended) list and the group's position. */
  function GetOrCreateGroup(groups: seq<Group>, name: string): (r: (seq<Group>, nat))
    ensures FirstIndex(GroupNames(r.0), name, r.1)
    ensures name in GroupNames(groups) ==> r.0 == groups
    ensures name !in GroupNames(groups) ==> r.0 == groups + [Group(name, [])]
  {
    match IndexOf(GroupNames(groups), name)
    case Some(k) => (groups, k)
    case None =>
      var gs := groups + [Group(name, [])];
      assert FirstIndex(GroupNames(gs), name, |groups|);
      (gs, |groups|)
  }

  /** Finds the property named `name`, appending `Property(name, value)`
      when there is none; returns the (possibly extended) list and the
      property found or created. An existing property keeps its value. */
  function GetOrCreateProperty(props: seq<Property>, name: string, value: string): (r: (seq<Property>, Property))
    ensures r.1.pn == name && r.1 in r.0
    ensures name in PropertyNames(props) ==> r.0 == props && r.1 in props
    ensures name !in PropertyNames(props) ==> r.0 == props + [r.1] && r.1.pv == value
  {
    match IndexOf(PropertyNames(props), name)
    case Some(k) => (props, props[k])
    case None =>
      var p := Property(name, value);
      (props + [p], p)
  }

  /** Writes `value` under `propertyName` in group `groupName`, unless the
      property already exists. */
  function SetProperty(groups: seq<Group>, groupName: string, propertyName: string, value: string): (r: seq<Group>)
    ensures GroupNames(r) == GroupNames(groups) + (if groupName in GroupNames(groups) then [] else [groupName])
    ensures forall i :: 0 <= i < |groups| && groups[i].pn != groupName ==> r[i] == groups[i]
  {
    var (gs, k) := GetOrCreateGroup(groups, groupName);
    var (props, _) := GetOrCreateProperty(gs[k].pch, propertyName, value);
    var r := gs[k := Group(gs[k].pn, props)];
    assert GroupNames(r) == GroupNames(gs);
    r
  }

  /** The value a reader of the tree sees under (`groupName`,
      `propertyName`): the first matching property of the first matching
      group. */
  function Lookup(groups: seq<Group>, groupName: string, propertyName: string): Option<string> {
    match IndexOf(GroupNames(groups), groupName)
    case None => None
    case Some(k) =>
      match IndexOf(PropertyNames(groups[k].pch), propertyName)
      case None => None
      case Some(j) => Some(groups[k].pch[j].pv)
  }

  /** Creating a group: a write into a group that does not exist yet adds a
      group holding just that property at the end of the list. */
  lemma SetPropertyCreatesGroup(groups: seq<Group>, groupName: string, propertyName: string, value: string)
    requires groupName !in GroupNames(groups)
    ensures SetProperty(groups, groupName, propertyName, value)
         == groups + [Group(groupName, [Property(propertyName, value)])]
  {
    var gs := groups + [Group(groupName, [])];
    assert GetOrCreateGroup(groups, groupName) == (gs, |groups|);
    assert PropertyNames(gs[|groups|].pch) == [];
    assert GetOrCreateProperty([], propertyName, value).0 == [Property(propertyName, value)];
  }

  /** Appending a property: a write of a new property into the first group
      named `groupName` adds it at the end of that group and changes
      nothing else. */
  lemma SetPropertyAppends(groups: seq<Group>, groupName: string, propertyName: string, value: string, k: nat)
    requires FirstIndex(GroupNames(groups), groupName, k)
    requires propertyName !in PropertyNames(groups[k].pch)
    ensures SetProperty(groups, groupName, propertyName, value)
         == groups[k := Group(groupName, groups[k].pch + [Property(propertyName, value)])]
  {
    IndexOfFirst(GroupNames(groups), groupName, k);
  }

  /** First write wins: a write to a property that already exists leaves
      the whole tree unchanged, including that property's value. */
  lemma SetPropertyKeepsExisting(groups: seq<Group>, groupName: string, propertyName: string, value: string)
    requires Lookup(groups, groupName, propertyName).Some?
    ensures SetProperty(groups, groupName, propertyName, value) == groups
  {
    var k := IndexOf(GroupNames(groups), groupName).value;
    assert groups[k := Group(groups[k].pn, groups[k].pch)] == groups;
  }

  /** Read-back of a write, viewing the tree as a map from (group, property)
      to value: the written key reads the old value if it had one and the
      new value otherwise, and every other key reads as before. */
  lemma SetPropertyLookup(groups: seq<Group>, groupName: string, propertyName: string, value: string)
    ensures Lookup(SetProperty(groups, groupName, propertyName, value), groupName, propertyName)
         == if Lookup(groups, groupName, propertyName).Some? then Lookup(groups, groupName, propertyName) else Some(value)
    ensures forall g, p :: g != groupName || p != propertyName ==>
              Lookup(SetProperty(groups, groupName, propertyName, value), g, p) == Lookup(groups, g, p)
  {
    var r := SetProperty(groups, groupName, propertyName, value);
    if Lookup(groups, groupName, propertyName).Some? {
      SetPropertyKeepsExisting(groups, groupName, propertyName, value);
      return;
    }
    forall g, p | g != groupName || p != propertyName
      ensures Lookup(r, g, p) == Lookup(groups, g, p)
    {
      LookupFrame(groups, groupName, propertyName, value, g, p);
    }
    LookupWritten(groups, groupName, propertyName, value);
  }

  lemma LookupWritten(groups: seq<Group>, groupName: string, propertyName: string, value: string)
    requires Lookup(groups, groupName, propertyName).None?
    ensures Lookup(SetProperty(groups, groupName, propertyName, value), groupName, propertyName) == Some(value)
  {
    var r := SetProperty(groups, groupName, propertyName, value);
    match IndexOf(GroupNames(groups), groupName)
    case None =>
      SetPropertyCreatesGroup(groups, groupName, propertyName, value);
      assert FirstIndex(GroupNames(r), groupName, |groups|);
      IndexOfFirst(GroupNames(r), groupName, |groups|);
      assert r[|groups|].pch == [Property(propertyName, value)];
      assert FirstIndex(PropertyNames(r[|groups|].pch), propertyName, 0);
      IndexOfFirst(PropertyNames(r[|groups|].pch), propertyName, 0);
    case Some(k) =>
      var ps := groups[k].pch;
      SetPropertyAppends(groups, groupName, propertyName, value, k);
      assert GroupNames(r) == GroupNames(groups);
      IndexOfFirst(GroupNames(r), groupName, k);
      assert r[k].pch == ps + [Property(propertyName, value)];
      assert FirstIndex(PropertyNames(r[k].pch), propertyName, |ps|);
      IndexOfFirst(PropertyNames(r[k].pch), propertyName, |ps|);
  }

  lemma LookupFrame(groups: seq<Group>, groupName: string, propertyName: string, value: string, g: string, p: string)
    requires Lookup(groups, groupName, propertyName).None?
    requires g != groupName || p != propertyName
    ensures Lookup(SetProperty(groups, groupName, propertyName, value), g, p) == Lookup(groups, g, p)
  {
    var r := SetProperty(groups, groupName, propertyName, value);
    var names := GroupNames(groups);
    match IndexOf(names, groupName)
    case None =>
      SetPropertyCreatesGroup(groups, groupName, propertyName, value);
      if g != groupName {
        IndexOfAppend(names, groupName, g);
        assert GroupNames(r) == names + [groupName];
        match IndexOf(names, g)
        case None =>
        case Some(i) => assert r[i] == groups[i];
      } else {
        assert FirstIndex(GroupNames(r), g, |groups|);
        IndexOfFirst(GroupNames(r), g, |groups|);
        assert PropertyNames(r[|groups|].pch) == [propertyName];
        assert p !in PropertyNames(r[|groups|].pch);
      }
    case Some(k) =>
      var ps := groups[k].pch;
      SetPropertyAppends(groups, groupName, propertyName, value, k);
      assert GroupNames(r) == names;
      if g != groupName {
        match IndexOf(names, g)
        case None =>
        case Some(i) => assert r[i] == groups[i];
      } else {
        IndexOfFirst(names, g, k);
        assert PropertyNames(r[k].pch) == PropertyNames(ps) + [propertyName];
        IndexOfAppend(PropertyNames(ps), propertyName, p);
        match IndexOf(PropertyNames(ps), p)
        case None =>
        case Some(j) => assert r[k].pch[j] == ps[j];
      }
  }

  /** Writing the same key twice is the same as writing it once, whatever
      the second value: the second write finds the property and keeps it. */
  lemma SetPropertyIdempotent(groups: seq<Group>, groupName: string, propertyName: string, value: string, value': string)
    ensures SetProperty(SetProperty(groups, groupName, propertyName, value), groupName, propertyName, value')
         == SetProperty(groups, groupName, propertyName, value)
  {
    var r := SetProperty(groups, groupName, propertyName, value);
    SetPropertyLookup(groups, groupName, propertyName, value);
    SetPropertyKeepsExisting(r, groupName, propertyName, value');
  }

  /** Get-or-create never duplicates a name: group names stay pairwise
      distinct, and so do property names within every group. */
  lemma SetPropertyWellFormed(groups: seq<Group>, groupName: string, propertyName: string, value: string)
    requires WellFormed(groups)
    ensures WellFormed(SetProperty(groups, groupName, propertyName, value))
  {
    var r := SetProperty(groups, groupName, propertyName, value);
    match IndexOf(GroupNames(groups), groupName)
    case None =>
      SetPropertyCreatesGroup(groups, groupName, propertyName, value);
      assert PropertyNames(r[|groups|].pch) == [propertyName];
    case Some(k) =>
      if Lookup(groups, groupName, propertyName).Some? {
        SetPropertyKeepsExisting(groups, groupName, propertyName, value);
      } else {
        var ps := groups[k].pch;
        SetPropertyAppends(groups, groupName, propertyName, value, k);
        assert PropertyNames(r[k].pch) == PropertyNames(ps) + [propertyName];
        assert propertyName !in PropertyNames(ps);
      }
  }

  /** In a well-formed tree every stored property reads back its own
      value. */
  lemma LookupWellFormed(groups: seq<Group>, i: nat, j: nat)
    requires WellFormed(groups)
    requires i < |groups| && j < |groups[i].pch|
    ensures Lookup(groups, groups[i].pn, groups[i].pch[j].pn) == Some(groups[i].pch[j].pv)
  {
    assert FirstIndex(GroupNames(groups), groups[i].pn, i);
    IndexOfFirst(GroupNames(groups), groups[i].pn, i);
    assert FirstIndex(PropertyNames(groups[i].pch), groups[i].pch[j].pn, j);
    IndexOfFirst(PropertyNames(groups[i].pch), groups[i].pch[j].pn, j);
  }

  /** In a well-formed tree a name missing from a group reads as absent. */
  lemma LookupMissing(groups: seq<Group>, i: nat, propertyName: string)
    requires WellFormed(groups)
    requires i < |groups| && propertyName !in PropertyNames(groups[i].pch)
    ensures Lookup(groups, groups[i].pn, propertyName) == None
  {
    assert FirstIndex(GroupNames(groups), groups[i].pn, i);
    IndexOfFirst(GroupNames(groups), groups[i].pn, i);
  }
}
