/**
 * Filter expressions over tags: a leaf names one tag, a group combines an
 * ordered list of child filters with "and" or "or". A group marked local
 * may hold only leaves and local groups, at every depth.
 */
module Filters {
  import opened Wrappers

  /** `Filter`: `TagFilter` (group = false) or `GroupedFilter` (group = true). */
  datatype Filter =
    | TagFilter(invert: bool, tag: string)
    | GroupedFilter(invert: bool, local: bool, or: bool, filters: seq<Filter>)

  /**
   * A filter object as it arrives, before its `group` flag has been read:
   * every field a variant may carry, present or not.
   */
  datatype FilterObject = FilterObject(
    group: bool,
    invert: bool,
    tag: Option<string>,
    local: Option<bool>,
    or: Option<bool>,
    filters: Children)

  /** The `filters` field of an object: absent, or a list of objects. */
  datatype Children = NoChildren | Children(items: seq<FilterObject>)

  /** The `group` discriminant of a (typed) filter. */
  function Group(f: Filter): (g: bool)
    ensures g <==> !f.TagFilter?
  {
    match f
    case TagFilter(_, _) => false
    case GroupedFilter(_, _, _, _) => true
  }

  /** The object a filter is written as: its variant's fields and nothing else. */
  function Encode(f: Filter): (o: FilterObject)
    ensures o.group == Group(f)
    ensures o.tag.Some? <==> !o.group
    ensures o.filters.Children? <==> o.group
  {
    match f
    case TagFilter(invert, tag) => FilterObject(false, invert, Some(tag), None, None, NoChildren)
    case GroupedFilter(invert, local, or, filters) =>
      FilterObject(true, invert, None, Some(local), Some(or), Children(EncodeAll(filters)))
  }

  function EncodeAll(fs: seq<Filter>): (os: seq<FilterObject>)
    ensures |os| == |fs|
    ensures forall i | 0 <= i < |fs| :: os[i] == Encode(fs[i])
  {
    if fs == [] then [] else EncodeAll(fs[..|fs| - 1]) + [Encode(fs[|fs| - 1])]
  }

  /**
   * Reads an object by its `group` flag: a leaf needs a tag, a group needs
   * `local`, `or` and children that all read as filters. Fields the chosen
   * variant does not have are ignored.
   */
  function Decode(o: FilterObject): (r: Option<Filter>)
    ensures r.Some? ==> Group(r.value) == o.group && r.value.invert == o.invert
    ensures r.Some? && !o.group ==> o.tag == Some(r.value.tag)
    ensures !o.group ==> (r.Some? <==> o.tag.Some?)
    ensures o.group && (o.local.None? || o.or.None? || o.filters.NoChildren?) ==> r.None?
    decreases o
  {
    if !o.group then
      match o.tag
      case None => None
      case Some(tag) => Some(TagFilter(o.invert, tag))
    else if o.local.None? || o.or.None? || o.filters.NoChildren? then None
    else
      match DecodeAll(o.filters.items)
      case None => None
      case Some(children) => Some(GroupedFilter(o.invert, o.local.value, o.or.value, children))
  }

  /** Reads the children of a group object, failing if any of them fails. */
  function DecodeAll(os: seq<FilterObject>): (r: Option<seq<Filter>>)
    ensures r.Some? ==> |r.value| == |os|
    ensures r.Some? ==> forall i | 0 <= i < |os| :: Decode(os[i]) == Some(r.value[i])
    ensures r.None? ==> exists i | 0 <= i < |os| :: Decode(os[i]).None?
    decreases os
  {
    if os == [] then Some([])
    else
      match DecodeAll(os[..|os| - 1])
      case None => None
      case Some(init) =>
        match Decode(os[|os| - 1])
        case None => None
        case Some(last) => Some(init + [last])
  }

  /** `LocalFilter`: a leaf, or a local group whose children are all local filters. */
  predicate IsLocalFilter(f: Filter) {
    match f
    case TagFilter(_, _) => true
    case GroupedFilter(_, local, _, filters) => local && forall i | 0 <= i < |filters| :: IsLocalFilter(filters[i])
  }

  /**
   * Locality is respected throughout: every local group is a
   * `LocalGroupFilter`, while a non-local group may hold any
   * well-formed children, local groups included.
   */
  predicate WellFormed(f: Filter) {
    match f
    case TagFilter(_, _) => true
    case GroupedFilter(_, local, _, filters) =>
      if local then IsLocalFilter(f) else forall i | 0 <= i < |filters| :: WellFormed(filters[i])
  }

  /** The filter reached by following child indices down from f, if they exist. */
  function Subfilter(f: Filter, path: seq<nat>): (r: Option<Filter>)
    ensures path == [] ==> r == Some(f)
    ensures f.TagFilter? && path != [] ==> r.None?
    decreases |path|
  {
    if path == [] then Some(f)
    else match f
      case TagFilter(_, _) => None
      case GroupedFilter(_, _, _, filters) =>
        if path[0] < |filters| then Subfilter(filters[path[0]], path[1..]) else None
  }

  /** Leaves and local groups: the nodes a local group may contain. */
  predicate LocalNode(f: Filter) {
    f.TagFilter? || f.local
  }

  // ---------------------------------------------------------------------------
  // Reading back what was written
  // ---------------------------------------------------------------------------

  /** Decoding the object a filter is written as gives the filter back. */
  lemma {:induction false} DecodeEncode(f: Filter)
    ensures Decode(Encode(f)) == Some(f)
    decreases f
  {
    match f
    case TagFilter(_, _) =>
    case GroupedFilter(_, _, _, filters) =>
      DecodeAllEncode(filters);
  }

  /** Reading a list of written filters gives the list back. */
  lemma {:induction false} DecodeAllEncode(fs: seq<Filter>)
    ensures DecodeAll(EncodeAll(fs)) == Some(fs)
    decreases fs
  {
    if fs != [] {
      var init, last := fs[..|fs| - 1], fs[|fs| - 1];
      var os := EncodeAll(fs);
      assert os[..|fs| - 1] == EncodeAll(init);
      DecodeAllEncode(init);
      DecodeEncode(last);
      assert init + [last] == fs;
    }
  }

  /** The `group` flag alone decides the variant an object reads as. */
  lemma Discriminant(o: FilterObject, f: Filter)
    requires Decode(o) == Some(f)
    ensures o.group ==> f.GroupedFilter? && o.local == Some(f.local) && o.or == Some(f.or)
    ensures !o.group ==> f == TagFilter(o.invert, o.tag.value)
  {
  }

  // ---------------------------------------------------------------------------
  // Locality
  // ---------------------------------------------------------------------------

  /** A local filter respects locality. */
  lemma LocalIsWellFormed(f: Filter)
    requires IsLocalFilter(f)
    ensures WellFormed(f)
  {
  }

  /** Under a local filter, at every depth, there are only leaves and local groups. */
  lemma {:induction false} LocalDescendants(f: Filter, path: seq<nat>)
    requires IsLocalFilter(f) && Subfilter(f, path).Some?
    ensures IsLocalFilter(Subfilter(f, path).value)
    ensures LocalNode(Subfilter(f, path).value)
    decreases |path|
  {
    if path != [] {
      LocalDescendants(f.filters[path[0]], path[1..]);
    }
  }

  /** Conversely, a filter all of whose nodes are leaves or local groups is local. */
  lemma {:induction false} AllLocalNodes(f: Filter)
    requires forall path | Subfilter(f, path).Some? :: LocalNode(Subfilter(f, path).value)
    ensures IsLocalFilter(f)
    decreases f
  {
    assert Subfilter(f, []) == Some(f);
    if f.GroupedFilter? {
      forall i | 0 <= i < |f.filters|
        ensures IsLocalFilter(f.filters[i])
      {
        var child := f.filters[i];
        forall path | Subfilter(child, path).Some?
          ensures LocalNode(Subfilter(child, path).value)
        {
          assert Subfilter(f, [i] + path) == Subfilter(child, path) by {
            assert ([i] + path)[1..] == path;
          }
        }
        AllLocalNodes(child);
      }
    }
  }

  /** A well-formed filter has only well-formed subfilters. */
  lemma {:induction false} WellFormedDescendants(f: Filter, path: seq<nat>)
    requires WellFormed(f) && Subfilter(f, path).Some?
    ensures WellFormed(Subfilter(f, path).value)
    decreases |path|
  {
    if path != [] {
      if f.local {
        LocalDescendants(f, path);
        LocalIsWellFormed(Subfilter(f, path).value);
      } else {
        WellFormedDescendants(f.filters[path[0]], path[1..]);
      }
    }
  }

  /** Below a local group no non-local group occurs, at any depth. */
  lemma NoGlobalUnderLocal(f: Filter, path: seq<nat>)
    requires WellFormed(f) && f.GroupedFilter? && f.local
    requires Subfilter(f, path).Some? && Subfilter(f, path).value.GroupedFilter?
    ensures Subfilter(f, path).value.local
  {
    LocalDescendants(f, path);
  }

  /** A non-local group accepts any well-formed children, local groups among them. */
  lemma GlobalGroupAcceptsAny(invert: bool, or: bool, filters: seq<Filter>)
    requires forall i | 0 <= i < |filters| :: WellFormed(filters[i])
    ensures WellFormed(GroupedFilter(invert, false, or, filters))
    ensures !IsLocalFilter(GroupedFilter(invert, false, or, filters))
  {
  }

  /** A local group holding a non-local group breaks locality. */
  lemma LocalRejectsGlobalChild(invert: bool, or: bool, filters: seq<Filter>, i: nat)
    requires i < |filters| && filters[i].GroupedFilter? && !filters[i].local
    ensures !WellFormed(GroupedFilter(invert, true, or, filters))
  {
    assert !IsLocalFilter(filters[i]);
  }
}
