/** The EC2 tag store as asgmaster uses it: tags attached to resources, the
    filtered read DescribeTags and the write CreateTags. The store itself is
    external to the program; this module gives it the semantics that the
    filters and the write in asgmaster.go rely on. */
module Tags {

  datatype Option<T> = None | Some(value: T) {
    function GetOr(default: T): T {
      match this
      case Some(v) => v
      case None => default
    }
  }

  /** One EC2 tag: a key/value pair attached to one resource. */
  datatype Tag = Tag(resourceId: string, resourceType: string, key: string, value: string)

  /** The resource type EC2 gives to tags on instances. */
  const InstanceType := "instance"

  /** A DescribeTags filter set as asgmaster builds it: every filter has one
      value, and the resource-id filter may be absent. */
  datatype Filter = Filter(resourceId: Option<string>, resourceType: string, key: string)

  predicate Matches(f: Filter, t: Tag) {
    && (f.resourceId.None? || f.resourceId.value == t.resourceId)
    && t.resourceType == f.resourceType
    && t.key == f.key
  }

  /** The outcome of one DescribeTags call: the tags it listed, or an error. */
  datatype Described = Ok(tags: seq<Tag>) | Err

  /** The tags of the store that the filter matches, in the store's order. */
  function Select(f: Filter, tags: seq<Tag>): (r: seq<Tag>)
    ensures |r| <= |tags|
    ensures forall t :: t in r ==> t in tags && Matches(f, t)
    ensures forall t :: t in tags && Matches(f, t) ==> t in r
    ensures r == [] <==> forall t :: t in tags ==> !Matches(f, t)
  {
    if tags == [] then []
    else if Matches(f, tags[0]) then [tags[0]] + Select(f, tags[1..])
    else Select(f, tags[1..])
  }

  /** DescribeTags: fails when the call fails (transport, auth, throttling),
      otherwise lists exactly the matching tags of the store. */
  function DescribeTags(tags: seq<Tag>, f: Filter, fails: bool): (r: Described)
    ensures r.Err? <==> fails
    ensures r.Ok? ==> forall t :: t in r.tags <==> t in tags && Matches(f, t)
  {
    if fails then Err else Ok(Select(f, tags))
  }

  /** Reference definition: the position of the first tag of the store that
      the filter matches, if there is one. */
  function FirstMatch(f: Filter, tags: seq<Tag>): (r: Option<nat>)
    ensures r.None? <==> forall t :: t in tags ==> !Matches(f, t)
    ensures r.Some? ==> r.value < |tags| && Matches(f, tags[r.value])
    ensures r.Some? ==> forall j :: 0 <= j < r.value ==> !Matches(f, tags[j])
  {
    if tags == [] then None
    else if Matches(f, tags[0]) then Some(0)
    else match FirstMatch(f, tags[1..]) {
      case None => None
      case Some(i) => Some(i + 1)
    }
  }

  /** The value of the first matching tag of the store, if there is one. */
  function FirstMatchValue(f: Filter, tags: seq<Tag>): Option<string> {
    match FirstMatch(f, tags)
    case None => None
    case Some(i) => Some(tags[i].value)
  }

  /** The listing starts with the first matching tag of the store. */
  lemma {:induction false} SelectStartsAtFirstMatch(f: Filter, tags: seq<Tag>)
    ensures FirstMatch(f, tags).Some? ==>
              Select(f, tags) != [] && Select(f, tags)[0] == tags[FirstMatch(f, tags).value]
  {
    if tags != [] && !Matches(f, tags[0]) {
      SelectStartsAtFirstMatch(f, tags[1..]);
    }
  }

  /** Listing a concatenation lists the two parts one after the other. */
  lemma {:induction false} SelectAppend(f: Filter, a: seq<Tag>, b: seq<Tag>)
    ensures Select(f, a + b) == Select(f, a) + Select(f, b)
  {
    if a == [] {
      assert a + b == b;
    } else {
      var ab := a + b;
      assert ab[0] == a[0] && ab[1..] == a[1..] + b;
      SelectAppend(f, a[1..], b);
      if Matches(f, a[0]) {
        calc {
          Select(f, ab);
          [a[0]] + Select(f, a[1..] + b);
          [a[0]] + (Select(f, a[1..]) + Select(f, b));
          ([a[0]] + Select(f, a[1..])) + Select(f, b);
        }
      }
    }
  }

  /** A tag the filter does not match never changes the listing, wherever it stands. */
  lemma SelectSkipsUnmatched(f: Filter, a: seq<Tag>, t: Tag, b: seq<Tag>)
    requires !Matches(f, t)
    ensures Select(f, a + [t] + b) == Select(f, a + b)
  {
    assert Select(f, [t]) == [] by {
      assert [t][1..] == [];
    }
    calc {
      Select(f, a + [t] + b);
      { SelectAppend(f, a + [t], b); }
      Select(f, a + [t]) + Select(f, b);
      { SelectAppend(f, a, [t]); }
      Select(f, a) + Select(f, b);
      { SelectAppend(f, a, b); }
      Select(f, a + b);
    }
  }

  /** The tags of the store outside the slot (resourceId, key). */
  function Without(tags: seq<Tag>, resourceId: string, key: string): (r: seq<Tag>)
    ensures |r| <= |tags|
    ensures forall t :: t in r <==> t in tags && !(t.resourceId == resourceId && t.key == key)
  {
    if tags == [] then []
    else if tags[0].resourceId == resourceId && tags[0].key == key then Without(tags[1..], resourceId, key)
    else [tags[0]] + Without(tags[1..], resourceId, key)
  }

  /** The store after a successful CreateTags of one tag: a resource holds at
      most one tag per key, so an old tag in the same slot is replaced; the new
      tag is listed last. */
  function Put(tags: seq<Tag>, t: Tag): (r: seq<Tag>)
    ensures r != [] && r[|r| - 1] == t
    ensures forall u :: u in r && u.resourceId == t.resourceId && u.key == t.key ==> u == t
    ensures forall u: Tag :: !(u.resourceId == t.resourceId && u.key == t.key) ==> (u in r <==> u in tags)
  {
    Without(tags, t.resourceId, t.key) + [t]
  }

  /** No tag in the slot (resourceId, key) can match the filter. */
  predicate Outside(f: Filter, resourceId: string, key: string) {
    key != f.key || (f.resourceId.Some? && f.resourceId.value != resourceId)
  }

  lemma {:induction false} SelectWithoutOutside(f: Filter, tags: seq<Tag>, resourceId: string, key: string)
    requires Outside(f, resourceId, key)
    ensures Select(f, Without(tags, resourceId, key)) == Select(f, tags)
  {
    if tags != [] {
      SelectWithoutOutside(f, tags[1..], resourceId, key);
      if !(tags[0].resourceId == resourceId && tags[0].key == key) {
        var rest := Without(tags[1..], resourceId, key);
        assert ([tags[0]] + rest)[1..] == rest;
      }
    }
  }

  /** A write to a slot the filter cannot see leaves its listing unchanged. */
  lemma SelectPutOutside(f: Filter, tags: seq<Tag>, t: Tag)
    requires Outside(f, t.resourceId, t.key)
    ensures Select(f, Put(tags, t)) == Select(f, tags)
  {
    SelectAppend(f, Without(tags, t.resourceId, t.key), [t]);
    SelectWithoutOutside(f, tags, t.resourceId, t.key);
    assert Select(f, [t]) == [];
  }

  /** Writing the first tag that a filter matches makes it the only one listed. */
  lemma SelectPutFirst(f: Filter, tags: seq<Tag>, t: Tag)
    requires Select(f, tags) == [] && Matches(f, t)
    ensures Select(f, Put(tags, t)) == [t]
  {
    var kept := Without(tags, t.resourceId, t.key);
    SelectAppend(f, kept, [t]);
    assert forall u :: u in kept ==> !Matches(f, u);
    assert Select(f, [t]) == [t];
  }

  /** Writing the same tag twice leaves the store as one write does. */
  lemma PutIdempotent(tags: seq<Tag>, t: Tag)
    ensures Put(Put(tags, t), t) == Put(tags, t)
  {
    WithoutAbsorbs(Without(tags, t.resourceId, t.key), t.resourceId, t.key, [t]);
  }

  lemma {:induction false} WithoutAbsorbs(tags: seq<Tag>, resourceId: string, key: string, slot: seq<Tag>)
    requires forall t :: t in tags ==> !(t.resourceId == resourceId && t.key == key)
    requires forall t :: t in slot ==> t.resourceId == resourceId && t.key == key
    ensures Without(tags + slot, resourceId, key) == tags
  {
    if tags == [] {
      WithoutSlot(slot, resourceId, key);
      assert tags + slot == slot;
    } else {
      assert (tags + slot)[1..] == tags[1..] + slot;
      WithoutAbsorbs(tags[1..], resourceId, key, slot);
    }
  }

  lemma {:induction false} WithoutSlot(slot: seq<Tag>, resourceId: string, key: string)
    requires forall t :: t in slot ==> t.resourceId == resourceId && t.key == key
    ensures Without(slot, resourceId, key) == []
  {
    if slot != [] {
      WithoutSlot(slot[1..], resourceId, key);
    }
  }

  /** The shared tag store the program talks to through its EC2 client. */
  class TagStore {
    var tags: seq<Tag>

    /** The store as it stands when a run starts. */
    constructor (initial: seq<Tag>)
      ensures tags == initial
    {
      tags := initial;
    }

    /** CreateTags for one tag on one instance. When the call fails the store
        is unchanged; otherwise the tag is written, replacing an old tag with
        the same key on the same resource. */
    method CreateTags(resourceId: string, key: string, value: string, fails: bool) returns (ok: bool)
      modifies this
      ensures ok == !fails
      ensures tags == if fails then old(tags) else Put(old(tags), Tag(resourceId, InstanceType, key, value))
    {
      if fails {
        return false;
      }
      tags := Put(tags, Tag(resourceId, InstanceType, key, value));
      return true;
    }
  }
}
