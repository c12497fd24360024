/**
 * The configuration tree and the property merge the secret pipeline relies on.
 *
 * A property key such as "a.b.password" names a path of object fields. Merging a
 * property sets the leaf at that path to a text node, creating missing
 * intermediate objects and keeping every sibling. This is the behaviour of
 * Bootique's InPlacePropertiesMerger that the secret-merge pipeline depends on.
 */
module ConfigTree {
  import opened Outcomes
  import opened Json

  type Path = seq<string>

  /** Splits a dotted property key into its segments; "" and segments around ".." are kept as empty. */
  function Split(s: string): (r: Path)
    ensures |r| >= 1
    decreases |s|
  {
    if s == [] then [""]
    else
      var rest := Split(s[1..]);
      if s[0] == '.' then [""] + rest else [[s[0]] + rest[0]] + rest[1..]
  }

  /** Joins segments back with dots. */
  function Join(p: Path): string
    requires |p| >= 1
  {
    if |p| == 1 then p[0] else p[0] + "." + Join(p[1..])
  }

  lemma {:induction false} SplitNoDot(s: string)
    requires '.' !in s
    ensures Split(s) == [s]
    decreases |s|
  {
    if s != [] {
      assert '.' !in s[1..];
      SplitNoDot(s[1..]);
      assert [s[0]] + s[1..] == s;
    }
  }

  /** A dot in a key separates two paths: the segments of the head followed by the segments of the tail. */
  lemma {:induction false} SplitDotted(a: string, b: string)
    ensures Split(a + "." + b) == Split(a) + Split(b)
    decreases |a|
  {
    if a == [] {
      assert a + "." + b == "." + b;
      assert ("." + b)[1..] == b;
    } else {
      assert (a + "." + b)[0] == a[0];
      assert (a + "." + b)[1..] == a[1..] + "." + b;
      SplitDotted(a[1..], b);
    }
  }

  /** Splitting undoes joining for segments that carry no dot. */
  lemma {:induction false} SplitJoin(p: Path)
    requires |p| >= 1
    requires forall i :: 0 <= i < |p| ==> '.' !in p[i]
    ensures Split(Join(p)) == p
  {
    if |p| == 1 {
      SplitNoDot(p[0]);
    } else {
      SplitJoin(p[1..]);
      SplitDotted(p[0], Join(p[1..]));
      SplitNoDot(p[0]);
      assert [p[0]] + p[1..] == p;
    }
  }

  /** The node at a path, if every segment names a field of an object. */
  function Lookup(t: Json, p: Path): Option<Json>
    decreases |p|
  {
    if p == [] then Some(t)
    else if t.JObject? && p[0] in t.fields then Lookup(t.fields[p[0]], p[1..])
    else None
  }

  /**
   * Sets the node at a non-empty path to v, creating missing intermediate objects and
   * keeping every other field. A node on the way that is not an object is replaced
   * by an object.
   */
  function SetAt(t: Json, p: Path, v: Json): Json
    requires |p| >= 1
    decreases |p|
  {
    var m := Fields(t);
    var child := if p[0] in m then m[p[0]] else EmptyObject;
    var newChild := if |p| == 1 then v else SetAt(child, p[1..], v);
    JObject(m[p[0] := newChild])
  }

  /** Neither path is a prefix of the other: writing one cannot touch the other. */
  predicate Disjoint(p: Path, q: Path) {
    !(p <= q) && !(q <= p)
  }

  /** Paths that differ at a position they both have are disjoint. */
  lemma DisjointAt(p: Path, q: Path, i: nat)
    requires i < |p| && i < |q| && p[i] != q[i]
    ensures Disjoint(p, q)
  {
    assert |p| <= |q| ==> q[..|p|][i] == q[i];
    assert |q| <= |p| ==> p[..|q|][i] == p[i];
  }

  lemma {:induction false} SetAtThenLookup(t: Json, p: Path, v: Json)
    requires |p| >= 1
    ensures Lookup(SetAt(t, p, v), p) == Some(v)
    decreases |p|
  {
    if |p| > 1 {
      var m := Fields(t);
      var child := if p[0] in m then m[p[0]] else EmptyObject;
      SetAtThenLookup(child, p[1..], v);
    }
  }

  lemma {:induction false} SetAtKeepsDisjoint(t: Json, q: Path, v: Json, p: Path)
    requires |q| >= 1
    requires Disjoint(p, q)
    ensures Lookup(SetAt(t, q, v), p) == Lookup(t, p)
    decreases |q|
  {
    assert |p| >= 1;
    if p[0] == q[0] {
      assert |q| > 1 && |p| > 1 by {
        assert |q| == 1 ==> q <= p;
        assert |p| == 1 ==> p <= q;
      }
      assert Disjoint(p[1..], q[1..]) by {
        assert p[1..] <= q[1..] ==> p <= q;
        assert q[1..] <= p[1..] ==> q <= p;
      }
      var m := Fields(t);
      var child := if q[0] in m then m[q[0]] else EmptyObject;
      SetAtKeepsDisjoint(child, q[1..], v, p[1..]);
      assert Lookup(EmptyObject, p[1..]) == None;
    }
  }

  /** The path a property key writes to. */
  function PathOf(key: string): Path {
    Split(key)
  }

  /** `order` lists every key of `keys` exactly once. */
  predicate IsEnumeration(order: seq<string>, keys: set<string>) {
    && (forall i, j :: 0 <= i < j < |order| ==> order[i] != order[j])
    && (forall k :: k in order ==> k in keys)
    && (forall k :: k in keys ==> k in order)
  }

  /** An enumeration is as long as the set it enumerates: every key is merged exactly once. */
  lemma {:induction false} EnumerationLength(order: seq<string>, keys: set<string>)
    requires IsEnumeration(order, keys)
    ensures |order| == |keys|
    decreases |order|
  {
    if order != [] {
      var rest := order[1..];
      assert order[0] in order;
      forall k | k in rest ensures k in keys - {order[0]} {
        var j :| 0 <= j < |rest| && rest[j] == k;
        assert order[j + 1] == k;
      }
      forall k | k in keys - {order[0]} ensures k in rest {
        var j :| 0 <= j < |order| && order[j] == k;
        assert j != 0;
        assert rest[j - 1] == k;
      }
      assert forall i, j :: 0 <= i < j < |rest| ==> rest[i] == order[i + 1] && rest[j] == order[j + 1];
      EnumerationLength(rest, keys - {order[0]});
    }
  }

  /** Applies the properties one by one in the given order, each as a text leaf. */
  function ApplyInOrder(t: Json, props: map<string, string>, order: seq<string>): Json
    requires forall k :: k in order ==> k in props
    decreases |order|
  {
    if order == [] then t
    else ApplyInOrder(SetAt(t, PathOf(order[0]), JString(props[order[0]])), props, order[1..])
  }

  /** The path of `key` is disjoint from the path of every other key: its value cannot be overwritten. */
  predicate Unshadowed(props: map<string, string>, key: string) {
    forall k :: k in props && k != key ==> Disjoint(PathOf(key), PathOf(k))
  }

  /** A path no property writes to or through. */
  predicate Untouched(props: map<string, string>, p: Path) {
    forall k :: k in props ==> Disjoint(p, PathOf(k))
  }

  lemma {:induction false} ApplyKeepsUntouched(t: Json, props: map<string, string>, order: seq<string>, p: Path)
    requires forall k :: k in order ==> k in props
    requires forall k :: k in order ==> Disjoint(p, PathOf(k))
    ensures Lookup(ApplyInOrder(t, props, order), p) == Lookup(t, p)
    decreases |order|
  {
    if order != [] {
      assert order[0] in order;
      SetAtKeepsDisjoint(t, PathOf(order[0]), JString(props[order[0]]), p);
      ApplyKeepsUntouched(SetAt(t, PathOf(order[0]), JString(props[order[0]])), props, order[1..], p);
    }
  }

  lemma {:induction false} ApplySetsUnshadowed(t: Json, props: map<string, string>, order: seq<string>, key: string)
    requires forall k :: k in order ==> k in props
    requires forall i, j :: 0 <= i < j < |order| ==> order[i] != order[j]
    requires key in order && Unshadowed(props, key)
    ensures Lookup(ApplyInOrder(t, props, order), PathOf(key)) == Some(JString(props[key]))
    decreases |order|
  {
    var t1 := SetAt(t, PathOf(order[0]), JString(props[order[0]]));
    if order[0] == key {
      SetAtThenLookup(t, PathOf(key), JString(props[key]));
      forall k | k in order[1..] ensures Disjoint(PathOf(key), PathOf(k)) {
        var j :| 0 <= j < |order[1..]| && order[1..][j] == k;
        assert order[j + 1] == k;
      }
      ApplyKeepsUntouched(t1, props, order[1..], PathOf(key));
    } else {
      ApplySetsUnshadowed(t1, props, order[1..], key);
    }
  }

  /**
   * The merge, in whatever order the properties are applied: every unshadowed key gets
   * its value as a text leaf, and every untouched path keeps its node.
   */
  lemma MergeMeaning(t: Json, props: map<string, string>, order: seq<string>)
    requires IsEnumeration(order, props.Keys)
    ensures forall key :: key in props && Unshadowed(props, key) ==>
              Lookup(ApplyInOrder(t, props, order), PathOf(key)) == Some(JString(props[key]))
    ensures forall p :: Untouched(props, p) ==> Lookup(ApplyInOrder(t, props, order), p) == Lookup(t, p)
  {
    forall key | key in props && Unshadowed(props, key)
      ensures Lookup(ApplyInOrder(t, props, order), PathOf(key)) == Some(JString(props[key]))
    {
      ApplySetsUnshadowed(t, props, order, key);
    }
    forall p | Untouched(props, p)
      ensures Lookup(ApplyInOrder(t, props, order), p) == Lookup(t, p)
    {
      ApplyKeepsUntouched(t, props, order, p);
    }
  }

  /**
   * InPlacePropertiesMerger.apply: merges a property map into the tree. The order in
   * which the map is walked is not specified; `order` reports the one taken.
   */
  method MergeProperties(t: Json, props: map<string, string>) returns (r: Json, ghost order: seq<string>)
    ensures IsEnumeration(order, props.Keys)
    ensures r == ApplyInOrder(t, props, order)
  {
    r := t;
    order := [];
    var remaining := props.Keys;
    while remaining != {}
      invariant remaining <= props.Keys
      invariant forall k :: k in order ==> k in props && k !in remaining
      invariant forall k :: k in props ==> k in order || k in remaining
      invariant forall i, j :: 0 <= i < j < |order| ==> order[i] != order[j]
      invariant ApplyInOrder(t, props, order) == r
      decreases remaining
    {
      var k :| k in remaining;
      ApplyAppend(t, props, order, k);
      r := SetAt(r, PathOf(k), JString(props[k]));
      order := order + [k];
      remaining := remaining - {k};
    }
  }

  lemma {:induction false} ApplyAppend(t: Json, props: map<string, string>, order: seq<string>, k: string)
    requires forall x :: x in order ==> x in props
    requires k in props
    ensures ApplyInOrder(t, props, order + [k]) == SetAt(ApplyInOrder(t, props, order), PathOf(k), JString(props[k]))
    decreases |order|
  {
    if order == [] {
      assert order + [k] == [k];
    } else {
      assert (order + [k])[1..] == order[1..] + [k];
      ApplyAppend(SetAt(t, PathOf(order[0]), JString(props[order[0]])), props, order[1..], k);
    }
  }
}
