/**
 * The ordered parameter list sent on the wire: a sequence of (key, value)
 * pairs in which a key may repeat. Nothing is deduplicated or reordered.
 */
module Params {
  import opened Wrappers

  type Param = (string, string)

  /** A (key, value) pair, as the fixture's `KVP` helper builds it. */
  function Kvp(key: string, value: string): Param
  {
    (key, value)
  }

  /** The pairs of `ps` whose key is in `keys`, in their original order and multiplicity. */
  function Select(ps: seq<Param>, keys: set<string>): (r: seq<Param>)
    ensures |r| <= |ps|
    ensures forall i :: 0 <= i < |r| ==> r[i].0 in keys
  {
    if ps == [] then []
    else (if ps[0].0 in keys then [ps[0]] else []) + Select(ps[1..], keys)
  }

  /** The value of the first pair with key `key`, if any. */
  function ValueOf(ps: seq<Param>, key: string): (r: Option<string>)
  {
    var s := Select(ps, {key});
    if s == [] then None else Some(s[0].1)
  }

  /** True when every key of `ps` lies in `keys`. */
  predicate KeysIn(ps: seq<Param>, keys: set<string>) {
    forall i :: 0 <= i < |ps| ==> ps[i].0 in keys
  }

  /** True when no key of `ps` lies in `keys`. */
  predicate KeysOutside(ps: seq<Param>, keys: set<string>) {
    forall i :: 0 <= i < |ps| ==> ps[i].0 !in keys
  }

  lemma {:induction false} SelectAppend(a: seq<Param>, b: seq<Param>, keys: set<string>)
    ensures Select(a + b, keys) == Select(a, keys) + Select(b, keys)
    decreases |a|
  {
    if a != [] {
      assert (a + b)[0] == a[0] && (a + b)[1..] == a[1..] + b;
      SelectAppend(a[1..], b, keys);
    } else {
      assert a + b == b;
    }
  }

  lemma {:induction false} SelectAll(ps: seq<Param>, keys: set<string>)
    requires KeysIn(ps, keys)
    ensures Select(ps, keys) == ps
    decreases |ps|
  {
    if ps != [] {
      SelectAll(ps[1..], keys);
      assert ps == [ps[0]] + ps[1..];
    }
  }

  lemma {:induction false} SelectNone(ps: seq<Param>, keys: set<string>)
    requires KeysOutside(ps, keys)
    ensures Select(ps, keys) == []
    decreases |ps|
  {
    if ps != [] {
      SelectNone(ps[1..], keys);
    }
  }

  /** The lists of `parts` concatenated in order. */
  function Flatten(parts: seq<seq<Param>>): (r: seq<Param>)
    decreases |parts|
  {
    if parts == [] then [] else parts[0] + Flatten(parts[1..])
  }

  lemma FlattenCons(first: seq<Param>, rest: seq<seq<Param>>)
    ensures Flatten([first] + rest) == first + Flatten(rest)
  {
    assert ([first] + rest)[1..] == rest;
  }

  function SelectEach(parts: seq<seq<Param>>, keys: set<string>): (r: seq<seq<Param>>)
    ensures |r| == |parts| && forall m :: 0 <= m < |parts| ==> r[m] == Select(parts[m], keys)
  {
    seq(|parts|, m requires 0 <= m < |parts| => Select(parts[m], keys))
  }

  lemma {:induction false} SelectFlatten(parts: seq<seq<Param>>, keys: set<string>)
    ensures Select(Flatten(parts), keys) == Flatten(SelectEach(parts, keys))
    decreases |parts|
  {
    if parts != [] {
      SelectAppend(parts[0], Flatten(parts[1..]), keys);
      SelectFlatten(parts[1..], keys);
      assert SelectEach(parts, keys)[1..] == SelectEach(parts[1..], keys);
    }
  }

  /** Concatenating lists that are all empty but one gives that one. */
  lemma {:induction false} FlattenOne(parts: seq<seq<Param>>, j: nat)
    requires j < |parts| && forall m :: 0 <= m < |parts| && m != j ==> parts[m] == []
    ensures Flatten(parts) == parts[j]
    decreases |parts|
  {
    if j == 0 {
      FlattenEmpty(parts[1..]);
    } else {
      FlattenOne(parts[1..], j - 1);
    }
  }

  lemma {:induction false} FlattenEmpty(parts: seq<seq<Param>>)
    requires forall m :: 0 <= m < |parts| ==> parts[m] == []
    ensures Flatten(parts) == []
    decreases |parts|
  {
    if parts != [] {
      FlattenEmpty(parts[1..]);
    }
  }
}
