/** Python's insertion-ordered `dict` with string keys, as a sequence of (key, value) pairs.
    The order is observable: `__repr__` and the form encoding walk the dict in that order. */
module Dicts {
  import opened Wrappers
  import opened PyValues

  type Dict = seq<(string, Value)>

  function Keys(d: Dict): (ks: seq<string>)
    ensures |ks| == |d| && forall i :: 0 <= i < |d| ==> ks[i] == d[i].0
  {
    seq(|d|, i requires 0 <= i < |d| => d[i].0)
  }

  /** A real dict never holds a key twice. */
  predicate UniqueKeys(d: Dict)
  {
    forall i, j :: 0 <= i < j < |d| ==> d[i].0 != d[j].0
  }

  /** The position of the first occurrence of `k` in `ks`. */
  function FirstIndex(ks: seq<string>, k: string): (r: Option<nat>)
    ensures r.None? <==> k !in ks
    ensures r.Some? ==> r.value < |ks| && ks[r.value] == k && forall j :: 0 <= j < r.value ==> ks[j] != k
  {
    if ks == [] then None
    else if ks[0] == k then Some(0)
    else
      match FirstIndex(ks[1..], k)
      case None => None
      case Some(i) => Some(i + 1)
  }

  lemma FirstIndexAppend(ks: seq<string>, k: string, k': string)
    requires k' != k
    ensures FirstIndex(ks + [k], k') == FirstIndex(ks, k')
  {
    var r, s := FirstIndex(ks + [k], k'), FirstIndex(ks, k');
    assert k' in ks + [k] <==> k' in ks;
    if r.Some? && s.Some? {
      assert (ks + [k])[s.value] == k';
      assert !(r.value < s.value) && !(s.value < r.value);
    }
  }

  /** `d.get(k)`: the value stored under `k`, if any. */
  function Get(d: Dict, k: string): (r: Option<Value>)
    ensures r.None? <==> k !in Keys(d)
    ensures r.Some? ==> (k, r.value) in d
    ensures UniqueKeys(d) ==> forall i :: 0 <= i < |d| && d[i].0 == k ==> r == Some(d[i].1)
  {
    match FirstIndex(Keys(d), k)
    case None => None
    case Some(i) => Some(d[i].1)
  }

  /** `d[k] = v`: an existing key keeps its position and takes the new value; a new key is
      appended at the end. */
  function Set(d: Dict, k: string, v: Value): (r: Dict)
    ensures k in Keys(d) ==> Keys(r) == Keys(d)
    ensures k !in Keys(d) ==> Keys(r) == Keys(d) + [k] && r == d + [(k, v)]
    ensures UniqueKeys(d) ==> UniqueKeys(r)
    ensures Get(r, k) == Some(v)
    ensures forall k' :: k' != k ==> Get(r, k') == Get(d, k')
  {
    match FirstIndex(Keys(d), k)
    case Some(i) =>
      var r := d[i := (k, v)];
      assert Keys(r) == Keys(d);
      r
    case None =>
      var r := d + [(k, v)];
      assert Keys(r) == Keys(d) + [k];
      forall k' | k' != k ensures Get(r, k') == Get(d, k') {
        FirstIndexAppend(Keys(d), k, k');
      }
      r
  }

  /** The value of the LAST pair in `kvs` whose key is `k`: the one that survives when the
      pairs are stored one after another. */
  function Lookup(kvs: Dict, k: string): Option<Value>
  {
    if kvs == [] then None
    else if kvs[|kvs| - 1].0 == k then Some(kvs[|kvs| - 1].1)
    else Lookup(kvs[..|kvs| - 1], k)
  }

  /** Stores the pairs of `kvs` into `d`, first to last. */
  function SetAll(d: Dict, kvs: Dict): Dict
  {
    if kvs == [] then d
    else
      var n := |kvs| - 1;
      Set(SetAll(d, kvs[..n]), kvs[n].0, kvs[n].1)
  }

  /** `ks` followed by the elements of `more` that are not already present, in order of their
      first occurrence. */
  function AppendNew(ks: seq<string>, more: seq<string>): (r: seq<string>)
    ensures |ks| <= |r| && r[..|ks|] == ks
    ensures forall x :: x in r <==> x in ks || x in more
  {
    if more == [] then ks
    else
      var n := |more| - 1;
      var p := AppendNew(ks, more[..n]);
      assert more == more[..n] + [more[n]];
      if more[n] in p then p else p + [more[n]]
  }

  /** Every key stored by `SetAll` holds the last value given for it; other keys keep theirs. */
  lemma {:induction false} SetAllGet(d: Dict, kvs: Dict, k: string)
    ensures Get(SetAll(d, kvs), k) == if Lookup(kvs, k).Some? then Lookup(kvs, k) else Get(d, k)
  {
    if kvs != [] {
      SetAllGet(d, kvs[..|kvs| - 1], k);
    }
  }

  /** `SetAll` keeps the keys of `d` in place and appends the new keys in first-seen order. */
  lemma {:induction false} SetAllKeys(d: Dict, kvs: Dict)
    ensures Keys(SetAll(d, kvs)) == AppendNew(Keys(d), Keys(kvs))
  {
    if kvs != [] {
      var n := |kvs| - 1;
      SetAllKeys(d, kvs[..n]);
      assert Keys(kvs[..n]) == Keys(kvs)[..n];
    }
  }

  lemma {:induction false} SetAllUnique(d: Dict, kvs: Dict)
    requires UniqueKeys(d)
    ensures UniqueKeys(SetAll(d, kvs))
  {
    if kvs != [] {
      SetAllUnique(d, kvs[..|kvs| - 1]);
    }
  }

  /** In a dict without repeated keys the last pair with a key is the only one. */
  lemma {:induction false} LookupUnique(kvs: Dict, k: string)
    requires UniqueKeys(kvs)
    ensures Lookup(kvs, k) == Get(kvs, k)
  {
    if kvs != [] {
      var n := |kvs| - 1;
      var p := kvs[..n];
      assert UniqueKeys(p);
      LookupUnique(p, k);
      if kvs[n].0 != k {
        assert Get(p, k).Some? ==> Get(kvs, k).Some?;
        assert Get(kvs, k).Some? ==> Get(p, k).Some?;
      }
    }
  }

  /** Copying a dict pair by pair into an empty one reproduces it exactly. */
  lemma {:induction false} CopyIsIdentity(kvs: Dict)
    requires UniqueKeys(kvs)
    ensures SetAll([], kvs) == kvs
  {
    if kvs != [] {
      var n := |kvs| - 1;
      var p, k, v := kvs[..n], kvs[n].0, kvs[n].1;
      assert UniqueKeys(p);
      CopyIsIdentity(p);
      assert k !in Keys(p) by {
        forall i | 0 <= i < |p| ensures Keys(p)[i] != k {
          assert p[i] == kvs[i];
        }
      }
      assert SetAll([], kvs) == Set(p, k, v);
      SplitLast(kvs);
    }
  }

  lemma SplitLast(kvs: Dict)
    requires kvs != []
    ensures kvs == kvs[..|kvs| - 1] + [(kvs[|kvs| - 1].0, kvs[|kvs| - 1].1)]
  {
  }
}
