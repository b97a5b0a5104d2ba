/**
 * Python's insertion-ordered `dict` with string keys, as the request payloads
 * of the Indodax server use it: the entries in insertion order, the item
 * assignment `d[k] = v` (replace in place when the key exists, append
 * otherwise), and the `in` test.
 */
module PyDict {

  /** Python's `Optional[T]`: `None` or a value. */
  datatype Option<+T> = None | Some(value: T)

  /** Python truthiness of an `Optional[str]`: false for `None` and for `""`. */
  predicate Truthy(o: Option<string>)
  {
    o.Some? && o.value != ""
  }

  /** The entries of a dict, in insertion order. */
  type Items<V> = seq<(string, V)>

  /** `list(d.keys())`. */
  function Keys<V>(p: Items<V>): seq<string>
  {
    seq(|p|, i requires 0 <= i < |p| => p[i].0)
  }

  /** A dict never holds the same key twice. */
  predicate UniqueKeys<V>(p: Items<V>)
  {
    forall i, j :: 0 <= i < j < |p| ==> p[i].0 != p[j].0
  }

  /** `d.get(k)`: the value stored under `k`, if any. */
  function Lookup<V>(p: Items<V>, k: string): (r: Option<V>)
  {
    if p == [] then None
    else if p[0].0 == k then Some(p[0].1)
    else Lookup(p[1..], k)
  }

  /** `d.get(k)` finds a value exactly for the keys of the dict. */
  lemma {:induction false} LookupFindsKeys<V>(p: Items<V>, k: string)
    ensures Lookup(p, k).Some? <==> k in Keys(p)
  {
    if p != [] {
      assert Keys(p) == [p[0].0] + Keys(p[1..]);
      if p[0].0 != k {
        LookupFindsKeys(p[1..], k);
      }
    }
  }

  /**
   * `d[k] = v`: an existing key keeps its position and takes the new value;
   * a new key goes at the end.
   */
  function Assign<V>(p: Items<V>, k: string, v: V): Items<V>
  {
    if p == [] then [(k, v)]
    else if p[0].0 == k then [(k, v)] + p[1..]
    else [p[0]] + Assign(p[1..], k, v)
  }

  /** After `d[k] = v`, `d[k]` is `v` and every other key reads as before. */
  lemma {:induction false} LookupAssign<V>(p: Items<V>, k: string, v: V, k': string)
    ensures Lookup(Assign(p, k, v), k') == if k' == k then Some(v) else Lookup(p, k')
  {
    if p != [] && p[0].0 != k {
      LookupAssign(p[1..], k, v, k');
    }
  }

  /** `d[k] = v` leaves every entry under another key where it was. */
  lemma {:induction false} AssignKeepsOthers<V>(p: Items<V>, k: string, v: V, i: int)
    requires 0 <= i < |p| && p[i].0 != k
    ensures i < |Assign(p, k, v)| && Assign(p, k, v)[i] == p[i]
  {
    if p[0].0 != k && i > 0 {
      AssignKeepsOthers(p[1..], k, v, i - 1);
    }
  }

  /** `d[k] = v` on a key the dict does not hold appends the entry at the end. */
  lemma {:induction false} AssignAppends<V>(p: Items<V>, k: string, v: V)
    requires k !in Keys(p)
    ensures Assign(p, k, v) == p + [(k, v)]
  {
    if p != [] {
      assert Keys(p)[0] == p[0].0;
      assert k !in Keys(p[1..]) by {
        forall i | 0 <= i < |p| - 1
          ensures Keys(p[1..])[i] != k
        {
          assert Keys(p)[i + 1] == p[1..][i].0;
        }
      }
      AssignAppends(p[1..], k, v);
      assert [p[0]] + (p[1..] + [(k, v)]) == p + [(k, v)];
    }
  }

  /** In a dict, `d[k] = v` on a present key `k` replaces its entry where it stands. */
  lemma {:induction false} AssignReplaces<V>(p: Items<V>, k: string, v: V)
    requires UniqueKeys(p) && k in Keys(p)
    ensures |Assign(p, k, v)| == |p|
    ensures forall i :: 0 <= i < |p| ==> Assign(p, k, v)[i] == if p[i].0 == k then (k, v) else p[i]
  {
    var r := Assign(p, k, v);
    if p[0].0 == k {
      assert r == [(k, v)] + p[1..];
      forall i | 0 <= i < |p|
        ensures r[i] == if p[i].0 == k then (k, v) else p[i]
      {
        if i > 0 {
          assert p[0].0 != p[i].0;
        }
      }
    } else {
      var j :| 0 <= j < |p| && Keys(p)[j] == k;
      assert Keys(p[1..])[j - 1] == k;
      AssignReplaces(p[1..], k, v);
      var q := Assign(p[1..], k, v);
      assert r == [p[0]] + q;
      forall i | 0 < i < |p|
        ensures r[i] == if p[i].0 == k then (k, v) else p[i]
      {
        assert r[i] == q[i - 1] && p[i] == p[1..][i - 1];
      }
    }
  }

  /** Assignment keeps the keys of a dict unique. */
  lemma AssignKeepsUnique<V>(p: Items<V>, k: string, v: V)
    requires UniqueKeys(p)
    ensures UniqueKeys(Assign(p, k, v))
  {
    if k in Keys(p) {
      AssignReplaces(p, k, v);
    } else {
      AssignAppends(p, k, v);
      forall i | 0 <= i < |p|
        ensures p[i].0 != k
      {
        assert Keys(p)[i] == p[i].0;
      }
    }
  }

  /** The entries of a dict after more entries were appended. */
  lemma KeysAppend<V>(p: Items<V>, q: Items<V>)
    ensures Keys(p + q) == Keys(p) + Keys(q)
  {
  }

  /** Looking up a key of `p + q` finds it in `p` first, then in `q`. */
  lemma {:induction false} LookupAppend<V>(p: Items<V>, q: Items<V>, k: string)
    ensures Lookup(p + q, k) == if k in Keys(p) then Lookup(p, k) else Lookup(q, k)
  {
    if p == [] {
      assert p + q == q;
    } else if p[0].0 == k {
      assert (p + q)[0] == p[0];
      assert k == Keys(p)[0];
    } else {
      assert (p + q)[0] == p[0];
      assert (p + q)[1..] == p[1..] + q;
      assert k in Keys(p) <==> k in Keys(p[1..]) by {
        assert Keys(p) == [p[0].0] + Keys(p[1..]);
      }
      LookupAppend(p[1..], q, k);
    }
  }

  /** A Python `dict` object, updated in place. */
  class Dict<V> {
    var items: Items<V>

    ghost predicate Valid()
      reads this
    {
      UniqueKeys(items)
    }

    /** `{}`. */
    constructor ()
      ensures Valid() && items == []
    {
      items := [];
    }

    /** `k in d`. */
    predicate Contains(k: string)
      reads this
    {
      k in Keys(items)
    }

    /** `d[k] = v`. */
    method Set(k: string, v: V)
      requires Valid()
      modifies this
      ensures Valid()
      ensures k !in Keys(old(items)) ==> items == old(items) + [(k, v)]
      ensures k in Keys(old(items)) ==>
        |items| == |old(items)| &&
        forall i :: 0 <= i < |items| ==> items[i] == if old(items)[i].0 == k then (k, v) else old(items)[i]
    {
      AssignKeepsUnique(items, k, v);
      if k in Keys(items) {
        AssignReplaces(items, k, v);
      } else {
        AssignAppends(items, k, v);
      }
      items := Assign(items, k, v);
    }
  }
}
