/**
 * Python's `dict` with string keys: an association list without repeated keys, in insertion order.
 * Assigning to a key that is already present keeps its position; a new key goes last.
 */
module Dicts {
  import opened Options

  predicate NoDupKeys<V>(e: seq<(string, V)>) {
    forall i, j :: 0 <= i < j < |e| ==> e[i].0 != e[j].0
  }

  type Dict<V> = e: seq<(string, V)> | NoDupKeys(e) witness []

  /** The keys in insertion order (Python's `list(d.keys())`). */
  function Keys<V>(d: seq<(string, V)>): (ks: seq<string>)
    ensures |ks| == |d|
    ensures forall i :: 0 <= i < |d| ==> ks[i] == d[i].0
  {
    seq(|d|, i requires 0 <= i < |d| => d[i].0)
  }

  /** The position of a key that is present. */
  function IndexOf<V>(d: Dict<V>, k: string): (i: nat)
    requires k in Keys(d)
    ensures i < |d| && d[i].0 == k
    ensures forall j :: 0 <= j < |d| && d[j].0 == k ==> j == i
    decreases |d|
  {
    if d[0].0 == k then 0
    else
      assert k in Keys(d[1..]) by {
        var j :| 0 <= j < |d| && Keys(d)[j] == k;
        assert Keys(d[1..])[j - 1] == k;
      }
      1 + IndexOf(d[1..], k)
  }

  /** Python's `d.get(k)`. */
  function Get<V>(d: Dict<V>, k: string): (r: Option<V>)
    ensures r.Some? <==> k in Keys(d)
  {
    if k in Keys(d) then Some(d[IndexOf(d, k)].1) else None
  }

  /** Python's `d[k] = v`. */
  function Put<V>(d: Dict<V>, k: string, v: V): (r: Dict<V>)
    ensures Get(r, k) == Some(v)
    ensures forall k' :: k' != k ==> Get(r, k') == Get(d, k')
    ensures Keys(r) == if k in Keys(d) then Keys(d) else Keys(d) + [k]
  {
    if k in Keys(d) then
      var i := IndexOf(d, k);
      var r := d[i := (k, v)];
      assert Keys(r) == Keys(d);
      r
    else
      var r := d + [(k, v)];
      assert Keys(r) == Keys(d) + [k];
      r
  }

  /** Assigning a key keeps the keys already there, in place, and adds at most that key. */
  lemma PutKeepsKeys<V>(d: Dict<V>, k: string, v: V)
    ensures |Put(d, k, v)| >= |d| && Keys(Put(d, k, v))[..|d|] == Keys(d)
    ensures forall k' :: k' in Keys(Put(d, k, v)) ==> k' in Keys(d) || k' == k
  {
    if k !in Keys(d) {
      assert (Keys(d) + [k])[..|d|] == Keys(d);
    }
  }

  /** The elements of `s` not in `out`, order kept. */
  function Outside(s: seq<string>, out: seq<string>): seq<string>
  {
    if |s| == 0 then [] else (if s[0] in out then [] else [s[0]]) + Outside(s[1..], out)
  }

  lemma {:induction false} OutsideIgnores(s: seq<string>, out: seq<string>, x: string)
    requires x !in s
    ensures Outside(s, out + [x]) == Outside(s, out)
  {
    if |s| > 0 { OutsideIgnores(s[1..], out, x); }
  }

  /** The keys of a non-empty dictionary: its first key, which does not come again, then the others. */
  lemma KeysCons<V>(e: Dict<V>)
    requires |e| > 0
    ensures Keys(e) == [e[0].0] + Keys(e[1..]) && e[0].0 !in Keys(e[1..])
  {
    var tail := Keys(e[1..]);
    assert Keys(e) == [e[0].0] + tail;
    forall j | 0 <= j < |tail| ensures tail[j] != e[0].0 {
      assert tail[j] == e[j + 1].0;
    }
  }

  /** Looking up in a dictionary without its first pair. */
  lemma GetTail<V>(e: Dict<V>)
    requires |e| > 0
    ensures Keys(e) == [e[0].0] + Keys(e[1..])
    ensures e[0].0 !in Keys(e[1..])
    ensures Get(e, e[0].0) == Some(e[0].1)
    ensures forall k :: k != e[0].0 ==> Get(e[1..], k) == Get(e, k)
  {
    KeysCons(e);
    forall k | k in Keys(e[1..]) ensures Get(e[1..], k) == Get(e, k) {
      assert IndexOf(e, k) == 1 + IndexOf(e[1..], k);
    }
  }

  lemma {:induction false} UpdateStepGet<V>(d: Dict<V>, e: Dict<V>, r: Dict<V>)
    requires |e| > 0
    requires forall k :: Get(r, k) == if k in Keys(e[1..]) then Get(e[1..], k) else Get(Put(d, e[0].0, e[0].1), k)
    ensures forall k :: Get(r, k) == if k in Keys(e) then Get(e, k) else Get(d, k)
  {
    GetTail(e);
  }

  lemma OutsideCons(x: string, tail: seq<string>, out: seq<string>)
    ensures Outside([x] + tail, out) == (if x in out then [] else [x]) + Outside(tail, out)
  {
    assert ([x] + tail)[1..] == tail;
  }

  /** The key order of `update`, one assigned key at a time, on the key lists alone. */
  lemma {:induction false} OutsideStep(ks: seq<string>, x: string, tail: seq<string>)
    requires x !in tail
    ensures var put := if x in ks then ks else ks + [x];
      put + Outside(tail, put) == ks + Outside([x] + tail, ks)
  {
    OutsideCons(x, tail, ks);
    if x !in ks {
      OutsideIgnores(tail, ks, x);
      assert (ks + [x]) + Outside(tail, ks) == ks + ([x] + Outside(tail, ks));
    }
  }

  lemma {:induction false} UpdateStepKeys<V>(d: Dict<V>, e: Dict<V>, r: Dict<V>)
    requires |e| > 0
    requires Keys(r) == Keys(Put(d, e[0].0, e[0].1)) + Outside(Keys(e[1..]), Keys(Put(d, e[0].0, e[0].1)))
    ensures Keys(r) == Keys(d) + Outside(Keys(e), Keys(d))
  {
    var x, tail := e[0].0, Keys(e[1..]);
    assert Keys(Put(d, x, e[0].1)) == if x in Keys(d) then Keys(d) else Keys(d) + [x];
    KeysCons(e);
    OutsideStep(Keys(d), x, tail);
  }

  /**
   * Python's `d.update(e)`: every pair of `e` assigned in `e`'s order. Values of `e` win; keys of `d`
   * keep their places and the new keys follow in `e`'s order.
   */
  function Update<V>(d: Dict<V>, e: Dict<V>): (r: Dict<V>)
    ensures forall k :: Get(r, k) == if k in Keys(e) then Get(e, k) else Get(d, k)
    ensures Keys(r) == Keys(d) + Outside(Keys(e), Keys(d))
    decreases |e|
  {
    if |e| == 0 then d
    else
      var d' := Put(d, e[0].0, e[0].1);
      var r := Update(d', e[1..]);
      UpdateStepGet(d, e, r);
      UpdateStepKeys(d, e, r);
      r
  }

  /** Only elements of `s` are outside `out`. */
  lemma {:induction false} OutsideSubset(s: seq<string>, out: seq<string>, x: string)
    requires x in Outside(s, out)
    ensures x in s && x !in out
  {
    if |s| > 0 {
      OutsideCons(s[0], s[1..], out);
      assert s == [s[0]] + s[1..];
      if x != s[0] || s[0] in out {
        OutsideSubset(s[1..], out, x);
      }
    }
  }

  /** Python's `d.pop(k, None)`, keeping only the new dictionary. */
  function Remove<V>(d: Dict<V>, k: string): (r: Dict<V>)
    ensures Keys(r) == Outside(Keys(d), [k])
    decreases |d|
  {
    if |d| == 0 then d
    else
      var rest := Remove(d[1..], k);
      GetTail(d);
      OutsideCons(d[0].0, Keys(d[1..]), [k]);
      if d[0].0 == k then
        assert Keys(rest) == Keys(d[1..]) by { OutsideMisses(Keys(d[1..]), k); }
        rest
      else
        var r := [d[0]] + rest;
        assert Keys(r) == [d[0].0] + Keys(rest);
        assert d[0].0 !in Keys(rest) by {
          if d[0].0 in Keys(rest) { OutsideSubset(Keys(d[1..]), [k], d[0].0); }
        }
        r
  }

  /** Leaving out a value that is not there changes nothing. */
  lemma {:induction false} OutsideMisses(s: seq<string>, x: string)
    requires x !in s
    ensures Outside(s, [x]) == s
  {
    if |s| > 0 {
      OutsideCons(s[0], s[1..], [x]);
      OutsideMisses(s[1..], x);
      assert s == [s[0]] + s[1..];
    }
  }

  /** After `pop(k)` the key is gone and every other key keeps its value; an absent key changes nothing. */
  lemma {:induction false} RemoveSpec<V>(d: Dict<V>, k: string)
    ensures Get(Remove(d, k), k) == None
    ensures forall k' :: k' != k ==> Get(Remove(d, k), k') == Get(d, k')
    ensures k !in Keys(d) ==> Remove(d, k) == d
    decreases |d|
  {
    var r := Remove(d, k);
    if k in Keys(r) { OutsideSubset(Keys(d), [k], k); }
    if |d| > 0 {
      RemoveSpec(d[1..], k);
      GetTail(d);
      if d[0].0 != k {
        GetTail(r);
        assert r[1..] == Remove(d[1..], k);
      }
    }
  }
}
