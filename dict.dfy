/** A plain JavaScript object used as a dictionary (`{ [key: string]: V }`):
    its entries in insertion order, each key at most once. `obj[k] = v` keeps
    the position of a key that is already there and appends a new one;
    `Object.keys`, `Object.values` and `Object.entries` list the entries in
    that order. */
module Dict {
  import opened Js

  type Dict<V> = seq<(string, V)>

  function Keys<V>(d: Dict<V>): (ks: seq<string>)
    ensures |ks| == |d|
    ensures forall i :: 0 <= i < |d| ==> ks[i] == d[i].0
  {
    if d == [] then [] else [d[0].0] + Keys(d[1..])
  }

  function Values<V>(d: Dict<V>): (vs: seq<V>)
    ensures |vs| == |d|
    ensures forall i :: 0 <= i < |d| ==> vs[i] == d[i].1
  {
    if d == [] then [] else [d[0].1] + Values(d[1..])
  }

  /** No key occurs twice. */
  ghost predicate Wf<V>(d: Dict<V>) {
    forall i, j :: 0 <= i < j < |d| ==> d[i].0 != d[j].0
  }

  /** The position of key `k`, or `|d|` when `k` is not there. */
  function IndexOf<V>(d: Dict<V>, k: string): (r: nat)
    ensures r <= |d|
    ensures r < |d| ==> d[r].0 == k
    ensures forall j :: 0 <= j < r ==> d[j].0 != k
  {
    if d == [] then 0
    else if d[0].0 == k then 0
    else
      var r := IndexOf(d[1..], k);
      assert forall j :: 0 < j < r + 1 ==> d[j] == d[1..][j - 1];
      r + 1
  }

  /** Two dictionaries that agree on the keys of their first `n` entries and
      hold key `k` at neither `n` nor beyond in the first, find `k` at the same place. */
  lemma IndexOfAgree<V, W>(d: Dict<V>, e: Dict<W>, k: string)
    requires |d| <= |e|
    requires forall i :: 0 <= i < |d| ==> d[i].0 == e[i].0
    requires IndexOf(d, k) < |d| || |d| == |e| || e[|d|].0 != k
    ensures IndexOf(d, k) == IndexOf(e, k) || (IndexOf(d, k) == |d| && IndexOf(e, k) > |d|)
  {
    var a, b := IndexOf(d, k), IndexOf(e, k);
    if a < |d| {
      assert e[a].0 == k;
      assert b == a;
    }
  }

  /** `obj[k]`: the value stored under `k`, if any. */
  function Get<V>(d: Dict<V>, k: string): (r: Option<V>)
    ensures r.Some? <==> k in Keys(d)
    ensures r.Some? ==> exists i :: 0 <= i < |d| && d[i] == (k, r.value)
  {
    var i := IndexOf(d, k);
    if i < |d| then
      assert d[i] == (k, d[i].1);
      Some(d[i].1)
    else
      None
  }

  /** In a well-formed dictionary the entry at position `i` is the one `Get` finds. */
  lemma GetAt<V>(d: Dict<V>, i: int)
    requires Wf(d) && 0 <= i < |d|
    ensures Get(d, d[i].0) == Some(d[i].1)
  {
    var j := IndexOf(d, d[i].0);
    assert j == i;
  }

  /** `obj[k] = v` */
  function Put<V>(d: Dict<V>, k: string, v: V): Dict<V> {
    var i := IndexOf(d, k);
    if i == |d| then d + [(k, v)] else d[i := (k, v)]
  }

  /** `obj[k] = v` overwrites the value of a key that is there, in place,
      and appends a new key at the end; afterwards `obj[k]` is `v`, no
      other entry changed, and the keys are still unique. */
  lemma PutSpec<V>(d: Dict<V>, k: string, v: V)
    ensures k in Keys(d) ==> |Put(d, k, v)| == |d| && Keys(Put(d, k, v)) == Keys(d)
    ensures k !in Keys(d) ==> Put(d, k, v) == d + [(k, v)]
    ensures forall i :: 0 <= i < |d| && d[i].0 != k ==> Put(d, k, v)[i] == d[i]
    ensures Get(Put(d, k, v), k) == Some(v)
    ensures Wf(d) ==> Wf(Put(d, k, v))
  {
    var i := IndexOf(d, k);
    var r := Put(d, k, v);
    if i == |d| {
      assert r[|d|].0 == k;
      assert forall j :: 0 <= j < |d| ==> r[j] == d[j];
      assert IndexOf(r, k) == i;
    } else {
      assert Keys(r) == Keys(d);
      assert IndexOf(r, k) == i;
    }
  }

  /** After `obj[k] = v` the keys are the old ones and `k`. */
  lemma PutKeys<V>(d: Dict<V>, k: string, v: V)
    ensures forall x :: x in Keys(Put(d, k, v)) <==> x in Keys(d) || x == k
  {
    PutSpec(d, k, v);
    var r := Put(d, k, v);
    if k !in Keys(d) {
      assert Keys(r) == Keys(d) + [k];
    }
  }

  /** `obj[k] = v` leaves every other key as it was. */
  lemma PutOther<V>(d: Dict<V>, k: string, v: V, k': string)
    requires k' != k
    ensures Get(Put(d, k, v), k') == Get(d, k')
  {
    var i := IndexOf(d, k);
    var r := Put(d, k, v);
    assert forall j :: 0 <= j < |d| ==> r[j].0 == d[j].0;
    assert i == |d| ==> r[|d|].0 == k;
    IndexOfAgree(d, r, k');
    var a := IndexOf(d, k');
    if a < |d| {
      assert r[a] == d[a];
    }
  }
}
