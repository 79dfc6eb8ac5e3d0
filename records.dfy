/**
  A JavaScript object used as a dictionary (`Record<string, number>`) whose
  keys are not array indices, as every question id is: an insertion-ordered
  list of entries whose keys are distinct. For such keys `Object.keys` and
  `Object.values` follow insertion order, and the spread update
  `{...r, [k]: v}` keeps an existing key where it stands and appends a new
  one at the end. Integer-like keys, which JavaScript lists first in
  ascending order, are not modelled.
 */
module Records {

  datatype Option<+T> = None | Some(value: T)

  datatype Entry = Entry(key: string, value: int)

  /** No key occurs twice: what every JavaScript object guarantees. */
  predicate DistinctKeys(r: seq<Entry>)
  {
    forall i, j :: 0 <= i < j < |r| ==> r[i].key != r[j].key
  }

  type Record = r: seq<Entry> | DistinctKeys(r) witness []

  /** The keys of `r`, as a set (what `key in r` asks). */
  function KeySet(r: seq<Entry>): set<string>
  {
    set e | e in r :: e.key
  }

  /** Property lookup `r[k]`: the value of the (first) entry for `k`, or `undefined`. */
  function Get(r: seq<Entry>, k: string): (o: Option<int>)
    ensures o.Some? <==> k in KeySet(r)
    ensures o.Some? ==> Entry(k, o.value) in r
  {
    if r == [] then None
    else if r[0].key == k then Some(r[0].value)
    else Get(r[1..], k)
  }

  /** Looking up in a list that starts with `e`. */
  lemma GetCons(e: Entry, s: seq<Entry>, k: string)
    ensures Get([e] + s, k) == if e.key == k then Some(e.value) else Get(s, k)
  {
    assert ([e] + s)[0] == e;
    assert ([e] + s)[1..] == s;
  }

  /** The spread update `{...r, [k]: v}`. */
  function Put(r: Record, k: string, v: int): (r': Record)
    ensures Get(r', k) == Some(v)
    ensures forall j :: j != k ==> Get(r', j) == Get(r, j)
    ensures KeySet(r') == KeySet(r) + {k}
    ensures |r'| == if k in KeySet(r) then |r| else |r| + 1
    ensures forall e :: e in r' ==> e in r || e == Entry(k, v)
  {
    if r == [] then
      assert forall j :: Get([Entry(k, v)], j) == if j == k then Some(v) else None by {
        forall j { GetCons(Entry(k, v), [], j); }
      }
      [Entry(k, v)]
    else
      var head, tail := r[0], r[1..];
      assert r == [head] + tail;
      assert KeySet(r) == KeySet(tail) + {head.key};
      assert head.key !in KeySet(tail);
      if head.key == k then
        var r' := [Entry(k, v)] + tail;
        forall j | j != k ensures Get(r', j) == Get(r, j) {
          GetCons(Entry(k, v), tail, j);
          GetCons(head, tail, j);
        }
        assert KeySet(r') == KeySet(tail) + {k};
        r'
      else
        var rest := Put(tail, k, v);
        var r' := [head] + rest;
        assert head.key !in KeySet(rest);
        assert forall j :: Get(r', j) == (if j == head.key then Some(head.value) else Get(rest, j)) by {
          forall j { GetCons(head, rest, j); }
        }
        assert forall j :: Get(r, j) == (if j == head.key then Some(head.value) else Get(tail, j)) by {
          forall j { GetCons(head, tail, j); }
        }
        assert KeySet(r') == KeySet(rest) + {head.key};
        assert forall i :: 1 <= i < |r'| ==> r'[i] == rest[i - 1];
        r'
  }

  /** A list of entries with distinct keys has as many keys as entries. */
  lemma {:induction false} KeyCount(r: Record)
    ensures |KeySet(r)| == |r|
  {
    if r != [] {
      KeyCount(r[1..]);
      assert KeySet(r) == KeySet(r[1..]) + {r[0].key};
      assert r[0].key !in KeySet(r[1..]);
    }
  }

  /** `Object.values(r).reduce((a, b) => a + b, 0)`. */
  function Sum(r: seq<Entry>): int
  {
    if r == [] then 0 else Sum(r[..|r| - 1]) + r[|r| - 1].value
  }

  /** Adding one more value in `lo..hi` to a sum of `n` such values. */
  lemma StepBounds(n: nat, m: nat, s: int, v: int, lo: int, hi: int)
    requires m == n + 1
    requires n * lo <= s <= n * hi && lo <= v <= hi
    ensures m * lo <= s + v <= m * hi
  {
    assert m * lo == n * lo + lo;
    assert m * hi == n * hi + hi;
  }

  /** Every value of `r` lies in `lo..hi`, so the sum lies between `|r|*lo` and `|r|*hi`. */
  lemma {:induction false} SumBounds(r: seq<Entry>, lo: int, hi: int)
    requires forall e :: e in r ==> lo <= e.value <= hi
    ensures |r| * lo <= Sum(r) <= |r| * hi
  {
    if r != [] {
      var init := r[..|r| - 1];
      assert forall e :: e in init ==> e in r;
      SumBounds(init, lo, hi);
      var last := r[|r| - 1];
      assert last in r;
      StepBounds(|init|, |r|, Sum(init), last.value, lo, hi);
    }
  }
}
