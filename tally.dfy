/** Grouping loops over a JavaScript object used as a dictionary:
    `acc[key] = (acc[key] || 0) + weight` inside `forEach`, then `Object.keys(acc)`
    and `Object.values(acc)` as chart labels and data. The object is kept as its keys
    in insertion order and the values aligned with them. */
module Tally {
  import opened Seqs

  /** The distinct keys of `ks` in first-seen order. */
  function FirstSeen<K(==)>(ks: seq<K>): (r: seq<K>)
    ensures forall i :: 0 <= i < |r| ==> r[i] in ks
    ensures forall i :: 0 <= i < |ks| ==> ks[i] in r
    ensures forall i, j :: 0 <= i < j < |r| ==> r[i] != r[j]
  {
    if ks == [] then []
    else
      var p := FirstSeen(ks[..|ks| - 1]);
      if ks[|ks| - 1] in p then p else p + [ks[|ks| - 1]]
  }

  /** How many positions of `ks` hold `k`. */
  function Occurrences<K(==)>(ks: seq<K>, k: K): (n: nat)
    ensures n > 0 <==> k in ks
  {
    if ks == [] then 0 else Occurrences(ks[..|ks| - 1], k) + (if ks[|ks| - 1] == k then 1 else 0)
  }

  /** The weights of the positions whose key is `k`, summed. */
  function SumFor<K(==)>(ks: seq<K>, ws: seq<real>, k: K): real
    requires |ks| == |ws|
  {
    if ks == [] then 0.0
    else SumFor(ks[..|ks| - 1], ws[..|ws| - 1], k) + (if ks[|ks| - 1] == k then ws[|ws| - 1] else 0.0)
  }

  /** Where `k` sits among the dictionary's keys, or -1 when it is not a key yet. */
  function IndexOf<K(==)>(keys: seq<K>, k: K): (j: int)
    ensures j < 0 <==> k !in keys
    ensures 0 <= j ==> j < |keys| && keys[j] == k
  {
    if keys == [] then -1
    else if keys[|keys| - 1] == k then |keys| - 1
    else IndexOf(keys[..|keys| - 1], k)
  }

  /** `acc[k] = (acc[k] || 0) + w`: an existing key keeps its place, a new one goes last. */
  function Bump<K(==), V>(keys: seq<K>, values: seq<V>, k: K, w: V, plus: (V, V) -> V): (r: (seq<K>, seq<V>))
    requires |values| == |keys|
  {
    var j := IndexOf(keys, k);
    if 0 <= j then (keys, values[j := plus(values[j], w)]) else (keys + [k], values + [w])
  }

  function AddInt(a: int, b: int): int { a + b }
  function AddReal(a: real, b: real): real { a + b }

  lemma FirstSeenStep<K>(ks: seq<K>, i: int)
    requires 0 <= i < |ks|
    ensures FirstSeen(ks[..i + 1])
            == if ks[i] in FirstSeen(ks[..i]) then FirstSeen(ks[..i]) else FirstSeen(ks[..i]) + [ks[i]]
  {
    assert ks[..i + 1][..i] == ks[..i];
  }

  ghost predicate CountInv<K>(ks: seq<K>, i: int, keys: seq<K>, counts: seq<int>)
  {
    && 0 <= i <= |ks|
    && keys == FirstSeen(ks[..i])
    && |counts| == |keys|
    && (forall j :: 0 <= j < |keys| ==> counts[j] == Occurrences(ks[..i], keys[j]))
    && SumInt(counts) == i
  }

  /** One more occurrence of a key already counted: only its count grows. */
  lemma CountKnown<K>(pk: seq<K>, k: K, keys: seq<K>, counts: seq<int>, j: int)
    requires |counts| == |keys| && 0 <= j < |keys| && keys[j] == k
    requires forall a, b :: 0 <= a < b < |keys| ==> keys[a] != keys[b]
    requires forall a :: 0 <= a < |keys| ==> counts[a] == Occurrences(pk, keys[a])
    ensures forall a :: 0 <= a < |keys| ==> counts[j := counts[j] + 1][a] == Occurrences(pk + [k], keys[a])
  {
    forall a | 0 <= a < |keys|
      ensures counts[j := counts[j] + 1][a] == Occurrences(pk + [k], keys[a])
    {
      assert (pk + [k])[..|pk|] == pk;
      if a != j {
        assert keys[a] != keys[j];
      }
    }
  }

  /** The first occurrence of a key: it gets a count of one, at the end. */
  lemma CountNew<K>(pk: seq<K>, k: K, keys: seq<K>, counts: seq<int>)
    requires |counts| == |keys| && k !in pk
    requires forall a :: 0 <= a < |keys| ==> keys[a] != k
    requires forall a :: 0 <= a < |keys| ==> counts[a] == Occurrences(pk, keys[a])
    ensures forall a :: 0 <= a < |keys| + 1 ==> (counts + [1])[a] == Occurrences(pk + [k], (keys + [k])[a])
  {
    forall a | 0 <= a < |keys| + 1
      ensures (counts + [1])[a] == Occurrences(pk + [k], (keys + [k])[a])
    {
      assert (pk + [k])[..|pk|] == pk;
    }
  }

  lemma CountStep<K>(ks: seq<K>, i: int, keys: seq<K>, counts: seq<int>)
    requires CountInv(ks, i, keys, counts) && i < |ks|
    ensures CountInv(ks, i + 1, Bump(keys, counts, ks[i], 1, AddInt).0, Bump(keys, counts, ks[i], 1, AddInt).1)
  {
    var k := ks[i];
    assert ks[..i + 1] == ks[..i] + [k];
    FirstSeenStep(ks, i);
    var j := IndexOf(keys, k);
    if 0 <= j {
      SumIntAdd(counts, j, 1);
      CountKnown(ks[..i], k, keys, counts, j);
    } else {
      SumIntAppend(counts, 1);
      CountNew(ks[..i], k, keys, counts);
    }
  }

  /** Counting per key: one label per distinct key in first-seen order, each count the
      number of records with that key (so at least one), and the counts add up to the
      number of records. */
  method CountByKey<K(==)>(ks: seq<K>) returns (labels: seq<K>, data: seq<int>)
    ensures labels == FirstSeen(ks)
    ensures |data| == |labels|
    ensures forall j :: 0 <= j < |labels| ==> data[j] == Occurrences(ks, labels[j])
    ensures forall j :: 0 <= j < |data| ==> data[j] >= 1
    ensures SumInt(data) == |ks|
  {
    labels, data := [], [];
    var i := 0;
    while i < |ks|
      invariant CountInv(ks, i, labels, data)
    {
      CountStep(ks, i, labels, data);
      var b := Bump(labels, data, ks[i], 1, AddInt);
      labels, data := b.0, b.1;
      i := i + 1;
    }
    assert ks[..i] == ks;
    forall j | 0 <= j < |data|
      ensures data[j] >= 1
    {
      assert labels[j] in ks;
    }
  }

  ghost predicate SumInv<K>(ks: seq<K>, ws: seq<real>, i: int, keys: seq<K>, totals: seq<real>)
    requires |ks| == |ws|
  {
    0 <= i <= |ks| && Accumulated(ks[..i], ws[..i], keys, totals)
  }

  /** The dictionary after the records `pk`/`pw`: its keys in first-seen order, each
      total that key's weights summed, and the totals adding up to all the weights. */
  ghost predicate Accumulated<K>(pk: seq<K>, pw: seq<real>, keys: seq<K>, totals: seq<real>)
    requires |pk| == |pw|
  {
    keys == FirstSeen(pk) && Totals(pk, pw, keys, totals) && Sum(totals) == Sum(pw)
  }

  lemma SumForPush<K>(pk: seq<K>, pw: seq<real>, k: K, w: real, x: K)
    requires |pk| == |pw|
    ensures SumFor(pk + [k], pw + [w], x) == SumFor(pk, pw, x) + (if k == x then w else 0.0)
  {
    assert (pk + [k])[..|pk|] == pk;
    assert (pw + [w])[..|pw|] == pw;
  }

  /** `totals` holds, for each key, the sum of that key's weights in `pk`/`pw`. */
  ghost predicate Totals<K>(pk: seq<K>, pw: seq<real>, keys: seq<K>, totals: seq<real>)
    requires |pk| == |pw|
  {
    |totals| == |keys| && forall a :: 0 <= a < |keys| ==> totals[a] == SumFor(pk, pw, keys[a])
  }

  lemma TotalsKnown<K>(pk: seq<K>, pw: seq<real>, k: K, w: real, keys: seq<K>, totals: seq<real>, j: int)
    requires |pk| == |pw| && Totals(pk, pw, keys, totals)
    requires forall a, b :: 0 <= a < b < |keys| ==> keys[a] != keys[b]
    requires 0 <= j < |keys| && keys[j] == k
    ensures Totals(pk + [k], pw + [w], keys, totals[j := totals[j] + w])
  {
    var totals' := totals[j := totals[j] + w];
    forall a | 0 <= a < |keys|
      ensures totals'[a] == SumFor(pk + [k], pw + [w], keys[a])
    {
      SumForPush(pk, pw, k, w, keys[a]);
      if a != j {
        assert keys[a] != keys[j];
      }
    }
  }

  lemma TotalsNew<K>(pk: seq<K>, pw: seq<real>, k: K, w: real, keys: seq<K>, totals: seq<real>)
    requires |pk| == |pw| && Totals(pk, pw, keys, totals)
    requires k !in pk && forall a :: 0 <= a < |keys| ==> keys[a] != k
    ensures Totals(pk + [k], pw + [w], keys + [k], totals + [w])
  {
    var keys', totals' := keys + [k], totals + [w];
    SumForAbsent(pk, pw, k);
    forall a | 0 <= a < |keys'|
      ensures totals'[a] == SumFor(pk + [k], pw + [w], keys'[a])
    {
      SumForPush(pk, pw, k, w, keys'[a]);
    }
  }

  lemma AccumulatedStep<K>(pk: seq<K>, pw: seq<real>, k: K, w: real, keys: seq<K>, totals: seq<real>)
    requires |pk| == |pw| && Accumulated(pk, pw, keys, totals)
    ensures Accumulated(pk + [k], pw + [w], Bump(keys, totals, k, w, AddReal).0,
                        Bump(keys, totals, k, w, AddReal).1)
  {
    assert (pk + [k])[..|pk|] == pk;
    SumAppend(pw, w);
    var j := IndexOf(keys, k);
    if 0 <= j {
      SumAdd(totals, j, w);
      TotalsKnown(pk, pw, k, w, keys, totals, j);
    } else {
      SumAppend(totals, w);
      TotalsNew(pk, pw, k, w, keys, totals);
    }
  }

  lemma SumStep<K>(ks: seq<K>, ws: seq<real>, i: int, keys: seq<K>, totals: seq<real>)
    requires |ks| == |ws| && SumInv(ks, ws, i, keys, totals) && i < |ks|
    ensures SumInv(ks, ws, i + 1, Bump(keys, totals, ks[i], ws[i], AddReal).0,
                   Bump(keys, totals, ks[i], ws[i], AddReal).1)
  {
    assert ks[..i + 1] == ks[..i] + [ks[i]];
    assert ws[..i + 1] == ws[..i] + [ws[i]];
    AccumulatedStep(ks[..i], ws[..i], ks[i], ws[i], keys, totals);
  }

  lemma {:induction false} SumForAbsent<K>(ks: seq<K>, ws: seq<real>, k: K)
    requires |ks| == |ws| && k !in ks
    ensures SumFor(ks, ws, k) == 0.0
  {
    if ks != [] {
      assert ks[..|ks| - 1] <= ks;
      SumForAbsent(ks[..|ks| - 1], ws[..|ws| - 1], k);
    }
  }

  /** Summing per key: one label per distinct key in first-seen order, each total the
      sum of that key's weights, and the totals add up to the sum of all weights. */
  method SumByKey<K(==)>(ks: seq<K>, ws: seq<real>) returns (labels: seq<K>, data: seq<real>)
    requires |ks| == |ws|
    ensures labels == FirstSeen(ks)
    ensures |data| == |labels|
    ensures forall j :: 0 <= j < |labels| ==> data[j] == SumFor(ks, ws, labels[j])
    ensures Sum(data) == Sum(ws)
  {
    labels, data := [], [];
    var i := 0;
    while i < |ks|
      invariant SumInv(ks, ws, i, labels, data)
    {
      SumStep(ks, ws, i, labels, data);
      var b := Bump(labels, data, ks[i], ws[i], AddReal);
      labels, data := b.0, b.1;
      i := i + 1;
    }
    assert ks[..i] == ks && ws[..i] == ws;
  }
}
