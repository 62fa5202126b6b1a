/** Messages that touch different places may be merged in any order. */
module MergeOrder {
  import opened Options
  import opened Decimal
  import opened Merger
  import opened MergeLaws
  import opened MergeTwice

  predicate Disjoint(p: Json, q: Json) {
    && p.Obj? && q.Obj?
    && forall k | k in p.fields && k in q.fields :: Disjoint(p.fields[k], q.fields[k])
  }

  lemma {:induction false} DisjointSymmetric(p: Json, q: Json)
    requires Disjoint(p, q)
    ensures Disjoint(q, p)
  {
    forall k | k in p.fields && k in q.fields
      ensures Disjoint(q.fields[k], p.fields[k])
    {
      DisjointSymmetric(p.fields[k], q.fields[k]);
    }
  }

  lemma {:induction false} DisjointUnion(p: Json, q: Json)
    requires Disjoint(p, q)
    ensures Merge(p, q).Some? && Merge(p, q) == Merge(q, p)
  {
    forall k | k in p.fields
      ensures MergeValue(q.fields, k, p.fields[k]).Some?
      ensures k in q.fields ==> MergeValue(q.fields, k, p.fields[k]) == MergeValue(p.fields, k, q.fields[k])
    {
      if k in q.fields {
        DisjointUnion(p.fields[k], q.fields[k]);
      }
    }
    assert forall k | k in q.fields :: MergeValue(p.fields, k, q.fields[k]).Some?;
    assert Merge(p, q).value.fields == Merge(q, p).value.fields;
  }

  lemma {:induction false} MergeCommutes(d: Json, p: Json, q: Json)
    requires Disjoint(p, q)
    ensures Then(Merge(d, p), q) == Then(Merge(d, q), p)
    decreases d, 0
  {
    DisjointSymmetric(p, q);
    if d.Arr? {
      forall i | 0 <= i < |d.items|
        ensures Twice(Itoa(i), d.items[i], p.fields, q.fields) == Twice(Itoa(i), d.items[i], q.fields, p.fields)
      {
        ValueCommutes(Itoa(i), d.items[i], p, q);
      }
      if i :| 0 <= i < |d.items| && Twice(Itoa(i), d.items[i], p.fields, q.fields).None? {
        ArrayFails(d.items, p.fields, q.fields, i);
        ArrayFails(d.items, q.fields, p.fields, i);
      } else {
        var r := seq(|d.items|, i requires 0 <= i < |d.items| => Twice(Itoa(i), d.items[i], p.fields, q.fields).value);
        ArrayTwice(d.items, p.fields, q.fields, r);
        ArrayTwice(d.items, q.fields, p.fields, r);
      }
    } else if d.Obj? {
      forall k | k in d.fields
        ensures Twice(k, d.fields[k], p.fields, q.fields) == Twice(k, d.fields[k], q.fields, p.fields)
      {
        ValueCommutes(k, d.fields[k], p, q);
      }
      if k :| k in d.fields && Twice(k, d.fields[k], p.fields, q.fields).None? {
        ObjectFails(d.fields, p.fields, q.fields, k);
        ObjectFails(d.fields, q.fields, p.fields, k);
      } else {
        DisjointUnion(p, q);
        var u := Merge(p, q).value.fields;
        var r := map k | k in d.fields.Keys + u.Keys ::
          if k in d.fields then Twice(k, d.fields[k], p.fields, q.fields).value else u[k];
        ObjectTwice(d.fields, p.fields, q.fields, r);
        ObjectTwice(d.fields, q.fields, p.fields, r);
      }
    }
  }

  lemma {:induction false} ValueCommutes(k: string, v: Json, p: Json, q: Json)
    requires Disjoint(p, q)
    ensures Twice(k, v, p.fields, q.fields) == Twice(k, v, q.fields, p.fields)
    decreases v, 1
  {
    if k in p.fields && k in q.fields {
      DisjointUnion(p.fields[k], q.fields[k]);
      if !v.Scalar? {
        MergeCommutes(v, p.fields[k], q.fields[k]);
      }
    }
  }

  // ---- Any number of messages ----

  function MergeAll(d: Json, messages: seq<Json>): Option<Json> {
    if messages == [] then Some(d)
    else Then(MergeAll(d, messages[..|messages| - 1]), messages[|messages| - 1])
  }

  ghost predicate PairwiseDisjoint(messages: seq<Json>) {
    forall i, j | 0 <= i < |messages| && 0 <= j < |messages| && i != j :: Disjoint(messages[i], messages[j])
  }

  function Without<T>(s: seq<T>, i: nat): seq<T>
    requires i < |s|
  {
    s[..i] + s[i + 1..]
  }

  lemma MergeAllSnoc(d: Json, messages: seq<Json>, m: Json)
    ensures MergeAll(d, messages + [m]) == Then(MergeAll(d, messages), m)
  {
    assert (messages + [m])[..|messages|] == messages;
  }

  lemma WithoutDisjoint(messages: seq<Json>, i: nat)
    requires i < |messages| && PairwiseDisjoint(messages)
    ensures PairwiseDisjoint(Without(messages, i))
  {
    var rest := Without(messages, i);
    forall a, b | 0 <= a < |rest| && 0 <= b < |rest| && a != b
      ensures Disjoint(rest[a], rest[b])
    {
      var a', b' := if a < i then a else a + 1, if b < i then b else b + 1;
      assert rest[a] == messages[a'] && rest[b] == messages[b'];
    }
  }

  /** A message may be postponed past every later message it is disjoint from. */
  lemma {:induction false} Postpone(d: Json, messages: seq<Json>, i: nat)
    requires i < |messages| && PairwiseDisjoint(messages)
    ensures MergeAll(d, messages) == Then(MergeAll(d, Without(messages, i)), messages[i])
  {
    var front, last := messages[..|messages| - 1], messages[|messages| - 1];
    if i == |messages| - 1 {
      assert Without(messages, i) == front;
    } else {
      assert Without(messages, |messages| - 1) == front;
      WithoutDisjoint(messages, |messages| - 1);
      Postpone(d, front, i);
      assert Without(messages, i) == Without(front, i) + [last];
      MergeAllSnoc(d, Without(front, i), last);
      PostponeOne(MergeAll(d, Without(front, i)), messages[i], last);
    }
  }

  lemma PostponeOne(r: Option<Json>, p: Json, q: Json)
    requires Disjoint(p, q)
    ensures Then(Then(r, p), q) == Then(Then(r, q), p)
  {
    if r.Some? {
      MergeCommutes(r.value, p, q);
    }
  }

  lemma WithoutMultiset<T>(s: seq<T>, i: nat)
    requires i < |s|
    ensures multiset(Without(s, i)) == multiset(s) - multiset{s[i]}
  {
    assert s == s[..i] + [s[i]] + s[i + 1..];
  }

  /** The last message of one order, found in the other. */
  lemma LastOf<T>(s: seq<T>, t: seq<T>) returns (i: nat)
    requires t != [] && multiset(s) == multiset(t)
    ensures i < |s| && s[i] == t[|t| - 1]
    ensures multiset(Without(s, i)) == multiset(t[..|t| - 1])
  {
    WithoutMultiset(t, |t| - 1);
    assert Without(t, |t| - 1) == t[..|t| - 1];
    assert t[|t| - 1] in multiset(s);
    i :| 0 <= i < |s| && s[i] == t[|t| - 1];
    WithoutMultiset(s, i);
  }

  /** Pairwise disjoint messages may arrive in any order: same result, same success or failure. */
  lemma {:induction false} OrderIndependent(d: Json, messages: seq<Json>, shuffled: seq<Json>)
    requires PairwiseDisjoint(messages)
    requires multiset(messages) == multiset(shuffled)
    ensures MergeAll(d, messages) == MergeAll(d, shuffled)
    decreases |messages|
  {
    if shuffled == [] {
      assert |messages| == |multiset(messages)|;
    } else {
      var i := LastOf(messages, shuffled);
      Postpone(d, messages, i);
      WithoutDisjoint(messages, i);
      OrderIndependent(d, Without(messages, i), shuffled[..|shuffled| - 1]);
    }
  }

  /** A message sent twice in a row counts once. */
  lemma RepeatedMessage(d: Json, messages: seq<Json>, m: Json)
    ensures MergeAll(d, messages + [m] + [m]) == MergeAll(d, messages + [m])
  {
    MergeAllSnoc(d, messages, m);
    MergeAllSnoc(d, messages + [m], m);
    var before := MergeAll(d, messages);
    if before.Some? && Merge(before.value, m).Some? {
      MergeIdempotent(before.value, m);
    }
  }
}
