/** JavaScript values as the core uses them: numbers that may be NaN,
    luxon date-times as epoch milliseconds, and plain objects used as
    insertion-ordered records. */
module Values {
  import opened Wrappers

  /** A luxon `DateTime`, as epoch milliseconds. */
  type DateTime = int

  /** A JavaScript number: NaN or a finite value. */
  datatype Num = NaN | Fin(v: real)

  /** JavaScript truthiness of a number: not NaN and not zero. */
  predicate Truthy(n: Num) { n.Fin? && n.v != 0.0 }

  /** Truthiness of an optional number (`undefined` is falsy). */
  predicate TruthyOpt(n: Option<Num>) { n.Some? && Truthy(n.value) }

  /** Truthiness of an optional string (`undefined` and `""` are falsy). */
  predicate NonEmpty(s: Option<string>) { s.Some? && s.value != "" }

  /** JavaScript `+` on numbers: NaN is absorbing. */
  function Add(a: Num, b: Num): (r: Num)
    ensures r.Fin? <==> a.Fin? && b.Fin?
    ensures r.Fin? ==> r.v == a.v + b.v
  {
    if a.Fin? && b.Fin? then Fin(a.v + b.v) else NaN
  }

  /** The value of a `Record<string, string | number>` entry. */
  datatype AttrValue = AStr(s: string) | ANum(n: Num)

  /** The keys of a record, in insertion order. */
  function KeysOf<V>(rec: seq<(string, V)>): (ks: seq<string>)
    ensures |ks| == |rec|
    ensures forall i :: 0 <= i < |rec| ==> ks[i] == rec[i].0
  {
    seq(|rec|, i requires 0 <= i < |rec| => rec[i].0)
  }

  /** No key occurs twice, as in every JavaScript object. */
  predicate UniqueKeys<V>(rec: seq<(string, V)>) {
    forall i, j :: 0 <= i < j < |rec| ==> rec[i].0 != rec[j].0
  }

  /** Property read `rec[k]`. */
  function Get<V>(rec: seq<(string, V)>, k: string): (r: Option<V>)
    ensures r.None? <==> k !in KeysOf(rec)
  {
    if |rec| == 0 then None
    else if rec[0].0 == k then Some(rec[0].1)
    else
      assert KeysOf(rec) == [rec[0].0] + KeysOf(rec[1..]);
      Get(rec[1..], k)
  }

  /** Property assignment `rec[k] = v`: an existing key keeps its position,
      a new key is appended. */
  function Put<V>(rec: seq<(string, V)>, k: string, v: V): (r: seq<(string, V)>)
    ensures |r| == |rec| || |r| == |rec| + 1
  {
    if |rec| == 0 then [(k, v)]
    else if rec[0].0 == k then [(k, v)] + rec[1..]
    else [rec[0]] + Put(rec[1..], k, v)
  }

  /** After `rec[k] = v`, reading `k` gives `v` and every other key reads as
      before. */
  lemma {:induction false} PutGet<V>(rec: seq<(string, V)>, k: string, v: V, k': string)
    ensures Get(Put(rec, k, v), k') == if k' == k then Some(v) else Get(rec, k')
  {
    if |rec| > 0 && rec[0].0 != k {
      var r := Put(rec, k, v);
      assert r[1..] == Put(rec[1..], k, v);
      PutGet(rec[1..], k, v, k');
    }
  }

  /** Assignment keeps the keys and their order, appending a new key. */
  lemma {:induction false} PutKeys<V>(rec: seq<(string, V)>, k: string, v: V)
    ensures KeysOf(Put(rec, k, v)) == if k in KeysOf(rec) then KeysOf(rec) else KeysOf(rec) + [k]
  {
    var r := Put(rec, k, v);
    if |rec| == 0 {
      assert KeysOf(r) == [k];
    } else if rec[0].0 == k {
      assert k in KeysOf(rec) by { assert KeysOf(rec)[0] == k; }
      assert |r| == |rec|;
      assert forall i :: 0 <= i < |r| ==> r[i].0 == rec[i].0;
      assert KeysOf(r) == KeysOf(rec);
    } else {
      var t := Put(rec[1..], k, v);
      PutKeys(rec[1..], k, v);
      assert r == [rec[0]] + t;
      assert KeysOf(rec) == [rec[0].0] + KeysOf(rec[1..]);
      assert KeysOf(r) == [rec[0].0] + KeysOf(t);
      assert k in KeysOf(rec) <==> k in KeysOf(rec[1..]);
    }
  }

  /** Reading a concatenation: the first part wins. */
  lemma {:induction false} GetConcat<V>(a: seq<(string, V)>, b: seq<(string, V)>, k: string)
    ensures Get(a + b, k) == if Get(a, k).Some? then Get(a, k) else Get(b, k)
  {
    if |a| == 0 {
      assert a + b == b;
    } else if a[0].0 == k {
      assert (a + b)[0] == a[0];
    } else {
      assert (a + b)[0] == a[0];
      assert (a + b)[1..] == a[1..] + b;
      GetConcat(a[1..], b, k);
    }
  }

  /** Two records with unique keys, where no key of `a` is a key of `b`,
      join into a record with unique keys. */
  lemma UniqueConcat<V>(a: seq<(string, V)>, b: seq<(string, V)>)
    requires UniqueKeys(a) && UniqueKeys(b)
    requires forall i, j :: 0 <= i < |a| && 0 <= j < |b| ==> a[i].0 != b[j].0
    ensures UniqueKeys(a + b)
  {
  }

  /** Assignment keeps a record's keys unique. */
  lemma PutKeepsUnique<V>(rec: seq<(string, V)>, k: string, v: V)
    requires UniqueKeys(rec)
    ensures UniqueKeys(Put(rec, k, v))
  {
    PutKeys(rec, k, v);
    var r := Put(rec, k, v);
    var ks, ks' := KeysOf(rec), KeysOf(r);
    assert forall i, j :: 0 <= i < j < |ks| ==> ks[i] != ks[j];
    assert forall i, j :: 0 <= i < j < |ks'| ==> ks'[i] != ks'[j];
  }

  /** The results of `f` on `xs` in order, skipping the elements it rejects:
      a loop that pushes only some elements, transformed. */
  function FilterMap<A, B>(xs: seq<A>, f: A -> Option<B>): (r: seq<B>)
    ensures |r| <= |xs|
  {
    if |xs| == 0 then []
    else
      var y := f(xs[|xs| - 1]);
      FilterMap(xs[..|xs| - 1], f) + if y.Some? then [y.value] else []
  }

  /** One more element extends the filtered prefix by its image, if kept. */
  lemma FilterMapStep<A, B>(xs: seq<A>, i: nat, f: A -> Option<B>)
    requires i < |xs|
    ensures FilterMap(xs[..i + 1], f) == FilterMap(xs[..i], f) + if f(xs[i]).Some? then [f(xs[i]).value] else []
  {
    assert xs[..i + 1][..i] == xs[..i];
  }

  /** The positions of the elements `f` keeps, in increasing order. */
  function KeptIndices<A, B>(xs: seq<A>, f: A -> Option<B>): seq<nat>
  {
    if |xs| == 0 then []
    else KeptIndices(xs[..|xs| - 1], f) + if f(xs[|xs| - 1]).Some? then [|xs| - 1] else []
  }

  /** The filtered sequence holds, in order, exactly the images of the kept
      elements: its j-th entry comes from the j-th kept position, kept positions
      increase, and every element `f` accepts is kept. */
  lemma FilterMapIsKept<A, B>(xs: seq<A>, f: A -> Option<B>)
    ensures var ks := KeptIndices(xs, f);
            var r := FilterMap(xs, f);
            |ks| == |r|
            && (forall j :: 0 <= j < |ks| ==> ks[j] < |xs| && f(xs[ks[j]]) == Some(r[j]))
            && (forall j, j' :: 0 <= j < j' < |ks| ==> ks[j] < ks[j'])
            && (forall k :: 0 <= k < |xs| && f(xs[k]).Some? ==> k in ks)
  {
    KeptImages(xs, f);
    KeptBound(xs, f);
    KeptIncreasing(xs, f);
    KeptComplete(xs, f);
  }

  lemma {:induction false} KeptImages<A, B>(xs: seq<A>, f: A -> Option<B>)
    ensures var ks := KeptIndices(xs, f);
            |ks| == |FilterMap(xs, f)|
            && forall j :: 0 <= j < |ks| ==> ks[j] < |xs| && f(xs[ks[j]]) == Some(FilterMap(xs, f)[j])
  {
    if |xs| > 0 {
      var init := xs[..|xs| - 1];
      KeptImages(init, f);
      var ks0, r0 := KeptIndices(init, f), FilterMap(init, f);
      var ks, r := KeptIndices(xs, f), FilterMap(xs, f);
      assert forall j :: 0 <= j < |ks0| ==> ks[j] == ks0[j] && r[j] == r0[j] && xs[ks0[j]] == init[ks0[j]];
    }
  }

  lemma {:induction false} KeptBound<A, B>(xs: seq<A>, f: A -> Option<B>)
    ensures forall j :: 0 <= j < |KeptIndices(xs, f)| ==> KeptIndices(xs, f)[j] < |xs|
  {
    if |xs| > 0 {
      var init := xs[..|xs| - 1];
      KeptBound(init, f);
      var ks0 := KeptIndices(init, f);
      assert forall j :: 0 <= j < |ks0| ==> ks0[j] < |init|;
    }
  }

  lemma {:induction false} KeptIncreasing<A, B>(xs: seq<A>, f: A -> Option<B>)
    ensures forall j, j' :: 0 <= j < j' < |KeptIndices(xs, f)| ==> KeptIndices(xs, f)[j] < KeptIndices(xs, f)[j']
  {
    if |xs| > 0 {
      var init := xs[..|xs| - 1];
      KeptIncreasing(init, f);
      KeptBound(init, f);
      var ks0 := KeptIndices(init, f);
      assert forall j :: 0 <= j < |ks0| ==> ks0[j] < |init|;
    }
  }

  lemma {:induction false} KeptComplete<A, B>(xs: seq<A>, f: A -> Option<B>)
    ensures forall k :: 0 <= k < |xs| && f(xs[k]).Some? ==> k in KeptIndices(xs, f)
  {
    if |xs| > 0 {
      var init := xs[..|xs| - 1];
      KeptComplete(init, f);
      assert forall k :: 0 <= k < |init| ==> init[k] == xs[k];
    }
  }

  /** Reading a record with one more entry at the end: earlier entries win. */
  lemma {:induction false} GetSnoc<V>(rec: seq<(string, V)>, k': string, v: V, k: string)
    ensures Get(rec + [(k', v)], k) == if Get(rec, k).Some? then Get(rec, k) else if k' == k then Some(v) else None
  {
    if |rec| > 0 && rec[0].0 != k {
      assert (rec + [(k', v)])[1..] == rec[1..] + [(k', v)];
      GetSnoc(rec[1..], k', v, k);
    }
  }

  /** In a record without repeated keys, each entry is what its key reads. */
  lemma {:induction false} GetAt<V>(rec: seq<(string, V)>, p: nat)
    requires p < |rec| && UniqueKeys(rec)
    ensures Get(rec, rec[p].0) == Some(rec[p].1)
  {
    if p > 0 {
      GetAt(rec[1..], p - 1);
    }
  }

  /** The position of the first element satisfying `p`, or -1: `findIndex`,
      and `find` when the element is read at that position. */
  function FindFirst<T>(xs: seq<T>, p: T -> bool): (i: int)
    ensures -1 <= i < |xs|
    ensures i >= 0 ==> p(xs[i])
    ensures forall k :: 0 <= k < |xs| && (i < 0 || k < i) ==> !p(xs[k])
  {
    if |xs| == 0 then -1
    else if p(xs[0]) then 0
    else
      var j := FindFirst(xs[1..], p);
      if j < 0 then -1 else j + 1
  }
}
