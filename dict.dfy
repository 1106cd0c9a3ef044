/** JavaScript plain objects with string keys, as used for every `fields`,
    `args` and registry dictionary of the source. An object is the list of its
    entries in insertion order; assigning to an existing key replaces the value
    in place and keeps the key's position, assigning to a new key appends it. */
module Dict {
  import opened Wrappers

  type Dict<V> = seq<(string, V)>

  /** The keys of `d`, in order (`Object.keys`). */
  function Keys<V>(d: Dict<V>): seq<string>
  {
    seq(|d|, i requires 0 <= i < |d| => d[i].0)
  }

  lemma KeysCons<V>(d: Dict<V>)
    requires d != []
    ensures Keys(d) == [d[0].0] + Keys(d[1..])
  {
  }

  lemma KeysTake<V>(d: Dict<V>, n: nat)
    requires n <= |d|
    ensures Keys(d[..n]) == Keys(d)[..n]
  {
  }

  lemma KeysAppend<V>(a: Dict<V>, b: Dict<V>)
    ensures Keys(a + b) == Keys(a) + Keys(b)
  {
  }

  /** No key occurs twice. */
  predicate NoDup(ks: seq<string>)
  {
    forall i, j :: 0 <= i < j < |ks| ==> ks[i] != ks[j]
  }

  /** Property lookup `d[k]`; `None` stands for `undefined`. */
  function Get<V>(d: Dict<V>, k: string): (r: Option<V>)
    ensures r.Some? <==> k in Keys(d)
    ensures r.Some? ==> exists i :: 0 <= i < |d| && d[i] == (k, r.value)
  {
    if d == [] then None
    else if d[0].0 == k then KeysCons(d); Some(d[0].1)
    else
      KeysCons(d);
      var r := Get(d[1..], k);
      assert r.Some? ==> exists i :: 0 <= i < |d[1..]| && d[1..][i] == (k, r.value);
      r
  }

  /** Property lookup with a stand-in for a missing key. */
  function GetOr<V>(d: Dict<V>, k: string, default: V): V
  {
    match Get(d, k)
    case Some(v) => v
    case None => default
  }

  /** Assigning to the first key replaces its value in place. */
  lemma PutHead<V>(d: Dict<V>, k: string, v: V)
    requires d != [] && d[0].0 == k
    ensures var r := [(k, v)] + d[1..];
      Get(r, k) == Some(v) && (forall j :: j != k ==> Get(r, j) == Get(d, j)) && Keys(r) == Keys(d)
  {
    var r := [(k, v)] + d[1..];
    assert r[1..] == d[1..];
    assert Keys(r) == Keys(d) by {
      KeysCons(r);
      KeysCons(d);
    }
    forall j | j != k ensures Get(r, j) == Get(d, j) {
      assert Get(r, j) == Get(d[1..], j);
    }
  }

  /** Assigning past a first entry of another key: what holds of the tail
      `t` after the assignment holds of the whole object. */
  lemma PutPast<V>(d: Dict<V>, k: string, v: V, t: Dict<V>)
    requires d != [] && d[0].0 != k
    requires Get(t, k) == Some(v)
    requires forall j :: j != k ==> Get(t, j) == Get(d[1..], j)
    requires Keys(t) == if k in Keys(d[1..]) then Keys(d[1..]) else Keys(d[1..]) + [k]
    ensures var r := [d[0]] + t;
      Get(r, k) == Some(v) && (forall j :: j != k ==> Get(r, j) == Get(d, j))
      && Keys(r) == if k in Keys(d) then Keys(d) else Keys(d) + [k]
  {
    var r := [d[0]] + t;
    assert r[1..] == t;
    assert Keys(r) == if k in Keys(d) then Keys(d) else Keys(d) + [k] by {
      KeysCons(r);
      KeysCons(d);
    }
    assert Get(r, k) == Get(t, k);
    forall j | j != k ensures Get(r, j) == Get(d, j) {
      if d[0].0 != j {
        assert Get(r, j) == Get(t, j);
      }
    }
  }

  /** Property assignment `d[k] = v`. */
  function Put<V>(d: Dict<V>, k: string, v: V): (r: Dict<V>)
    ensures Get(r, k) == Some(v)
    ensures forall j :: j != k ==> Get(r, j) == Get(d, j)
    ensures Keys(r) == if k in Keys(d) then Keys(d) else Keys(d) + [k]
  {
    if d == [] then
      var r := [(k, v)];
      assert Keys(r) == [k];
      r
    else if d[0].0 == k then
      PutHead(d, k, v);
      [(k, v)] + d[1..]
    else
      var t := Put(d[1..], k, v);
      PutPast(d, k, v, t);
      [d[0]] + t
  }

  /** Property deletion `delete d[k]`: `k` is gone and every other key keeps its value. */
  function Remove<V>(d: Dict<V>, k: string): (r: Dict<V>)
    ensures Get(r, k) == None
    ensures forall j :: j != k ==> Get(r, j) == Get(d, j)
    ensures forall j :: j in Keys(r) <==> j in Keys(d) && j != k
  {
    if d == [] then []
    else if d[0].0 == k then KeysCons(d); Remove(d[1..], k)
    else
      KeysCons(d);
      var t := Remove(d[1..], k);
      var r := [d[0]] + t;
      assert r[1..] == t;
      KeysCons(r);
      r
  }

  /** A key is present after `d[k] = v` when it was before or is `k`. */
  lemma PutKeysIn<V>(d: Dict<V>, k: string, v: V, j: string)
    ensures j in Keys(Put(d, k, v)) <==> j in Keys(d) || j == k
  {
    if k !in Keys(d) {
      assert Keys(Put(d, k, v)) == Keys(d) + [k];
    }
  }

  /** Successive assignments of the entries `xs`, first to last. */
  function PutAll<V>(d: Dict<V>, xs: seq<(string, V)>): Dict<V>
  {
    if xs == [] then d
    else Put(PutAll(d, xs[..|xs| - 1]), xs[|xs| - 1].0, xs[|xs| - 1].1)
  }

  /** Assigning entries one at a time is assigning them all. */
  lemma PutAllSnoc<V>(d: Dict<V>, xs: seq<(string, V)>, i: nat)
    requires i < |xs|
    ensures PutAll(d, xs[..i + 1]) == Put(PutAll(d, xs[..i]), xs[i].0, xs[i].1)
  {
    assert xs[..i + 1][..i] == xs[..i];
  }

  /** Assigning `a` then `b` is assigning `a + b`. */
  lemma {:induction false} PutAllAppend<V>(d: Dict<V>, a: seq<(string, V)>, b: seq<(string, V)>)
    ensures PutAll(d, a + b) == PutAll(PutAll(d, a), b)
    decreases |b|
  {
    if b == [] {
      assert a + b == a;
    } else {
      var n := |b| - 1;
      assert (a + b)[..|a + b| - 1] == a + b[..n];
      PutAllAppend(d, a, b[..n]);
    }
  }

  /** A key is present after the assignments iff it was before or was assigned. */
  lemma {:induction false} PutAllKeys<V>(d: Dict<V>, xs: seq<(string, V)>, k: string)
    ensures k in Keys(PutAll(d, xs)) <==> k in Keys(d) || k in Keys(xs)
    decreases |xs|
  {
    if xs != [] {
      var n := |xs| - 1;
      var p := PutAll(d, xs[..n]);
      assert PutAll(d, xs) == Put(p, xs[n].0, xs[n].1);
      PutKeysIn(p, xs[n].0, xs[n].1, k);
      PutAllKeys(d, xs[..n], k);
      KeysSnocIn(xs, k);
    }
  }

  /** A key of a non-empty list of entries is a key of all but the last
      entry, or the last entry's key. */
  lemma KeysSnocIn<V>(xs: seq<(string, V)>, k: string)
    requires xs != []
    ensures k in Keys(xs) <==> k in Keys(xs[..|xs| - 1]) || k == xs[|xs| - 1].0
  {
    var n := |xs| - 1;
    KeysTake(xs, n);
    assert Keys(xs) == Keys(xs)[..n] + [xs[n].0];
  }

  /** A key that no assignment touches keeps its value. */
  lemma {:induction false} PutAllUntouched<V>(d: Dict<V>, xs: seq<(string, V)>, k: string)
    requires k !in Keys(xs)
    ensures Get(PutAll(d, xs), k) == Get(d, k)
    decreases |xs|
  {
    if xs != [] {
      var n := |xs| - 1;
      KeysTake(xs, n);
      assert xs[n].0 == Keys(xs)[n];
      var p := PutAll(d, xs[..n]);
      assert PutAll(d, xs) == Put(p, xs[n].0, xs[n].1);
      PutAllUntouched(d, xs[..n], k);
    }
  }

  /** The last assignment to a key decides its value. */
  lemma LastWriteWins<V>(d: Dict<V>, xs: seq<(string, V)>, i: nat)
    requires i < |xs|
    requires forall j :: i < j < |xs| ==> xs[j].0 != xs[i].0
    ensures Get(PutAll(d, xs), xs[i].0) == Some(xs[i].1)
  {
    var k := xs[i].0;
    var after := xs[i + 1..];
    assert k !in Keys(after) by {
      forall m | 0 <= m < |after| ensures Keys(after)[m] != k {
        assert Keys(after)[m] == xs[i + 1 + m].0;
      }
    }
    var inner := PutAll(d, xs[..i + 1]);
    assert Get(inner, k) == Some(xs[i].1) by {
      PutAllSnoc(d, xs, i);
    }
    assert PutAll(d, xs) == PutAll(inner, after) by {
      assert xs == xs[..i + 1] + after;
      PutAllAppend(d, xs[..i + 1], after);
    }
    PutAllUntouched(inner, after, k);
  }

  /** The last entry with key `k`, at `i` or after it. */
  lemma {:induction false} LastWith<V>(xs: seq<(string, V)>, k: string, i: nat) returns (m: nat)
    requires i < |xs| && xs[i].0 == k
    ensures i <= m < |xs| && xs[m].0 == k
    ensures forall j :: m < j < |xs| ==> xs[j].0 != k
    decreases |xs| - i
  {
    if j :| i < j < |xs| && xs[j].0 == k {
      m := LastWith(xs, k, j);
    } else {
      m := i;
    }
  }

  /** When equal keys always come with equal values, every entry can be
      read back after all of them are assigned. */
  lemma PutAllConsistent<V>(d: Dict<V>, xs: seq<(string, V)>)
    requires forall i, j :: 0 <= i < |xs| && 0 <= j < |xs| && xs[i].0 == xs[j].0 ==> xs[i].1 == xs[j].1
    ensures forall i :: 0 <= i < |xs| ==> Get(PutAll(d, xs), xs[i].0) == Some(xs[i].1)
  {
    forall i | 0 <= i < |xs| ensures Get(PutAll(d, xs), xs[i].0) == Some(xs[i].1) {
      var m := LastWith(xs, xs[i].0, i);
      LastWriteWins(d, xs, m);
    }
  }

  /** When no two assignments share a key, each one is read back. */
  lemma UniqueKeyWins<V>(d: Dict<V>, xs: seq<(string, V)>, i: nat)
    requires i < |xs| && NoDup(Keys(xs))
    ensures Get(PutAll(d, xs), xs[i].0) == Some(xs[i].1)
  {
    forall j | i < j < |xs| ensures xs[j].0 != xs[i].0 {
      assert Keys(xs)[i] == xs[i].0 && Keys(xs)[j] == xs[j].0;
    }
    LastWriteWins(d, xs, i);
  }

  /** Keys already present keep their positions: the old key list is a prefix. */
  lemma {:induction false} PutAllKeepsPositions<V>(d: Dict<V>, xs: seq<(string, V)>)
    ensures Keys(d) <= Keys(PutAll(d, xs))
    decreases |xs|
  {
    if xs != [] {
      PutAllKeepsPositions(d, xs[..|xs| - 1]);
    }
  }

  /** Assignment never duplicates a key. */
  lemma {:induction false} PutAllNoDup<V>(d: Dict<V>, xs: seq<(string, V)>)
    requires NoDup(Keys(d))
    ensures NoDup(Keys(PutAll(d, xs)))
    decreases |xs|
  {
    if xs != [] {
      var n := |xs| - 1;
      PutAllNoDup(d, xs[..n]);
      PutNoDup(PutAll(d, xs[..n]), xs[n].0, xs[n].1);
    }
  }

  lemma PutNoDup<V>(d: Dict<V>, k: string, v: V)
    requires NoDup(Keys(d))
    ensures NoDup(Keys(Put(d, k, v)))
  {
  }

  /** Get finds the first entry with the key. */
  lemma {:induction false} GetFirst<V>(d: Dict<V>, k: string, i: nat)
    requires i < |d| && d[i].0 == k
    requires forall j :: 0 <= j < i ==> d[j].0 != k
    ensures Get(d, k) == Some(d[i].1)
    decreases i
  {
    if i > 0 {
      GetFirst(d[1..], k, i - 1);
    }
  }

  /** In a dictionary without duplicate keys, every entry is what lookup finds. */
  lemma {:induction false} GetEntry<V>(d: Dict<V>, i: nat)
    requires NoDup(Keys(d)) && i < |d|
    ensures Get(d, d[i].0) == Some(d[i].1)
  {
    if i > 0 {
      assert d[0].0 != d[i].0 by { assert Keys(d)[0] != Keys(d)[i]; }
      NoDupTail(d);
      GetEntry(d[1..], i - 1);
      assert d[1..][i - 1] == d[i];
    }
  }

  /** The tail of a dictionary without duplicate keys has none either. */
  lemma NoDupTail<V>(d: Dict<V>)
    requires d != [] && NoDup(Keys(d))
    ensures NoDup(Keys(d[1..]))
  {
    var ks := Keys(d[1..]);
    forall a, b | 0 <= a < b < |ks| ensures ks[a] != ks[b] {
      assert ks[a] == Keys(d)[a + 1] && ks[b] == Keys(d)[b + 1];
    }
  }

  /** The values held by `d`. */
  function Values<V>(d: Dict<V>): set<V>
  {
    set i | 0 <= i < |d| :: d[i].1
  }

  /** The values of a non-empty dictionary: its first value and the rest's. */
  lemma ValuesCons<V>(d: Dict<V>)
    requires d != []
    ensures Values(d) == {d[0].1} + Values(d[1..])
  {
    forall x | x in Values(d) ensures x in {d[0].1} + Values(d[1..]) {
      var i :| 0 <= i < |d| && d[i].1 == x;
      if i > 0 {
        assert d[1..][i - 1].1 == x;
      }
    }
    forall x | x in Values(d[1..]) ensures x in Values(d) {
      var i :| 0 <= i < |d[1..]| && d[1..][i].1 == x;
      assert d[i + 1].1 == x;
    }
  }

  /** An assignment adds at most the assigned value. */
  lemma {:induction false} PutValues<V>(d: Dict<V>, k: string, v: V)
    ensures Values(Put(d, k, v)) <= Values(d) + {v}
  {
    var r := Put(d, k, v);
    if d == [] {
      assert r == [(k, v)];
      ValuesCons(r);
      assert r[1..] == [];
    } else if d[0].0 == k {
      assert r[0] == (k, v) && r[1..] == d[1..];
      ValuesCons(r);
      ValuesCons(d);
    } else {
      var t := Put(d[1..], k, v);
      assert r[0] == d[0] && r[1..] == t;
      PutValues(d[1..], k, v);
      ValuesCons(r);
      ValuesCons(d);
    }
  }

  /** The entries of several blocks, one block after the other. */
  function Concat<T>(bs: seq<seq<T>>): seq<T>
  {
    if bs == [] then [] else Concat(bs[..|bs| - 1]) + bs[|bs| - 1]
  }

  /** With blocks of equal width `w`, entry `j` of block `i` sits at `w * i + j`. */
  lemma {:induction false} ConcatAt<T>(bs: seq<seq<T>>, w: nat, i: nat, j: nat)
    requires forall k :: 0 <= k < |bs| ==> |bs[k]| == w
    requires i < |bs| && j < w
    ensures |Concat(bs)| == w * |bs| && w * i + j < |Concat(bs)|
    ensures Concat(bs)[w * i + j] == bs[i][j]
    decreases |bs|
  {
    var n := |bs| - 1;
    var front := bs[..n];
    assert w * |bs| == w * n + w;
    ConcatLength(front, w);
    assert Concat(bs) == Concat(front) + bs[n];
    if i < n {
      ConcatAt(front, w, i, j);
    } else {
      assert w * i == w * n;
    }
  }

  /** Every entry of equal-width blocks is entry `j` of some block `i`. */
  lemma {:induction false} ConcatIndex<T>(bs: seq<seq<T>>, w: nat, p: nat) returns (i: nat, j: nat)
    requires forall k :: 0 <= k < |bs| ==> |bs[k]| == w
    requires p < |Concat(bs)|
    ensures i < |bs| && j < w && p == w * i + j && Concat(bs)[p] == bs[i][j]
    decreases |bs|
  {
    var n := |bs| - 1;
    var front := bs[..n];
    ConcatLength(front, w);
    assert Concat(bs) == Concat(front) + bs[n];
    if p < |Concat(front)| {
      i, j := ConcatIndex(front, w, p);
    } else {
      i, j := n, p - w * n;
    }
  }

  lemma {:induction false} ConcatLength<T>(bs: seq<seq<T>>, w: nat)
    requires forall k :: 0 <= k < |bs| ==> |bs[k]| == w
    ensures |Concat(bs)| == w * |bs|
    decreases |bs|
  {
    if bs != [] {
      var n := |bs| - 1;
      ConcatLength(bs[..n], w);
      assert w * |bs| == w * n + w;
    }
  }

  /** When the entries of equal-width blocks and those assigned after them
      never share a key, every block entry is read back. */
  lemma BlockEntryWins<V>(d: Dict<V>, bs: seq<seq<(string, V)>>, rest: seq<(string, V)>, w: nat, i: nat, j: nat)
    requires forall k :: 0 <= k < |bs| ==> |bs[k]| == w
    requires i < |bs| && j < w
    requires NoDup(Keys(Concat(bs) + rest))
    ensures Get(PutAll(PutAll(d, Concat(bs)), rest), bs[i][j].0) == Some(bs[i][j].1)
  {
    var xs := Concat(bs) + rest;
    var p := w * i + j;
    assert p < |xs| && xs[p] == bs[i][j] by {
      ConcatAt(bs, w, i, j);
    }
    assert PutAll(PutAll(d, Concat(bs)), rest) == PutAll(d, xs) by {
      PutAllAppend(d, Concat(bs), rest);
    }
    UniqueKeyWins(d, xs, p);
  }

  /** When the entries of equal-width blocks never share a key, every one
      of them is read back. */
  lemma LastBlocksWin<V>(d: Dict<V>, bs: seq<seq<(string, V)>>, w: nat, i: nat, j: nat)
    requires forall k :: 0 <= k < |bs| ==> |bs[k]| == w
    requires i < |bs| && j < w
    requires NoDup(Keys(Concat(bs)))
    ensures Get(PutAll(d, Concat(bs)), bs[i][j].0) == Some(bs[i][j].1)
  {
    ConcatAt(bs, w, i, j);
    var p := w * i + j;
    assert p < |Concat(bs)| && Concat(bs)[p] == bs[i][j];
    UniqueKeyWins(d, Concat(bs), p);
  }

  /** An entry of equal-width blocks whose keys never repeat, and which
      nothing assigned later touches, is read back. */
  lemma FrontBlocksKept<V>(d: Dict<V>, bs: seq<seq<(string, V)>>, rest: seq<(string, V)>, w: nat, i: nat, j: nat)
    requires forall k :: 0 <= k < |bs| ==> |bs[k]| == w
    requires i < |bs| && j < w
    requires NoDup(Keys(Concat(bs))) && bs[i][j].0 !in Keys(rest)
    ensures Get(PutAll(PutAll(d, Concat(bs)), rest), bs[i][j].0) == Some(bs[i][j].1)
  {
    LastBlocksWin(d, bs, w, i, j);
    PutAllUntouched(PutAll(d, Concat(bs)), rest, bs[i][j].0);
  }

  /** When the entries assigned first and those of the equal-width blocks
      after them never share a key, every block entry is read back. */
  lemma LaterBlocksWin<V>(d: Dict<V>, front: seq<(string, V)>, bs: seq<seq<(string, V)>>, w: nat, i: nat, j: nat)
    requires forall k :: 0 <= k < |bs| ==> |bs[k]| == w
    requires i < |bs| && j < w
    requires NoDup(Keys(front + Concat(bs)))
    ensures Get(PutAll(PutAll(d, front), Concat(bs)), bs[i][j].0) == Some(bs[i][j].1)
  {
    var c := Concat(bs);
    var xs := front + c;
    var p := w * i + j;
    assert p < |c| && c[p] == bs[i][j] by {
      ConcatAt(bs, w, i, j);
    }
    var q := |front| + p;
    var e := bs[i][j];
    assert q < |xs| && xs[q] == e;
    var r := PutAll(d, xs);
    assert Get(r, e.0) == Some(e.1) by {
      UniqueKeyWins(d, xs, q);
    }
    assert PutAll(PutAll(d, front), c) == r by {
      PutAllAppend(d, front, c);
    }
  }

  lemma PutAllTriple<V>(d: Dict<V>, a: (string, V), b: (string, V), c: (string, V))
    ensures PutAll(d, [a, b, c]) == Put(Put(Put(d, a.0, a.1), b.0, b.1), c.0, c.1)
  {
    var abc := [a, b, c];
    assert abc[..2] == [a, b];
    assert PutAll(d, abc) == Put(PutAll(d, [a, b]), c.0, c.1);
    PutAllPair(d, a, b);
  }

  /** Assigning the entries of one more block. */
  lemma PutAllBlocksStep<V>(d: Dict<V>, bs: seq<seq<(string, V)>>, i: nat)
    requires i < |bs|
    ensures PutAll(d, Concat(bs[..i + 1])) == PutAll(PutAll(d, Concat(bs[..i])), bs[i])
  {
    assert bs[..i + 1][..i] == bs[..i];
    PutAllAppend(d, Concat(bs[..i]), bs[i]);
  }

  /** Assigning one entry. */
  lemma PutAllOne<V>(d: Dict<V>, a: (string, V))
    ensures PutAll(d, [a]) == Put(d, a.0, a.1)
  {
    assert [a][..0] == [];
  }

  /** Assigning two entries. */
  lemma PutAllPair<V>(d: Dict<V>, a: (string, V), b: (string, V))
    ensures PutAll(d, [a, b]) == Put(Put(d, a.0, a.1), b.0, b.1)
  {
    var ab := [a, b];
    assert ab[..1] == [a];
    PutAllOne(d, a);
    assert PutAll(d, ab) == Put(PutAll(d, [a]), b.0, b.1);
  }
}
