/** The encodings of string slices, uint32-to-bytes maps and string-to-string maps (message.go).
    Go strings are byte sequences, so a string is `bytes` here. */
module Collections {
  import opened Wrappers
  import opened MapOrder
  import opened Bytes

  const MAX_ENTRIES: int := 128
  const MAX_LENGTH: int := 8192

  // ---------- Length-prefixed strings ----------

  function Str(s: bytes): bytes { PutU32(Wrap32(|s|)) + s }

  function Strs(xs: seq<bytes>): bytes {
    if xs == [] then [] else Str(xs[0]) + Strs(xs[1..])
  }

  /** DecodeString: the string in front and what follows it. */
  function TakeStr(b: bytes): Option<(bytes, bytes)> {
    if |b| < 4 then None
    else
      var n := GetU32(b);
      if n > MAX_LENGTH || n > |b| - 4 then None else Some((b[4..4 + n], b[4 + n..]))
  }

  function TakeStrs(b: bytes, n: nat): Option<seq<bytes>> {
    if n == 0 then Some([])
    else
      match TakeStr(b)
      case None => None
      case Some((s, rest)) =>
        match TakeStrs(rest, n - 1)
        case None => None
        case Some(xs) => Some([s] + xs)
  }

  predicate Short(s: bytes) { |s| <= MAX_LENGTH }

  predicate AllShort(xs: seq<bytes>) { forall i | 0 <= i < |xs| :: Short(xs[i]) }

  predicate AllFit(xs: seq<bytes>) { forall i | 0 <= i < |xs| :: |xs[i]| < TWO_32 }

  lemma TakeStrOf(s: bytes, tail: bytes)
    requires |s| < TWO_32
    ensures TakeStr(Str(s) + tail) == if Short(s) then Some((s, tail)) else None
  {
    WrapSmall(|s|);
    var b := Str(s) + tail;
    assert b == PutU32(|s|) + (s + tail);
    PutGet(|s|, s + tail);
    assert b[4..4 + |s|] == s && b[4 + |s|..] == tail;
  }

  lemma {:induction false} TakeStrsOf(xs: seq<bytes>, tail: bytes)
    requires AllFit(xs)
    ensures TakeStrs(Strs(xs) + tail, |xs|) == if AllShort(xs) then Some(xs) else None
  {
    if xs != [] {
      var more := Strs(xs[1..]) + tail;
      assert Strs(xs) + tail == Str(xs[0]) + more;
      TakeStrOf(xs[0], more);
      TakeStrsOf(xs[1..], tail);
      assert xs == [xs[0]] + xs[1..];
      assert AllShort(xs) <==> Short(xs[0]) && AllShort(xs[1..]);
    }
  }

  // ---------- Keyed values ----------

  type Entry = (U32, bytes)

  function Ent(p: Entry): bytes { PutU32(p.0) + Str(p.1) }

  function Ents(ps: seq<Entry>): bytes {
    if ps == [] then [] else Ent(ps[0]) + Ents(ps[1..])
  }

  function TakeEnt(b: bytes): Option<(Entry, bytes)> {
    if |b| < 4 then None
    else
      match TakeStr(b[4..])
      case None => None
      case Some((v, rest)) => Some(((GetU32(b), v), rest))
  }

  function TakeEnts(b: bytes, n: nat): Option<seq<Entry>> {
    if n == 0 then Some([])
    else
      match TakeEnt(b)
      case None => None
      case Some((p, rest)) =>
        match TakeEnts(rest, n - 1)
        case None => None
        case Some(ps) => Some([p] + ps)
  }

  predicate EntsShort(ps: seq<Entry>) { forall i | 0 <= i < |ps| :: Short(ps[i].1) }

  predicate EntsFit(ps: seq<Entry>) { forall i | 0 <= i < |ps| :: |ps[i].1| < TWO_32 }

  lemma TakeEntOf(p: Entry, tail: bytes)
    requires |p.1| < TWO_32
    ensures TakeEnt(Ent(p) + tail) == if Short(p.1) then Some((p, tail)) else None
  {
    var more := Str(p.1) + tail;
    assert Ent(p) + tail == PutU32(p.0) + more;
    PutGet(p.0, more);
    TakeStrOf(p.1, tail);
  }

  lemma {:induction false} TakeEntsOf(ps: seq<Entry>, tail: bytes)
    requires EntsFit(ps)
    ensures TakeEnts(Ents(ps) + tail, |ps|) == if EntsShort(ps) then Some(ps) else None
  {
    if ps != [] {
      var more := Ents(ps[1..]) + tail;
      assert Ents(ps) + tail == Ent(ps[0]) + more;
      TakeEntOf(ps[0], more);
      TakeEntsOf(ps[1..], tail);
      assert ps == [ps[0]] + ps[1..];
      assert EntsShort(ps) <==> Short(ps[0].1) && EntsShort(ps[1..]);
    }
  }

  // ---------- The three collections ----------

  function Counted(n: nat, items: bytes): bytes {
    if n == 0 then [] else PutU32(Wrap32(n)) + items
  }

  /** The number of entries `b` announces, if it is an acceptable one. */
  function TakeCount(b: bytes): Option<nat> {
    if |b| < 4 || GetU32(b) > MAX_ENTRIES then None else Some(GetU32(b))
  }

  function DecodeSlice(b: bytes): Option<seq<bytes>> {
    if b == [] then Some([])
    else match TakeCount(b)
         case None => None
         case Some(n) => TakeStrs(b[4..], n)
  }

  function DecodeU32Map(b: bytes): Option<map<U32, bytes>> {
    if b == [] then Some(map[])
    else match TakeCount(b)
         case None => None
         case Some(n) =>
           match TakeEnts(b[4..], n)
           case None => None
           case Some(ps) => Some(Fold(ps))
  }

  /** k1, v1, k2, v2, ... */
  function Alternate(ps: seq<(bytes, bytes)>): seq<bytes> {
    if ps == [] then [] else [ps[0].0, ps[0].1] + Alternate(ps[1..])
  }

  function Pair(xs: seq<bytes>): seq<(bytes, bytes)> {
    if |xs| < 2 then [] else [(xs[0], xs[1])] + Pair(xs[2..])
  }

  function DecodeStrMap(b: bytes): Option<map<bytes, bytes>> {
    if b == [] then Some(map[])
    else match TakeCount(b)
         case None => None
         case Some(n) =>
           match TakeStrs(b[4..], 2 * n)
           case None => None
           case Some(xs) => Some(Fold(Pair(xs)))
  }

  lemma CountedTakes(n: nat, items: bytes)
    requires 0 < n < TWO_32
    ensures var b := Counted(n, items);
            |b| >= 4 && b[4..] == items && TakeCount(b) == if n <= MAX_ENTRIES then Some(n) else None
  {
    WrapSmall(n);
    PutGet(n, items);
  }

  lemma SliceDecodes(b: bytes, xs: seq<bytes>)
    requires |b| >= 4 && AllFit(xs) && b[4..] == Strs(xs)
    requires TakeCount(b) == if |xs| <= MAX_ENTRIES then Some(|xs|) else None
    ensures DecodeSlice(b) == if |xs| <= MAX_ENTRIES && AllShort(xs) then Some(xs) else None
  {
    TakeStrsOf(xs, []);
    assert Strs(xs) + [] == Strs(xs);
  }

  /** A string slice survives exactly when it has at most 128 entries of at most 8192 bytes. */
  lemma SliceRoundTrip(xs: seq<bytes>)
    requires |xs| < TWO_32 && AllFit(xs)
    ensures DecodeSlice(Counted(|xs|, Strs(xs))) ==
              if |xs| <= 128 && forall i | 0 <= i < |xs| :: |xs[i]| <= 8192 then Some(xs) else None
  {
    if xs != [] {
      CountedTakes(|xs|, Strs(xs));
      SliceDecodes(Counted(|xs|, Strs(xs)), xs);
    }
  }

  lemma OrderLength<K(!new), V>(order: seq<K>, m: map<K, V>)
    requires IsOrder(order, m)
    ensures |order| == |m|
  {
    var ks := set k | k in order;
    assert ks == m.Keys;
    SeqSetLength(order);
  }

  lemma {:induction false} SeqSetLength<K>(s: seq<K>)
    requires forall i, j | 0 <= i < j < |s| :: s[i] != s[j]
    ensures |set k | k in s| == |s|
  {
    if s != [] {
      SeqSetLength(s[1..]);
      assert (set k | k in s) == {s[0]} + (set k | k in s[1..]);
    }
  }

  /** A uint32-to-bytes map survives, whatever order it was written in, exactly when it has at most 128
      entries with values of at most 8192 bytes. */
  lemma U32MapRoundTrip(m: map<U32, bytes>, order: seq<U32>)
    requires IsOrder(order, m) && |m| < TWO_32 && forall k | k in m :: |m[k]| < TWO_32
    ensures DecodeU32Map(Counted(|m|, Ents(PairsOf(m, order)))) ==
              if |m| <= 128 && forall k | k in m :: |m[k]| <= 8192 then Some(m) else None
  {
    OrderLength(order, m);
    var ps := PairsOf(m, order);
    if order != [] {
      CountedTakes(|m|, Ents(ps));
      TakeEntsOf(ps, []);
      assert Ents(ps) + [] == Ents(ps);
      FoldPairsOf(m, order);
      U32Short(m, order);
    }
  }

  lemma U32Short(m: map<U32, bytes>, order: seq<U32>)
    requires IsOrder(order, m)
    ensures EntsShort(PairsOf(m, order)) <==> forall k | k in m :: Short(m[k])
  {
    var ps := PairsOf(m, order);
    if EntsShort(ps) {
      forall k | k in m ensures Short(m[k]) {
        var i :| 0 <= i < |order| && order[i] == k;
        assert Short(ps[i].1);
      }
    }
  }

  lemma {:induction false} PairAlternate(ps: seq<(bytes, bytes)>)
    ensures Pair(Alternate(ps)) == ps && |Alternate(ps)| == 2 * |ps|
    ensures AllFit(Alternate(ps)) <==> forall i | 0 <= i < |ps| :: |ps[i].0| < TWO_32 && |ps[i].1| < TWO_32
    ensures AllShort(Alternate(ps)) <==> forall i | 0 <= i < |ps| :: Short(ps[i].0) && Short(ps[i].1)
  {
    if ps != [] {
      PairAlternate(ps[1..]);
      var xs := Alternate(ps);
      assert xs[2..] == Alternate(ps[1..]);
      assert AllShort(xs) <==> Short(xs[0]) && Short(xs[1]) && AllShort(xs[2..]);
      assert AllFit(xs) <==> |xs[0]| < TWO_32 && |xs[1]| < TWO_32 && AllFit(xs[2..]);
    }
  }

  lemma StrMapDecodes(n: nat, xs: seq<bytes>)
    requires 0 < n < TWO_32 && |xs| == 2 * n && AllFit(xs)
    ensures DecodeStrMap(Counted(n, Strs(xs))) == if n <= MAX_ENTRIES
            && AllShort(xs) then Some(Fold(Pair(xs))) else None
  {
    CountedTakes(n, Strs(xs));
    TakeStrsOf(xs, []);
    assert Strs(xs) + [] == Strs(xs);
  }

  predicate StrMapFits(m: map<bytes, bytes>) {
    forall k | k in m :: |k| < TWO_32 && |m[k]| < TWO_32
  }

  predicate StrMapShort(m: map<bytes, bytes>) {
    forall k | k in m :: Short(k) && Short(m[k])
  }

  lemma StrMapComesBack(m: map<bytes, bytes>, order: seq<bytes>)
    requires IsOrder(order, m) && 0 < |m| < TWO_32 && StrMapFits(m)
    ensures DecodeStrMap(Counted(|m|, Strs(Alternate(PairsOf(m, order))))) ==
              if |m| <= MAX_ENTRIES && StrMapShort(m) then Some(m) else None
  {
    OrderLength(order, m);
    AlternateShape(m, order);
    StrMapDecodes(|m|, Alternate(PairsOf(m, order)));
    FoldPairsOf(m, order);
  }

  /** A string-to-string map survives, whatever order it was written in, exactly when it has at most 128
      entries with keys and values of at most 8192 bytes. */
  lemma StrMapRoundTrip(m: map<bytes, bytes>, order: seq<bytes>)
    requires IsOrder(order, m) && |m| < TWO_32 && StrMapFits(m)
    ensures DecodeStrMap(Counted(|m|, Strs(Alternate(PairsOf(m, order))))) ==
              if |m| <= 128 && forall k | k in m :: |k| <= 8192 && |m[k]| <= 8192 then Some(m) else None
  {
    if m == map[] {
      OrderLength(order, m);
    } else {
      StrMapComesBack(m, order);
    }
  }

  lemma AlternateShape(m: map<bytes, bytes>, order: seq<bytes>)
    requires IsOrder(order, m) && StrMapFits(m)
    ensures var xs := Alternate(PairsOf(m, order));
            |xs| == 2 * |order| && Pair(xs) == PairsOf(m, order) && AllFit(xs) && (AllShort(xs) <==> StrMapShort(m))
  {
    var ps := PairsOf(m, order);
    PairAlternate(ps);
    if AllShort(Alternate(ps)) {
      forall k | k in m ensures Short(k) && Short(m[k]) {
        var i :| 0 <= i < |order| && order[i] == k;
        assert Short(ps[i].0) && Short(ps[i].1);
      }
    }
  }

  // ---------- The encoders, filling a buffer of the computed size ----------

  /** copy(buf[idx:], data), or PutUint32 into it. */
  method CopyAt(buf: array<byte>, idx: nat, data: bytes)
    requires idx + |data| <= buf.Length
    modifies buf
    ensures buf[..idx + |data|] == old(buf[..idx]) + data
  {
    for i := 0 to |data|
      invariant buf[..idx + i] == old(buf[..idx]) + data[..i]
    {
      buf[idx + i] := data[i];
      assert data[..i + 1] == data[..i] + [data[i]];
    }
    assert data[..|data|] == data;
  }

  lemma {:induction false} StrsAppend(xs: seq<bytes>, x: bytes)
    ensures Strs(xs + [x]) == Strs(xs) + Str(x)
  {
    if xs == [] {
      assert [x][1..] == [];
    } else {
      assert (xs + [x])[1..] == xs[1..] + [x];
      StrsAppend(xs[1..], x);
    }
  }

  lemma {:induction false} EntsAppend(ps: seq<Entry>, p: Entry)
    ensures Ents(ps + [p]) == Ents(ps) + Ent(p)
  {
    if ps == [] {
      assert [p][1..] == [];
    } else {
      assert (ps + [p])[1..] == ps[1..] + [p];
      EntsAppend(ps[1..], p);
    }
  }

  method PutStr(buf: array<byte>, idx: nat, s: bytes) returns (next: nat)
    requires idx + |Str(s)| <= buf.Length
    modifies buf
    ensures next == idx + |Str(s)| && buf[..next] == old(buf[..idx]) + Str(s)
  {
    CopyAt(buf, idx, PutU32(Wrap32(|s|)));
    CopyAt(buf, idx + 4, s);
    next := idx + 4 + |s|;
  }

  method PutEnt(buf: array<byte>, idx: nat, p: Entry) returns (next: nat)
    requires idx + |Ent(p)| <= buf.Length
    modifies buf
    ensures next == idx + |Ent(p)| && buf[..next] == old(buf[..idx]) + Ent(p)
  {
    CopyAt(buf, idx, PutU32(p.0));
    next := PutStr(buf, idx + 4, p.1);
  }

  method PutPair(buf: array<byte>, idx: nat, k: bytes, v: bytes) returns (next: nat)
    requires idx + |Str(k)| + |Str(v)| <= buf.Length
    modifies buf
    ensures next == idx + |Str(k)| + |Str(v)| && buf[..next] == old(buf[..idx]) + (Str(k) + Str(v))
  {
    next := PutStr(buf, idx, k);
    next := PutStr(buf, next, v);
    Assoc(old(buf[..idx]), Str(k), Str(v));
  }

  lemma Assoc(a: bytes, b: bytes, c: bytes)
    ensures a + b + c == a + (b + c)
  {
  }

  method StringSliceSize(xs: seq<bytes>) returns (l: nat)
    ensures l == 4 + |Strs(xs)|
  {
    l := 4 + 4 * |xs|;
    for i := 0 to |xs|
      invariant l == 4 + 4 * (|xs| - i) + |Strs(xs[..i])|
    {
      assert xs[..i + 1] == xs[..i] + [xs[i]];
      StrsAppend(xs[..i], xs[i]);
      l := l + |xs[i]|;
    }
    assert xs[..|xs|] == xs;
  }

  lemma {:induction false} StrsConcat(a: seq<bytes>, b: seq<bytes>)
    ensures Strs(a + b) == Strs(a) + Strs(b)
  {
    if a == [] {
      assert a + b == b;
    } else {
      assert (a + b)[1..] == a[1..] + b;
      StrsConcat(a[1..], b);
    }
  }

  /** Writing one more string leaves the buffer with room for the rest. */
  lemma StrsStep(xs: seq<bytes>, i: nat)
    requires i < |xs|
    ensures Strs(xs[..i + 1]) == Strs(xs[..i]) + Str(xs[i]) && |Strs(xs[..i + 1])| <= |Strs(xs)|
  {
    assert xs[..i + 1] == xs[..i] + [xs[i]];
    StrsAppend(xs[..i], xs[i]);
    assert xs == xs[..i + 1] + xs[i + 1..];
    StrsConcat(xs[..i + 1], xs[i + 1..]);
  }

  method EncodeStringSlice(xs: seq<bytes>) returns (r: bytes)
    ensures r == Counted(|xs|, Strs(xs))
  {
    if |xs| == 0 { return []; }
    var l := StringSliceSize(xs);
    var result := new byte[l];
    CopyAt(result, 0, PutU32(Wrap32(|xs|)));
    var idx := 4;
    for i := 0 to |xs|
      invariant idx == 4 + |Strs(xs[..i])| <= l
      invariant result[..idx] == PutU32(Wrap32(|xs|)) + Strs(xs[..i])
    {
      StrsStep(xs, i);
      idx := PutStr(result, idx, xs[i]);
    }
    assert xs[..|xs|] == xs;
    assert idx == l;    // the panic is unreachable
    return result[..];
  }

  /** The bytes each entry takes. */
  function U32Sizes(m: map<U32, bytes>): map<U32, nat> { map k | k in m :: 8 + |m[k]| }

  method U32MapSize(m: map<U32, bytes>) returns (l: nat)
    ensures l == 4 + Sum(U32Sizes(m), m.Keys)
  {
    l := 4 + 8 * |m|;
    var todo := m.Keys;
    while todo != {}
      invariant todo <= m.Keys && l == 4 + 8 * |todo| + (Sum(U32Sizes(m), m.Keys) - Sum(U32Sizes(m), todo))
      decreases todo
    {
      var k :| k in todo;
      SumAny(U32Sizes(m), todo, k);
      l := l + |m[k]|;
      todo := todo - {k};
    }
  }

  /** The keys ranged over so far. */
  ghost predicate Visited<K(!new), V>(order: seq<K>, m: map<K, V>, todo: set<K>) {
    && todo <= m.Keys && (forall k :: k in order <==> k in m && k !in todo)
    && forall i, j | 0 <= i < j < |order| :: order[i] != order[j]
  }

  lemma Visit<K(!new), V>(order: seq<K>, m: map<K, V>, todo: set<K>, k: K)
    requires Visited(order, m, todo) && k in todo
    ensures Visited(order + [k], m, todo - {k})
    ensures PairsOf(m, order + [k]) == PairsOf(m, order) + [(k, m[k])]
  {
  }

  lemma VisitedAll<K(!new), V>(order: seq<K>, m: map<K, V>)
    requires Visited(order, m, {})
    ensures IsOrder(order, m)
  {
  }

  /** `items` holds the entries of the keys already visited, in the order of the visits. */
  ghost predicate EntsSoFar(m: map<U32, bytes>, todo: set<U32>, items: bytes) {
    exists order :: Visited(order, m, todo) && items == Ents(PairsOf(m, order))
  }

  lemma EntsVisit(m: map<U32, bytes>, todo: set<U32>, items: bytes, k: U32)
    requires EntsSoFar(m, todo, items) && k in todo
    ensures EntsSoFar(m, todo - {k}, items + Ent((k, m[k])))
    ensures Sum(U32Sizes(m), todo) == |Ent((k, m[k]))| + Sum(U32Sizes(m), todo - {k})
  {
    var order :| Visited(order, m, todo) && items == Ents(PairsOf(m, order));
    SumAny(U32Sizes(m), todo, k);
    EntsAppend(PairsOf(m, order), (k, m[k]));
    Visit(order, m, todo, k);
  }

  /** The writing loop.  It ranges over the map in an order of its own, and fills the buffer exactly. */
  method WriteEnts(result: array<byte>, m: map<U32, bytes>, ghost head: bytes) returns (ghost items: bytes)
    requires result.Length == 4 + Sum(U32Sizes(m), m.Keys) && result[..4] == head
    modifies result
    ensures EntsSoFar(m, {}, items) && result[..] == head + items
  {
    var idx: nat := 4;
    var todo := m.Keys;
    items := [];
    assert EntsSoFar(m, todo, items) by { assert Visited([], m, todo) && items == Ents(PairsOf(m, [])); }
    while todo != {}
      invariant todo <= m.Keys && EntsSoFar(m, todo, items) && idx + Sum(U32Sizes(m), todo) == result.Length
      invariant result[..idx] == head + items
      decreases todo
    {
      var k :| k in todo;
      EntsVisit(m, todo, items, k);
      var p := (k, m[k]);
      Assoc(head, items, Ent(p));
      idx := PutEnt(result, idx, p);
      items := items + Ent(p);
      todo := todo - {k};
    }
    assert idx == result.Length;    // the panic is unreachable
  }

  method EncodeU32ToBytesMap(m: map<U32, bytes>) returns (r: bytes)
    ensures exists order :: IsOrder(order, m) && r == Counted(|m|, Ents(PairsOf(m, order)))
  {
    if |m| == 0 {
      assert IsOrder([], m);
      return [];
    }
    var l := U32MapSize(m);
    var result := new byte[l];
    CopyAt(result, 0, PutU32(Wrap32(|m|)));
    ghost var items := WriteEnts(result, m, PutU32(Wrap32(|m|)));
    ghost var order :| Visited(order, m, {}) && items == Ents(PairsOf(m, order));
    VisitedAll(order, m);
    return result[..];
  }

  function StrSizes(m: map<bytes, bytes>): map<bytes, nat> { map k | k in m :: 8 + |k| + |m[k]| }

  method StrMapSize(m: map<bytes, bytes>) returns (l: nat)
    ensures l == 4 + Sum(StrSizes(m), m.Keys)
  {
    l := 4 + 8 * |m|;
    var todo := m.Keys;
    while todo != {}
      invariant todo <= m.Keys && l == 4 + 8 * |todo| + (Sum(StrSizes(m), m.Keys) - Sum(StrSizes(m), todo))
      decreases todo
    {
      var k :| k in todo;
      SumAny(StrSizes(m), todo, k);
      l := l + |k| + |m[k]|;
      todo := todo - {k};
    }
  }

  lemma {:induction false} AlternateAppend(ps: seq<(bytes, bytes)>, p: (bytes, bytes))
    ensures Alternate(ps + [p]) == Alternate(ps) + [p.0] + [p.1]
    ensures Strs(Alternate(ps + [p])) == Strs(Alternate(ps)) + Str(p.0) + Str(p.1)
  {
    AlternateLast(ps, p);
    StrsAppend(Alternate(ps), p.0);
    StrsAppend(Alternate(ps) + [p.0], p.1);
  }

  lemma {:induction false} AlternateLast(ps: seq<(bytes, bytes)>, p: (bytes, bytes))
    ensures Alternate(ps + [p]) == Alternate(ps) + [p.0] + [p.1]
  {
    if ps == [] {
      assert [p][1..] == [];
    } else {
      assert (ps + [p])[1..] == ps[1..] + [p];
      AlternateLast(ps[1..], p);
    }
  }

  ghost predicate StrsSoFar(m: map<bytes, bytes>, todo: set<bytes>, items: bytes) {
    exists order :: Visited(order, m, todo) && items == Strs(Alternate(PairsOf(m, order)))
  }

  lemma StrsVisit(m: map<bytes, bytes>, todo: set<bytes>, items: bytes, k: bytes)
    requires StrsSoFar(m, todo, items) && k in todo
    ensures StrsSoFar(m, todo - {k}, items + (Str(k) + Str(m[k])))
    ensures Sum(StrSizes(m), todo) == |Str(k)| + |Str(m[k])| + Sum(StrSizes(m), todo - {k})
  {
    var order :| Visited(order, m, todo) && items == Strs(Alternate(PairsOf(m, order)));
    SumAny(StrSizes(m), todo, k);
    AlternateAppend(PairsOf(m, order), (k, m[k]));
    Visit(order, m, todo, k);
    Assoc(items, Str(k), Str(m[k]));
  }

  method WriteStrs(result: array<byte>, m: map<bytes, bytes>, ghost head: bytes) returns (ghost items: bytes)
    requires result.Length == 4 + Sum(StrSizes(m), m.Keys) && result[..4] == head
    modifies result
    ensures StrsSoFar(m, {}, items) && result[..] == head + items
  {
    var idx: nat := 4;
    var todo := m.Keys;
    items := [];
    assert StrsSoFar(m, todo, items) by { assert Visited([], m, todo) && items == Strs(Alternate(PairsOf(m, []))); }
    while todo != {}
      invariant todo <= m.Keys && StrsSoFar(m, todo, items) && idx + Sum(StrSizes(m), todo) == result.Length
      invariant result[..idx] == head + items
      decreases todo
    {
      var k :| k in todo;
      StrsVisit(m, todo, items, k);
      Assoc(head, items, Str(k) + Str(m[k]));
      idx := PutPair(result, idx, k, m[k]);
      items := items + (Str(k) + Str(m[k]));
      todo := todo - {k};
    }
    assert idx == result.Length;    // the panic is unreachable
  }

  method EncodeStringToStringMap(m: map<bytes, bytes>) returns (r: bytes)
    ensures exists order :: IsOrder(order, m) && r == Counted(|m|, Strs(Alternate(PairsOf(m, order))))
  {
    if |m| == 0 {
      assert IsOrder([], m);
      return [];
    }
    var l := StrMapSize(m);
    var result := new byte[l];
    CopyAt(result, 0, PutU32(Wrap32(|m|)));
    ghost var items := WriteStrs(result, m, PutU32(Wrap32(|m|)));
    ghost var order :| Visited(order, m, {}) && items == Strs(Alternate(PairsOf(m, order)));
    VisitedAll(order, m);
    return result[..];
  }

  // ---------- The decoders, loop by loop ----------

  /** Having decoded `done`, what is left of the bytes decides the outcome. */
  predicate StrsLeft(b: bytes, n: nat, rest: bytes, left: nat, done: seq<bytes>) {
    match TakeStrs(rest, left)
    case None => TakeStrs(b, n) == None
    case Some(xs) => TakeStrs(b, n) == Some(done + xs)
  }

  lemma StrsLeftStart(b: bytes, n: nat)
    ensures StrsLeft(b, n, b, n, [])
  {
    if TakeStrs(b, n).Some? { assert [] + TakeStrs(b, n).value == TakeStrs(b, n).value; }
  }

  lemma StrsLeftStep(b: bytes, n: nat, rest: bytes, left: nat, done: seq<bytes>)
    requires left > 0 && StrsLeft(b, n, rest, left, done)
    ensures match TakeStr(rest)
            case None => TakeStrs(b, n) == None
            case Some((s, rest')) => StrsLeft(b, n, rest', left - 1, done + [s])
  {
    if TakeStr(rest).Some? {
      var (s, rest') := TakeStr(rest).value;
      if TakeStrs(rest', left - 1).Some? {
        var xs := TakeStrs(rest', left - 1).value;
        assert done + ([s] + xs) == (done + [s]) + xs;
      }
    }
  }

  method DecodeStringSlice(b: bytes) returns (r: Option<seq<bytes>>)
    ensures r == DecodeSlice(b)
  {
    if |b| == 0 { return Some([]); }
    if |b| < 4 { return None; }
    var l := GetU32(b);
    if l > MAX_ENTRIES { return None; }
    var rest := b[4..];
    var result: seq<bytes> := [];
    StrsLeftStart(rest, l);
    for i := 0 to l
      invariant StrsLeft(b[4..], l, rest, l - i, result)
    {
      StrsLeftStep(b[4..], l, rest, l - i, result);
      var next := TakeStr(rest);
      if next.None? { return None; }
      result := result + [next.value.0];
      rest := next.value.1;
    }
    assert result + [] == result;
    return Some(result);
  }

  predicate EntsLeft(b: bytes, n: nat, rest: bytes, left: nat, done: seq<Entry>) {
    match TakeEnts(rest, left)
    case None => TakeEnts(b, n) == None
    case Some(ps) => TakeEnts(b, n) == Some(done + ps)
  }

  lemma EntsLeftStart(b: bytes, n: nat)
    ensures EntsLeft(b, n, b, n, [])
  {
    if TakeEnts(b, n).Some? { assert [] + TakeEnts(b, n).value == TakeEnts(b, n).value; }
  }

  lemma EntsLeftStep(b: bytes, n: nat, rest: bytes, left: nat, done: seq<Entry>)
    requires left > 0 && EntsLeft(b, n, rest, left, done)
    ensures match TakeEnt(rest)
            case None => TakeEnts(b, n) == None
            case Some((p, rest')) => EntsLeft(b, n, rest', left - 1, done + [p])
  {
    if TakeEnt(rest).Some? {
      var (p, rest') := TakeEnt(rest).value;
      if TakeEnts(rest', left - 1).Some? {
        var ps := TakeEnts(rest', left - 1).value;
        assert done + ([p] + ps) == (done + [p]) + ps;
      }
    }
  }

  method DecodeU32ToBytesMap(b: bytes) returns (r: Option<map<U32, bytes>>)
    ensures r == DecodeU32Map(b)
  {
    if |b| == 0 { return Some(map[]); }
    if |b| < 4 { return None; }
    var l := GetU32(b);
    if l > MAX_ENTRIES { return None; }
    var rest := b[4..];
    var result: map<U32, bytes> := map[];
    ghost var done: seq<Entry> := [];
    EntsLeftStart(rest, l);
    for i := 0 to l
      invariant EntsLeft(b[4..], l, rest, l - i, done) && result == Fold(done)
    {
      EntsLeftStep(b[4..], l, rest, l - i, done);
      if |rest| < 4 { return None; }
      var key := GetU32(rest);
      var next := TakeStr(rest[4..]);
      if next.None? { return None; }
      FoldAppend(done, (key, next.value.0));
      done := done + [(key, next.value.0)];
      result := result[key := next.value.0];
      rest := next.value.1;
    }
    assert done + [] == done;
    return Some(result);
  }

  lemma {:induction false} PairAppend(xs: seq<bytes>, k: bytes, v: bytes)
    requires |xs| % 2 == 0
    ensures Pair(xs + [k] + [v]) == Pair(xs) + [(k, v)]
  {
    var ys := xs + [k] + [v];
    if xs == [] {
      assert ys[2..] == [];
    } else {
      assert ys[2..] == xs[2..] + [k] + [v];
      PairAppend(xs[2..], k, v);
    }
  }

  method DecodeStringToStringMap(b: bytes) returns (r: Option<map<bytes, bytes>>)
    ensures r == DecodeStrMap(b)
  {
    if |b| == 0 { return Some(map[]); }
    if |b| < 4 { return None; }
    var l := GetU32(b);
    if l > MAX_ENTRIES { return None; }
    var rest := b[4..];
    var result: map<bytes, bytes> := map[];
    ghost var done: seq<bytes> := [];
    StrsLeftStart(rest, 2 * l);
    for i := 0 to l
      invariant StrsLeft(b[4..], 2 * l, rest, 2 * (l - i), done)
      invariant |done| == 2 * i && result == Fold(Pair(done))
    {
      StrsLeftStep(b[4..], 2 * l, rest, 2 * (l - i), done);
      var key := TakeStr(rest);
      if key.None? { return None; }
      StrsLeftStep(b[4..], 2 * l, key.value.1, 2 * (l - i) - 1, done + [key.value.0]);
      var val := TakeStr(key.value.1);
      if val.None? { return None; }
      PairAppend(done, key.value.0, val.value.0);
      FoldAppend(Pair(done), (key.value.0, val.value.0));
      done := done + [key.value.0] + [val.value.0];
      result := result[key.value.0 := val.value.0];
      rest := val.value.1;
    }
    assert done + [] == done;
    return Some(result);
  }
}
