/** The wire format byte by byte (message.go): where each field of a frame, a header and a collection lies, and which
    bytes are refused for which reason. */
module WireLayout {
  import opened Wrappers
  import opened MapOrder
  import opened Bytes
  import opened HeaderBlock
  import opened Frame
  import opened FrameStream
  import opened Collections

  /** The four bytes at `i`, least significant first. */
  function Le(b: bytes, i: nat): int
    requires i + 4 <= |b|
  {
    var b0: int, b1: int, b2: int, b3: int := b[i], b[i + 1], b[i + 2], b[i + 3];
    b0 + 256 * b1 + 65536 * b2 + 16777216 * b3
  }

  /** The same 32 bits read as a signed number. */
  function Signed(n: int): int {
    if n >= 0x8000_0000 then n - 0x1_0000_0000 else n
  }

  lemma PutIsLittleEndian(v: U32)
    ensures Le(PutU32(v), 0) == v
  {
    GetOfPut(v);
  }

  lemma LeAt(b: bytes, i: nat, v: U32)
    requires i + 4 <= |b| && b[i..i + 4] == PutU32(v)
    ensures Le(b, i) == v && GetU32(b[i..i + 4]) == v
  {
    GetOfPut(v);
    assert b[i..i + 4][0] == b[i] && b[i..i + 4][1] == b[i + 1];
    assert b[i..i + 4][2] == b[i + 2] && b[i..i + 4][3] == b[i + 3];
  }

  lemma LeGets(b: bytes, i: nat)
    requires i + 4 <= |b|
    ensures Le(b, i) == GetU32(b[i..i + 4])
  {
  }

  // ---------- Frames ----------

  /** A frame is the magic 3 6 9 12, content type, sequence, the lengths of headers and body, the headers, the body. */
  lemma FrameIsLaidOut(m: Message, block: bytes, data: bytes)
    requires MarshalsWith(m, block, data) && |block| < 0x1_0000_0000 && |m.body| < 0x1_0000_0000
    ensures |data| == 20 + |block| + |m.body| && data[..4] == [3, 6, 9, 12]
    ensures Signed(Le(data, 4)) == m.contentType && Signed(Le(data, 8)) == m.sequence
    ensures Le(data, 12) == |block| && Le(data, 16) == |m.body|
    ensures data[20..20 + |block|] == block && data[20 + |block|..] == m.body
  {
    WrapSmall(|block|);
    WrapSmall(|m.body|);
    assert data[4..8] == PutI32(m.contentType) && data[8..12] == PutI32(m.sequence);
    assert data[12..16] == PutU32(|block|) && data[16..20] == PutU32(|m.body|);
    LeAt(data, 4, ToU32(m.contentType));
    LeAt(data, 8, ToU32(m.sequence));
    LeAt(data, 12, |block|);
    LeAt(data, 16, |m.body|);
  }

  /** A header is its key, the length of its value, and its value. */
  lemma HeaderIsLaidOut(key: I32, value: bytes)
    requires |value| < 0x1_0000_0000
    ensures var b := RecordBytes((key, value));
            && |b| == 8 + |value| && Signed(Le(b, 0)) == key && Le(b, 4) == |value| && b[8..] == value
  {
    var b := RecordBytes((key, value));
    WrapSmall(|value|);
    assert b[0..4] == PutI32(key) && b[4..8] == PutU32(|value|);
    LeAt(b, 0, ToU32(key));
    LeAt(b, 4, |value|);
  }

  /** On the wire a cached reply-for is header 1, four bytes; every other header is as the message has it. */
  lemma ReplyIsHeaderOne(m: Message, block: bytes, data: bytes)
    requires MarshalsWith(m, block, data) && |block| < 0x1_0000_0000
    ensures var wire := ReadHeaders(block);
            && wire.Some?
            && (forall k | k in m.headers && k != 1 :: k in wire.value && wire.value[k] == m.headers[k])
            && (forall k | k in wire.value && k != 1 :: k in m.headers)
            && match m.replyFor
               case None => wire.value == m.headers
               case Some(v) => 1 in wire.value && |wire.value[1]| == 4 && Signed(Le(wire.value[1], 0)) == v
  {
    ReadHeadersOfBlock(WireHeaders(m), block);
    if m.replyFor.Some? { PutIsLittleEndian(ToU32(m.replyFor.value)); }
  }

  /** What a received message replies to is header 1, if that has exactly four bytes, and otherwise nothing. */
  lemma ReplyForReads(m: Message)
    requires m.replyFor == None
    ensures ReplyFor(m) == if 1 in m.headers && |m.headers[1]| == 4 then Signed(Le(m.headers[1], 0)) else -1
    ensures IsReply(m) <==> 1 in m.headers && |m.headers[1]| == 4 && Signed(Le(m.headers[1], 0)) != -1
  {
  }

  /** Why bytes are refused as a frame, or read as one. */
  lemma FrameVerdict(s: bytes)
    ensures ParseFrame(s).BadMagic? <==> |s| >= 4 && s[..4] != [3, 6, 9, 12] && s[..4] != [3, 6, 9, 10]
    ensures ParseFrame(s).Unsupported? || ParseFrame(s).BadSync? <==> |s| >= 4 && s[..4] == [3, 6, 9, 10]
    ensures |s| < 4 || (s[..4] == [3, 6, 9, 12] && |s| < 20) ==> ParseFrame(s) == Truncated
    ensures |s| >= 20 && s[..4] == [3, 6, 9, 12] ==>
              var h, b := Le(s, 12), Le(s, 16);
              && (ParseFrame(s).TooBig? <==> h + b > 0x7fff_ffff)
              && (ParseFrame(s).Truncated? <==> h + b <= 0x7fff_ffff && |s| < 20 + h + b)
              && (h + b <= 0x7fff_ffff && |s| >= 20 + h + b ==>
                    match ReadHeaders(s[20..20 + h])
                    case None => ParseFrame(s) == BadHeaders
                    case Some(headers) =>
                      && ParseFrame(s).Got? && ParseFrame(s).consumed == 20 + h + b
                      && ParseFrame(s).m.headers == headers && ParseFrame(s).m.body == s[20 + h..20 + h + b]
                      && ParseFrame(s).m.contentType == Signed(Le(s, 4))
                      && ParseFrame(s).m.sequence == Signed(Le(s, 8)))
  {
    if |s| >= 20 && s[..4] == [3, 6, 9, 12] {
      LeGets(s, 4);
      LeGets(s, 8);
      LeGets(s, 12);
      LeGets(s, 16);
      var h, b := Le(s, 12), Le(s, 16);
      if h + b <= 0x7fff_ffff && |s| >= 20 + h + b {
        assert s[20..][..h] == s[20..20 + h] && s[20..][h..h + b] == s[20 + h..20 + h + b];
      }
    }
  }

  /** A frame that is cut short anywhere is seen to be, and never taken for another message. */
  lemma CutFrameIsTruncated(m: Message, block: bytes, data: bytes, n: nat)
    requires MarshalsWith(m, block, data) && |block| + |m.body| <= 0x7fff_ffff && n < |data|
    ensures ParseFrame(data[..n]) == Truncated
  {
    FrameIsLaidOut(m, block, data);
    FrameVerdict(data[..n]);
    if n >= 4 { assert data[..n][..4] == data[..4]; }
    if n >= 20 { assert Le(data[..n], 12) == Le(data, 12) && Le(data[..n], 16) == Le(data, 16); }
  }

  // ---------- Version responses ----------

  function PutU32s(vs: seq<U32>): bytes {
    if vs == [] then [] else PutU32(vs[0]) + PutU32s(vs[1..])
  }

  lemma {:induction false} VersionsOf(vs: seq<U32>, tail: bytes)
    ensures |PutU32s(vs)| == 4 * |vs| && GetU32s(PutU32s(vs) + tail, |vs|) == vs
  {
    if vs != [] {
      VersionsOf(vs[1..], tail);
      assert PutU32s(vs) + tail == PutU32(vs[0]) + (PutU32s(vs[1..]) + tail);
      PutGet(vs[0], PutU32s(vs[1..]) + tail);
      assert vs == [vs[0]] + vs[1..];
    }
  }

  lemma ListedVersions(b: bytes, vs: seq<U32>, tail: bytes)
    requires |vs| < 0x1_0000_0000 && b == PutU32(|vs|) + (PutU32s(vs) + tail)
    ensures ParseVersions(b) == if |vs| <= 64 then Unsupported(vs) else BadSync
  {
    PutGet(|vs|, PutU32s(vs) + tail);
    VersionsOf(vs, tail);
  }

  /** The versions a peer lists, whatever follows them, are read exactly, if there are at most 64 of them. */
  lemma VersionsRoundTrip(s: bytes, vs: seq<U32>, tail: bytes)
    requires |vs| < 0x1_0000_0000 && |s| >= 4
    requires s[..4] == [3, 6, 9, 10] && s[4..] == PutU32(|vs|) + (PutU32s(vs) + tail)
    ensures ParseFrame(s) == if |vs| <= 64 then Unsupported(vs) else BadSync
  {
    ListedVersions(s[4..], vs, tail);
  }

  /** What a listener tells a peer with an unknown magic. */
  lemma VersionResponseBytes()
    ensures VERSION_RESPONSE == [3, 6, 9, 10, 2, 0, 0, 0, 1, 0, 0, 0, 2, 0, 0, 0]
  {
    assert PutU32(2) == [2, 0, 0, 0] && PutU32(1) == [1, 0, 0, 0];
  }

  // ---------- Repeated keys ----------

  /** Of several pairs with one key the last counts, and no key comes from nowhere. */
  lemma {:induction false} LastPairWins<K, V>(ps: seq<(K, V)>, i: nat)
    requires i < |ps| && forall j | i < j < |ps| :: ps[j].0 != ps[i].0
    ensures ps[i].0 in Fold(ps) && Fold(ps)[ps[i].0] == ps[i].1
  {
    var n := |ps| - 1;
    if i < n {
      assert ps[..n][i] == ps[i];
      LastPairWins(ps[..n], i);
    }
  }

  lemma {:induction false} KeysComeFromPairs<K, V>(ps: seq<(K, V)>, k: K) returns (i: nat)
    requires k in Fold(ps)
    ensures i < |ps| && ps[i].0 == k && Fold(ps)[k] == ps[i].1
  {
    var n := |ps| - 1;
    if ps[n].0 == k { return n; }
    i := KeysComeFromPairs(ps[..n], k);
  }

  // ---------- Collections ----------

  /** A string is its length and its bytes; an entry of a uint32 map is its key before that. */
  lemma EntryIsLaidOut(key: U32, value: bytes)
    requires |value| < 0x1_0000_0000
    ensures var s, e := Str(value), Ent((key, value));
            && |s| == 4 + |value| && Le(s, 0) == |value| && s[4..] == value
            && |e| == 4 + |s| && Le(e, 0) == key && e[4..] == s
  {
    WrapSmall(|value|);
    var s, e := Str(value), Ent((key, value));
    assert s[0..4] == PutU32(|value|) && e[0..4] == PutU32(key);
    LeAt(s, 0, |value|);
    LeAt(e, 0, key);
  }

  /** A collection is the number of its entries and the entries; an empty one is no bytes at all. */
  lemma CollectionIsLaidOut(n: nat, items: bytes)
    requires n < 0x1_0000_0000
    ensures n == 0 ==> Counted(n, items) == []
    ensures n > 0 ==> |Counted(n, items)| >= 4 && Le(Counted(n, items), 0) == n && Counted(n, items)[4..] == items
  {
    if n > 0 {
      WrapSmall(n);
      assert Counted(n, items)[0..4] == PutU32(n);
      LeAt(Counted(n, items), 0, n);
    }
  }

  lemma TakenStr(b: bytes)
    requires TakeStr(b).Some?
    ensures var (s, rest) := TakeStr(b).value; |s| <= 8192 && b == Str(s) + rest
  {
    var (s, rest) := TakeStr(b).value;
    GetPut(b);
    WrapSmall(|s|);
    assert b == b[..4] + b[4..4 + |s|] + b[4 + |s|..];
  }

  lemma {:induction false} TakenStrs(b: bytes, n: nat) returns (tail: bytes)
    requires TakeStrs(b, n).Some?
    ensures var xs := TakeStrs(b, n).value;
            |xs| == n && (forall i | 0 <= i < n :: |xs[i]| <= 8192) && b == Strs(xs) + tail
  {
    if n == 0 {
      tail := b;
    } else {
      var (s, rest) := TakeStr(b).value;
      TakenStr(b);
      tail := TakenStrs(rest, n - 1);
      var xs := TakeStrs(rest, n - 1).value;
      assert ([s] + xs)[1..] == xs;
      assert Str(s) + (Strs(xs) + tail) == Strs([s] + xs) + tail;
    }
  }

  lemma SliceReads(b: bytes, xs: seq<bytes>)
    requires b != [] && DecodeSlice(b) == Some(xs)
    ensures |xs| <= 128 && (forall i | 0 <= i < |xs| :: |xs[i]| <= 8192) && PutU32(Wrap32(|xs|)) + Strs(xs) <= b
  {
    var tail := TakenStrs(b[4..], GetU32(b));
    GetPut(b);
    WrapSmall(|xs|);
    assert b == b[..4] + (Strs(xs) + tail);
  }

  lemma SliceIsRead(b: bytes, xs: seq<bytes>, tail: bytes)
    requires |xs| <= 128 && (forall i | 0 <= i < |xs| :: |xs[i]| <= 8192) && b == PutU32(|xs|) + (Strs(xs) + tail)
    ensures DecodeSlice(b) == Some(xs)
  {
    PutGet(|xs|, Strs(xs) + tail);
    TakeStrsOf(xs, tail);
  }

  /** Bytes decode to a slice exactly when they start with its encoding, within the limits; no bytes are no strings. */
  lemma SliceDecodesIff(b: bytes, xs: seq<bytes>)
    requires b != []
    ensures DecodeSlice(b) == Some(xs) <==>
              && |xs| <= 128 && (forall i | 0 <= i < |xs| :: |xs[i]| <= 8192)
              && PutU32(Wrap32(|xs|)) + Strs(xs) <= b
  {
    if DecodeSlice(b) == Some(xs) {
      SliceReads(b, xs);
    } else if |xs| <= 128 && (forall i | 0 <= i < |xs| :: |xs[i]| <= 8192) && PutU32(Wrap32(|xs|)) + Strs(xs) <= b {
      WrapSmall(|xs|);
      var whole := PutU32(|xs|) + Strs(xs);
      assert b == whole + b[|whole|..] == PutU32(|xs|) + (Strs(xs) + b[|whole|..]);
      SliceIsRead(b, xs, b[|whole|..]);
    }
  }

  /** The keys of a string map come before their values. */
  lemma {:induction false} PairsAlternate(ps: seq<(bytes, bytes)>, i: nat)
    requires i < |ps|
    ensures |Alternate(ps)| == 2 * |ps| && Alternate(ps)[2 * i] == ps[i].0 && Alternate(ps)[2 * i + 1] == ps[i].1
  {
    PairAlternate(ps);
    if i > 0 {
      PairsAlternate(ps[1..], i - 1);
      assert Alternate(ps)[2..] == Alternate(ps[1..]);
    }
  }
}
