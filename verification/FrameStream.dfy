/** Reading frames from a byte stream that delivers its bytes in chunks of any size (message.go). */
module FrameStream {
  import opened Wrappers
  import opened Bytes
  import opened HeaderBlock
  import opened Frame

  /** An io.Reader: each Read hands over some of what is left, as much or as little as it likes. */
  class ByteStream {
    var rest: bytes

    constructor (data: bytes)
      ensures rest == data
    {
      rest := data;
    }

    method Read(max: nat) returns (chunk: bytes)
      requires max > 0
      modifies this
      ensures chunk + rest == old(rest) && |chunk| <= max
      ensures chunk == [] <==> old(rest) == []
    {
      if rest == [] { return []; }
      var k :| 1 <= k <= max && k <= |rest|;
      chunk := rest[..k];
      rest := rest[k..];
    }

    /** io.ReadAtLeast into a buffer of size `max`. */
    method ReadAtLeast(max: nat, min: nat) returns (got: bytes)
      requires min <= max
      modifies this
      ensures got + rest == old(rest) && |got| <= max
      ensures |got| >= min || (rest == [] && |old(rest)| < min)
    {
      got := [];
      while |got| < min
        invariant got + rest == old(rest) && |got| <= max
        decreases |rest|
      {
        var chunk := Read(max - |got|);
        if chunk == [] { return; }
        got := got + chunk;
      }
    }

    /** io.ReadFull: exactly `n` bytes, or nothing worth having. */
    method ReadFull(n: nat) returns (r: Option<bytes>)
      modifies this
      ensures r.Some? <==> |old(rest)| >= n
      ensures r.Some? ==> r.value == old(rest)[..n] && rest == old(rest)[n..]
    {
      var got := ReadAtLeast(n, n);
      if |got| < n { return None; }
      return Some(got);
    }
  }

  /** io.ReadFull on io.MultiReader(initial, stream). */
  method ReadFullAfter(initial: bytes, stream: ByteStream, n: nat) returns (r: Option<bytes>, left: bytes)
    modifies stream
    ensures r.Some? <==> |initial + old(stream.rest)| >= n
    ensures r.Some? ==>
              && r.value == (initial + old(stream.rest))[..n]
              && left + stream.rest == (initial + old(stream.rest))[n..]
  {
    if n <= |initial| {
      r, left := Some(initial[..n]), initial[n..];
    } else {
      r := stream.ReadFull(n - |initial|);
      left := [];
      if r.Some? { r := Some(initial + r.value); }
    }
  }

  method ReadUnknownVersionResponse(initial: bytes, stream: ByteStream) returns (r: Parsed)
    modifies stream
    ensures r == ParseVersions(initial + old(stream.rest))
  {
    ghost var all := initial + stream.rest;
    var count, left := ReadFullAfter(initial, stream, 4);
    if count.None? { return BadSync; }
    assert GetU32(count.value) == GetU32(all);
    var n := GetU32(count.value);
    if n > MAX_VERSIONS { return BadSync; }
    var buf, _ := ReadFullAfter(left, stream, 4 * n);
    if buf.None? { return BadSync; }
    var versionsBuf := buf.value;
    var supported: seq<U32> := [];
    assert versionsBuf == all[4..][..4 * n];
    VersionsPrefix(all[4..], n, versionsBuf);
    ghost var i := 0;
    while |versionsBuf| > 0
      invariant 0 <= i <= n && |versionsBuf| == 4 * (n - i)
      invariant supported + GetU32s(versionsBuf, n - i) == GetU32s(all[4..], n)
      decreases |versionsBuf|
    {
      supported := supported + [GetU32(versionsBuf)];
      versionsBuf := versionsBuf[4..];
      i := i + 1;
    }
    return Unsupported(supported);
  }

  lemma {:induction false} VersionsPrefix(b: bytes, n: nat, p: bytes)
    requires |b| >= 4 * n && p == b[..4 * n]
    ensures GetU32s(p, n) == GetU32s(b, n)
  {
    if n > 0 {
      assert p[4..] == b[4..][..4 * (n - 1)];
      VersionsPrefix(b[4..], n - 1, p[4..]);
    }
  }

  /** unmarshalV2. */
  method UnmarshalV2(stream: ByteStream, section: bytes) returns (r: Parsed)
    requires |section| == 20 && section[..4] == MAGIC_V2
    modifies stream
    ensures r == ParseSections(section + old(stream.rest))
    ensures r.Got? ==> stream.rest == (section + old(stream.rest))[r.consumed..]
  {
    ghost var s := section + stream.rest;
    assert s[4..8] == section[4..8] && s[8..12] == section[8..12] && s[12..16] == section[12..16]
           && s[16..20] == section[16..20];
    assert s[20..] == stream.rest;
    var h, b := GetU32(section[12..16]), GetU32(section[16..20]);
    if h + b > MAX_INT32 { return TooBig; }
    ghost var rest := stream.rest;
    var data := stream.ReadFull(h + b);
    if data.None? { return Truncated; }
    assert data.value[..h] == rest[..h] && data.value[h..] == rest[h..h + b];
    var headers := if h > 0 then None else Some(map[]);
    if h > 0 { headers := UnmarshalHeaders(data.value[..h]); }
    if headers.None? { return BadHeaders; }
    assert rest[..h] == [] ==> ReadHeaders(rest[..h]) == Some(map[]);
    r := Got(Message(GetI32(section[4..8]), GetI32(section[8..12]), None, headers.value, data.value[h..]), 20 + h + b);
    assert s[20 + h + b..] == rest[h + b..];
  }

  /** ReadV2.  However the stream is chunked, whether a frame is accepted, the message it yields, the bytes
      it consumes and the reason it is refused are those of ParseFrame on the bytes alone. */
  method ReadV2(stream: ByteStream) returns (r: Parsed)
    modifies stream
    ensures r == ParseFrame(old(stream.rest))
    ensures r.Got? ==> stream.rest == old(stream.rest)[r.consumed..]
  {
    ghost var s := stream.rest;
    var section := stream.ReadAtLeast(20, 4);
    if |section| < 4 { return Truncated; }
    assert s[..4] == section[..4];
    if section[..4] != MAGIC_V2 {
      if section[..4] == MAGIC_UNKNOWN {
        assert s[4..] == section[4..] + stream.rest;
        r := ReadUnknownVersionResponse(section[4..], stream);
        return;
      }
      return BadMagic;
    }
    if |section| < 20 {
      var more := stream.ReadFull(20 - |section|);
      if more.None? { return Truncated; }
      section := section + more.value;
    }
    assert section + stream.rest == s;
    assert section[..4] == MAGIC_V2;
    r := UnmarshalV2(stream, section);
  }

  /** readHello. */
  method ReadHello(stream: ByteStream) returns (r: Parsed)
    modifies stream
    ensures r == ParseHello(old(stream.rest))
    ensures r.Got? ==> stream.rest == old(stream.rest)[r.consumed..]
  {
    ghost var s := stream.rest;
    var version := stream.ReadFull(4);
    if version.None? { return Truncated; }
    if version.value != MAGIC_V2 { return BadMagic; }
    var more := stream.ReadFull(16);
    if more.None? { return Truncated; }
    var section := MAGIC_V2 + more.value;
    assert section + stream.rest == s;
    assert s[12..16] == section[12..16] && s[16..20] == section[16..20];
    if GetU32(section[12..16]) > 16384 || GetU32(section[16..20]) > 4192 { return TooBig; }
    r := UnmarshalV2(stream, section);
  }

  // ---------- Whole streams ----------

  /** A message with the header block and the frame it was marshalled to. */
  datatype Sent = Sent(m: Message, block: bytes, data: bytes)

  ghost predicate Fits(x: Sent) {
    MarshalsWith(x.m, x.block, x.data) && |x.block| + |x.m.body| <= MAX_INT32
  }

  ghost predicate AllFit(xs: seq<Sent>) {
    forall x | x in xs :: Fits(x)
  }

  function Wire(xs: seq<Sent>): bytes {
    if xs == [] then [] else xs[0].data + Wire(xs[1..])
  }

  lemma NextFrame(xs: seq<Sent>, i: nat, tail: bytes)
    requires i < |xs| && AllFit(xs)
    ensures ReplyFor(Received(xs[i].m)) == ReplyFor(xs[i].m)
    ensures var s := Wire(xs[i..]) + tail;
            && ParseFrame(s) == Got(Received(xs[i].m), |xs[i].data|)
            && |s| >= |xs[i].data| && s[|xs[i].data|..] == Wire(xs[i + 1..]) + tail
  {
    var after := Wire(xs[i + 1..]) + tail;
    assert xs[i..][1..] == xs[i + 1..];
    assert Wire(xs[i..]) + tail == xs[i].data + after;
    assert xs[i] in xs;
    FrameRoundTrip(xs[i].m, xs[i].block, xs[i].data, after);
    ReplyForSurvives(xs[i].m);
  }

  /** Any messages, with their headers in any order, written one after the other and delivered in any
      chunks, are read back one by one, complete and in order, and nothing after them is touched. */
  method ReadMessages(stream: ByteStream, ghost xs: seq<Sent>, ghost tail: bytes, n: nat) returns (ms: seq<Message>)
    requires n == |xs| && AllFit(xs) && stream.rest == Wire(xs) + tail
    modifies stream
    ensures |ms| == n && stream.rest == tail
    ensures forall i | 0 <= i < n :: ms[i] == Received(xs[i].m) && ReplyFor(ms[i]) == ReplyFor(xs[i].m)
  {
    ms := [];
    assert xs[0..] == xs;
    for i := 0 to n
      invariant |ms| == i && stream.rest == Wire(xs[i..]) + tail
      invariant forall j | 0 <= j < i :: ms[j] == Received(xs[j].m) && ReplyFor(ms[j]) == ReplyFor(xs[j].m)
    {
      NextFrame(xs, i, tail);
      var r := ReadV2(stream);
      ms := ms + [r.m];
    }
  }

  // ---------- Version negotiation ----------

  /** getRetryVersionFor: the first local version the peer also supports, or the default. */
  method GetRetryVersionFor(err: Parsed, default: U32, local: seq<U32>) returns (version: U32, ok: bool)
    ensures ok <==> err.Unsupported? && exists v :: v in local && v in err.versions
    ensures !ok ==> version == default
    ensures ok ==> exists i :: 0 <= i < |local| && local[i] == version && version in err.versions
                               && forall j | 0 <= j < i :: local[j] !in err.versions
  {
    if err.Unsupported? && |err.versions| > 0 {
      for i := 0 to |local|
        invariant forall j | 0 <= j < i :: local[j] !in err.versions
      {
        for k := 0 to |err.versions|
          invariant local[i] !in err.versions[..k]
        {
          if err.versions[k] == local[i] {
            assert local[i] in local && local[i] in err.versions;
            return local[i], true;
          }
          assert err.versions[..k + 1] == err.versions[..k] + [err.versions[k]];
        }
        assert err.versions[..|err.versions|] == err.versions;
      }
    }
    return default, false;
  }

  /** What WriteUnknownVersionResponse sends: two versions, one and two. */
  const VERSION_RESPONSE: bytes := MAGIC_UNKNOWN + PutU32(2) + PutU32(1) + PutU32(2)

  /** A peer that answers an unknown magic this way is understood to speak versions 1 and 2. */
  lemma VersionResponseIsUnderstood(tail: bytes)
    ensures ParseFrame(VERSION_RESPONSE + tail) == Unsupported([1, 2])
  {
    var s := VERSION_RESPONSE + tail;
    assert s[..4] == MAGIC_UNKNOWN && s[4..] == [2, 0, 0, 0, 1, 0, 0, 0, 2, 0, 0, 0] + tail;
    var b := s[4..][4..];
    assert GetU32s(b, 2) == [GetU32(b)] + GetU32s(b[4..], 1);
    assert GetU32s(b[4..], 1) == [GetU32(b[4..])] + GetU32s(b[4..][4..], 0);
  }
}
