/** Messages and their V2 wire frames (message.go): marshalling, parsing and the round trip. */
module Frame {
  import opened Wrappers
  import opened MapOrder
  import opened Bytes
  import opened HeaderBlock

  const REPLY_FOR_HEADER: I32 := 1
  const REFLECTED_HEADER: I32 := 128
  const MAGIC_V2: bytes := [0x03, 0x06, 0x09, 0x0c]
  const MAGIC_UNKNOWN: bytes := [0x03, 0x06, 0x09, 0x0a]
  const MAX_VERSIONS: int := 64

  /** `replyFor` is the cached value; None stands for the nil pointer. */
  datatype Message = Message(contentType: I32, sequence: I32, replyFor: Option<I32>, headers: Headers, body: bytes)

  // ---------- ReplyFor ----------

  /** The value the ReplyFor header encodes: -1 unless it is present and four bytes long. */
  function HeaderReplyFor(headers: Headers): I32 {
    if REPLY_FOR_HEADER in headers && |headers[REPLY_FOR_HEADER]| == 4 then GetI32(headers[REPLY_FOR_HEADER]) else -1
  }

  function ReplyFor(m: Message): I32 {
    match m.replyFor
    case Some(v) => v
    case None => HeaderReplyFor(m.headers)
  }

  predicate IsReply(m: Message) {
    ReplyFor(m) != -1
  }

  // ---------- Marshalling ----------

  /** The headers after marshalling: a cached reply-for is written into them, over any earlier value. */
  function WireHeaders(m: Message): Headers {
    match m.replyFor
    case Some(v) => m.headers[REPLY_FOR_HEADER := PutI32(v)]
    case None => m.headers
  }

  function Layout(contentType: I32, sequence: I32, block: bytes, body: bytes): bytes {
    MAGIC_V2 + PutI32(contentType) + PutI32(sequence) + PutU32(Wrap32(|block|)) + PutU32(Wrap32(|body|)) + block + body
  }

  /** `data` is `m` on the wire, with the headers in `block` in some order. */
  ghost predicate MarshalsWith(m: Message, block: bytes, data: bytes) {
    IsBlock(WireHeaders(m), block) && data == Layout(m.contentType, m.sequence, block, m.body)
  }

  /** A message as the sending side holds it: marshalling and reading ReplyFor both change it in place. */
  class MessageObject {
    var contentType: I32
    var sequence: I32
    var replyFor: Option<I32>
    var headers: Headers
    var body: bytes

    function View(): Message
      reads this
    {
      Message(contentType, sequence, replyFor, headers, body)
    }

    /** NewMessage. */
    constructor (contentType: I32, body: bytes)
      ensures View() == Message(contentType, -1, None, map[], body)
    {
      this.contentType, this.body := contentType, body;
      sequence, replyFor, headers := -1, None, map[];
    }

    /** A message as it came off the wire. */
    constructor Of(m: Message)
      ensures View() == m
    {
      contentType, sequence, replyFor, headers, body := m.contentType, m.sequence, m.replyFor, m.headers, m.body;
    }

    /** Reading ReplyFor caches it: later changes to the header no longer show. */
    method ReadReplyFor() returns (v: I32)
      modifies this`replyFor
      ensures v == ReplyFor(old(View())) && View() == old(View()).(replyFor := Some(v))
    {
      if replyFor.None? {
        var val: I32 := -1;
        if REPLY_FOR_HEADER in headers {
          if |headers[REPLY_FOR_HEADER]| == 4 { val := GetI32(headers[REPLY_FOR_HEADER]); }
        }
        replyFor := Some(val);
      }
      v := replyFor.value;
    }

    /** ReplyTo: the reply answers `o`'s sequence and carries its reflected header, nothing else of it. */
    method ReplyTo(o: MessageObject)
      modifies this
      ensures replyFor == Some(old(o.sequence)) && ReplyFor(View()) == old(o.sequence)
      ensures headers == if REFLECTED_HEADER in old(o.headers)
                         then old(headers)[REFLECTED_HEADER := old(o.headers)[REFLECTED_HEADER]] else old(headers)
      ensures contentType == old(contentType) && sequence == old(sequence) && body == old(body)
    {
      replyFor := Some(o.sequence);
      if REFLECTED_HEADER in o.headers {
        headers := headers[REFLECTED_HEADER := o.headers[REFLECTED_HEADER]];
      }
    }

    method MarshalV2() returns (data: bytes)
      modifies this`headers
      ensures headers == WireHeaders(old(View()))
      ensures exists block :: MarshalsWith(old(View()), block, data)
    {
      data := MAGIC_V2 + PutI32(contentType) + PutI32(sequence);
      if replyFor.Some? {
        headers := headers[REPLY_FOR_HEADER := PutU32(ToU32(replyFor.value))];
      }
      var block := MarshalHeaders(headers);
      data := data + PutU32(Wrap32(|block|));
      data := data + PutU32(Wrap32(|body|));
      data := data + block + body;
      assert MarshalsWith(old(View()), block, data);
    }
  }

  // ---------- Parsing ----------

  /** What ReadV2 makes of the bytes in front of it. */
  datatype Parsed =
    | Got(m: Message, consumed: nat)
    | Unsupported(versions: seq<U32>)   // the peer listed the versions it supports
    | BadMagic
    | BadSync                           // a version response that makes no sense
    | Truncated                         // the bytes end too early
    | TooBig
    | BadHeaders

  function GetU32s(b: bytes, n: nat): seq<U32>
    requires |b| >= 4 * n
  {
    if n == 0 then [] else [GetU32(b)] + GetU32s(b[4..], n - 1)
  }

  /** readUnknownVersionResponse on the bytes after its magic. */
  function ParseVersions(b: bytes): Parsed {
    if |b| < 4 then BadSync
    else
      var n := GetU32(b);
      if n > MAX_VERSIONS || |b| < 4 + 4 * n then BadSync else Unsupported(GetU32s(b[4..], n))
  }

  /** unmarshalV2, given the two lengths of the message section and the bytes that follow it. */
  function ParseData(contentType: I32, sequence: I32, h: U32, b: U32, data: bytes): Parsed {
    if h + b > MAX_INT32 then TooBig
    else if |data| < h + b then Truncated
    else
      match ReadHeaders(data[..h])
      case None => BadHeaders
      case Some(headers) => Got(Message(contentType, sequence, None, headers, data[h..h + b]), 20 + h + b)
  }

  /** A frame of which at least the 20-byte message section is there. */
  function ParseSections(s: bytes): Parsed
    requires |s| >= 20
  {
    ParseData(GetI32(s[4..8]), GetI32(s[8..12]), GetU32(s[12..16]), GetU32(s[16..20]), s[20..])
  }

  function ParseFrame(s: bytes): Parsed {
    if |s| < 4 then Truncated
    else if s[..4] == MAGIC_V2 then
      if |s| < 20 then Truncated else ParseSections(s)
    else if s[..4] == MAGIC_UNKNOWN then ParseVersions(s[4..])
    else BadMagic
  }

  /** readHello: as ReadV2, but any other magic is bad and the declared lengths are limited. */
  function ParseHello(s: bytes): Parsed {
    if |s| < 4 then Truncated
    else if s[..4] != MAGIC_V2 then BadMagic
    else if |s| < 20 then Truncated
    else if GetU32(s[12..16]) > 16384 || GetU32(s[16..20]) > 4192 then TooBig
    else ParseSections(s)
  }

  // ---------- Round trip ----------

  /** What the receiver sees of a marshalled message. */
  function Received(m: Message): Message {
    m.(replyFor := None, headers := WireHeaders(m))
  }

  /** The reply-for, and whether the message is a reply at all, survive: cached or not, well-formed or not. */
  lemma ReplyForSurvives(m: Message)
    ensures ReplyFor(Received(m)) == ReplyFor(m) && IsReply(Received(m)) == IsReply(m)
  {
    if m.replyFor.Some? { GetOfPut(ToU32(m.replyFor.value)); }
  }

  /** Marshalling leaves the headers as they were exactly when no reply-for is cached, or the very same one
      is already in them. */
  lemma HeadersSurviveIff(m: Message)
    ensures Received(m).headers == m.headers <==>
              m.replyFor == None
              || (REPLY_FOR_HEADER in m.headers && m.headers[REPLY_FOR_HEADER] == PutI32(m.replyFor.value))
  {
    if m.replyFor.Some? {
      assert Received(m).headers[REPLY_FOR_HEADER] == PutI32(m.replyFor.value);
    }
  }

  /** `s` is a message section with these fields, followed by `rest`. */
  predicate Frames(s: bytes, contentType: I32, sequence: I32, h: U32, b: U32, rest: bytes) {
    && |s| >= 20 && s[..4] == MAGIC_V2 && s[20..] == rest
    && GetI32(s[4..8]) == contentType && GetI32(s[8..12]) == sequence
    && GetU32(s[12..16]) == h && GetU32(s[16..20]) == b
  }

  lemma LayoutFrames(contentType: I32, sequence: I32, block: bytes, body: bytes, tail: bytes)
    requires |block| < TWO_32 && |body| < TWO_32
    ensures var data := Layout(contentType, sequence, block, body);
            |data| == 20 + |block| + |body|
                && Frames(data + tail, contentType, sequence, |block|, |body|, block + body + tail)
  {
    var s := Layout(contentType, sequence, block, body) + tail;
    WrapSmall(|block|);
    WrapSmall(|body|);
    assert s[4..8] == PutI32(contentType) && s[8..12] == PutI32(sequence);
    assert s[12..16] == PutU32(|block|) && s[16..20] == PutU32(|body|);
    GetOfPut(ToU32(contentType));
    GetOfPut(ToU32(sequence));
    GetOfPut(|block|);
    GetOfPut(|body|);
  }

  lemma ReadHeadersOfBlock(headers: Headers, block: bytes)
    requires IsBlock(headers, block) && |block| < TWO_32
    ensures ReadHeaders(block) == Some(headers)
  {
    BlockBoundsValues(headers, block);
    BlockReadsBack(headers, block);
  }

  lemma BlockBoundsValues(headers: Headers, block: bytes)
    requires IsBlock(headers, block) && |block| < TWO_32
    ensures LengthsFit(headers)
  {
    var order :| IsOrder(order, headers) && Flatten(PairsOf(headers, order)) == block;
    forall k | k in headers ensures |headers[k]| < TWO_32 {
      var i :| 0 <= i < |order| && order[i] == k;
      ValueShorter(PairsOf(headers, order), i);
    }
  }

  lemma {:induction false} ValueShorter(rs: seq<Record>, i: nat)
    requires i < |rs|
    ensures |rs[i].1| <= |Flatten(rs)|
  {
    if i > 0 { ValueShorter(rs[1..], i - 1); }
  }

  lemma ParseDataOf(m: Message, block: bytes, tail: bytes)
    requires |block| + |m.body| <= MAX_INT32 && ReadHeaders(block) == Some(m.headers) && m.replyFor == None
    ensures ParseData(m.contentType, m.sequence, |block|, |m.body|, block + m.body + tail)
            == Got(m, 20 + |block| + |m.body|)
  {
    var rest := block + m.body + tail;
    assert rest[..|block|] == block && rest[|block|..|block| + |m.body|] == m.body;
  }

  lemma FrameParses(s: bytes, m: Message, block: bytes, tail: bytes)
    requires |block| < TWO_32 && |m.body| < TWO_32
    requires Frames(s, m.contentType, m.sequence, |block|, |m.body|, block + m.body + tail)
    requires ReadHeaders(block) == Some(m.headers) && m.replyFor == None
    ensures ParseFrame(s) == if |block| + |m.body| <= MAX_INT32 then Got(m, 20 + |block| + |m.body|) else TooBig
  {
    if |block| + |m.body| <= MAX_INT32 { ParseDataOf(m, block, tail); }
  }

  /** A marshalled message followed by anything reads back, consuming exactly its own frame, if and only
      if its headers and body together fit the limit; otherwise it is refused as too big. */
  lemma FrameRoundTrip(m: Message, block: bytes, data: bytes, tail: bytes)
    requires MarshalsWith(m, block, data) && |block| < TWO_32 && |m.body| < TWO_32
    ensures ParseFrame(data + tail) ==
              if |block| + |m.body| <= MAX_INT32 then Got(Received(m), |data|) else TooBig
  {
    ReadHeadersOfBlock(WireHeaders(m), block);
    LayoutFrames(m.contentType, m.sequence, block, m.body, tail);
    FrameParses(data + tail, Received(m), block, tail);
  }

  /** readHello agrees with ReadV2 on every V2 frame within the hello limits, and rejects every larger one. */
  lemma HelloAgreesWithinLimits(s: bytes)
    requires |s| >= 20 && s[..4] == MAGIC_V2
    ensures ParseHello(s) == if GetU32(s[12..16]) <= 16384 && GetU32(s[16..20]) <= 4192 then ParseFrame(s) else TooBig
  {
  }

  lemma HelloRoundTrip(m: Message, block: bytes, data: bytes, tail: bytes)
    requires MarshalsWith(m, block, data) && |block| < TWO_32 && |m.body| < TWO_32
    ensures ParseHello(data + tail) ==
              if |block| <= 16384 && |m.body| <= 4192 then Got(Received(m), |data|) else TooBig
  {
    LayoutFrames(m.contentType, m.sequence, block, m.body, tail);
    FrameRoundTrip(m, block, data, tail);
    HelloAgreesWithinLimits(data + tail);
  }
}
