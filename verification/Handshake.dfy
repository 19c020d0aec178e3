/** The hello exchange that opens an underlay (classic_dialer.go, classic_listener.go, hello_reject.go):
    who chooses the connection id and the group secret, and that both ends end up with the same ones. */
module Handshake {
  import opened Wrappers
  import opened Bytes
  import opened HeaderBlock
  import opened Frame
  import opened FrameStream
  import opened HelloHeaders

  const REJECT_CLASS_HEADER: I32 := 13

  /** One end of a connection. Its headers are those of a message: the two share one map. */
  class Conn {
    const version: U32
    var id: bytes
    var connectionId: bytes
    var source: MessageObject?
    var closed: bool

    constructor (version: U32)
      ensures this.version == version && !closed && source == null && connectionId == []
    {
      this.version := version;
      id, connectionId, source, closed := [], [], null, false;
    }
  }

  function Part(m: Headers, keys: set<I32>): Headers {
    map k | k in m && k in keys :: m[k]
  }

  lemma CopyMore(source: Headers, target: Headers, done: set<I32>, k: I32)
    requires k in source
    ensures (target + Part(source, done))[k := source[k]] == target + Part(source, done + {k})
  {
  }

  method CopyHeaders(source: Headers, target: Headers) returns (r: Headers)
    ensures r == target + source
  {
    r := target;
    var todo := source.Keys;
    ghost var done: set<I32> := {};
    assert Part(source, done) == map[];
    while todo != {}
      invariant todo + done == source.Keys && r == target + Part(source, done)
      decreases |todo|
    {
      var k :| k in todo;
      CopyMore(source, target, done, k);
      todo, done := todo - {k}, done + {k};
      r := r[k := source[k]];
    }
    assert Part(source, done) == source;
  }

  // ---------- What each end decides ----------

  /** The listener keeps the id of a grouped hello and makes one up for any other. */
  function ListenerId(hello: Headers, newId: bytes): bytes {
    if !Flag(hello, IS_GROUPED_HEADER) || Lookup(hello, CONNECTION_ID_HEADER) == [] then newId
    else Lookup(hello, CONNECTION_ID_HEADER)
  }

  /** A grouped hello without a secret is given one. */
  function ListenerHeaders(hello: Headers, newSecret: bytes): Headers {
    if Flag(hello, IS_GROUPED_HEADER) && Lookup(hello, GROUP_SECRET_HEADER) == [] then
      hello[GROUP_SECRET_HEADER := newSecret]
    else
      hello
  }

  datatype ListenerConfig = ListenerConfig(headers: Headers, more: Headers, token: Option<bytes>)

  /** A result message starts from the success flag; the configured headers may override it. */
  function BaseHeaders(cfg: ListenerConfig): Headers {
    map[RESULT_SUCCESS_HEADER := [1]] + cfg.headers + cfg.more
  }

  function Echo(to: Headers, key: I32, value: bytes): Headers {
    if value == [] then to else to[key := value]
  }

  /** The listener's own headers, then its id and name, then what it echoes of the hello. */
  function AnswerHeaders(cfg: ListenerConfig, hello: Headers, connectionId: bytes): Headers {
    var named := BaseHeaders(cfg)[CONNECTION_ID_HEADER := connectionId];
    var signed := if cfg.token.Some? then named[ID_HEADER := cfg.token.value] else named;
    var grouped := if Flag(hello, IS_GROUPED_HEADER) then signed[IS_GROUPED_HEADER := [1]] else signed;
    var typed := Echo(grouped, TYPE_HEADER, Lookup(hello, TYPE_HEADER));
    Echo(typed, GROUP_SECRET_HEADER, Lookup(hello, GROUP_SECRET_HEADER))
  }

  function AckHeaders(cfg: ListenerConfig, hello: Headers, connectionId: bytes): Headers {
    var answer := AnswerHeaders(cfg, hello, connectionId);
    if REFLECTED_HEADER in hello then answer[REFLECTED_HEADER := hello[REFLECTED_HEADER]] else answer
  }

  function AckMessage(cfg: ListenerConfig, hello: Message, connectionId: bytes): Message {
    Message(RESULT_CONTENT, HELLO_SEQUENCE, Some(hello.sequence), AckHeaders(cfg, hello.headers, connectionId), [])
  }

  function RejectMessage(text: bytes, kind: U32): Message {
    var headers: Headers := map[RESULT_SUCCESS_HEADER := [0]];
    Message(RESULT_CONTENT, HELLO_SEQUENCE, Some(HELLO_SEQUENCE),
            if kind == 0 then headers else headers[REJECT_CLASS_HEADER := PutU32(kind)], text)
  }

  datatype DialError =
    | NonRetryable
    | VersionError(versions: seq<U32>)
    | OtherError

  datatype Verdict = Welcome(response: Message) | Refusal(err: DialError)

  /** What the dialer makes of the answer to its hello. */
  function Judge(arrived: Parsed): Verdict {
    match arrived
    case Got(m, _) =>
      if ReplyFor(m) != HELLO_SEQUENCE || m.contentType != RESULT_CONTENT then Refusal(OtherError)
      else if !Flag(m.headers, RESULT_SUCCESS_HEADER) then Refusal(NonRetryable)
      else Welcome(m)
    case Unsupported(versions) => Refusal(VersionError(versions))
    case _ => Refusal(OtherError)
  }

  function DialerId(hello: Headers, response: Headers): bytes {
    if Lookup(hello, CONNECTION_ID_HEADER) != [] then Lookup(hello, CONNECTION_ID_HEADER)
    else Lookup(response, CONNECTION_ID_HEADER)
  }

  function DialerHeaders(hello: Headers, response: Headers): Headers {
    response[TYPE_HEADER := Lookup(hello, TYPE_HEADER)]
  }

  // ---------- Agreement ----------

  /** An acknowledgement by header number: 0 is the connection's id, 8 the listener's token, 9 says grouped, and 7, 10
      and 128 echo the hello's type, secret and reflected header. */
  lemma AckTells(cfg: ListenerConfig, hello: Headers, id: bytes)
    ensures var ack := AckHeaders(cfg, hello, id);
            && 0 in ack && ack[0] == id
            && (cfg.token.Some? ==> 8 in ack && ack[8] == cfg.token.value)
            && (9 in hello && |hello[9]| > 0 && hello[9][0] == 1 ==> 9 in ack && ack[9] == [1])
            && (7 in hello && hello[7] != [] ==> 7 in ack && ack[7] == hello[7])
            && (10 in hello && hello[10] != [] ==> 10 in ack && ack[10] == hello[10])
            && (128 in hello ==> 128 in ack && ack[128] == hello[128])
            && 2 in ack && ack[2] == Success(cfg)
  {
  }

  /** All its other headers are those given for this hello, and the configured ones where there is none of those. */
  lemma AckCarries(cfg: ListenerConfig, hello: Headers, id: bytes, k: I32)
    requires k !in {0, 2, 7, 8, 9, 10, 128}
    ensures var ack := AckHeaders(cfg, hello, id);
            && (k in ack <==> k in cfg.more || k in cfg.headers)
            && (k in ack ==> ack[k] == if k in cfg.more then cfg.more[k] else cfg.headers[k])
  {
  }

  /** What the listener's configuration makes of the success flag. */
  function Success(cfg: ListenerConfig): bytes {
    if 2 in cfg.more then cfg.more[2] else if 2 in cfg.headers then cfg.headers[2] else [1]
  }

  /** An answer is a welcome when it is a result message in reply to the hello with the success flag set; a result
      without that is final; a list of versions is passed on; all else is an error that may be retried. */
  lemma JudgeReads(arrived: Parsed)
    ensures var answers := arrived.Got? && ReplyFor(arrived.m) == -1 && arrived.m.contentType == 2;
            var success := answers && 2 in arrived.m.headers && |arrived.m.headers[2]| > 0
                           && arrived.m.headers[2][0] == 1;
            Judge(arrived) == if success then Welcome(arrived.m)
                              else if answers then Refusal(NonRetryable)
                              else if arrived.Unsupported? then Refusal(VersionError(arrived.versions))
                              else Refusal(OtherError)
  {
  }

  /** The dialer takes an acknowledgement for what it is, unless it is too big to be read or the listener's
      configured headers clear the success flag. */
  lemma AckIsWelcomeIff(cfg: ListenerConfig, hello: Message, id: bytes, block: bytes, data: bytes, tail: bytes)
    requires hello.sequence == HELLO_SEQUENCE
    requires MarshalsWith(AckMessage(cfg, hello, id), block, data) && |block| < TWO_32
    ensures Judge(ParseFrame(data + tail)) ==
              if |block| > MAX_INT32 then Refusal(OtherError)
              else if |Success(cfg)| > 0 && Success(cfg)[0] == 1 then Welcome(Received(AckMessage(cfg, hello, id)))
              else Refusal(NonRetryable)
  {
    var ack := AckMessage(cfg, hello, id);
    FrameRoundTrip(ack, block, data, tail);
    ReplyForSurvives(ack);
    AckTells(cfg, hello.headers, id);
  }

  /** What the listener keeps of a hello: the same message, its headers completed. */
  function Kept(hello: Message, newSecret: bytes): Message {
    hello.(headers := ListenerHeaders(hello.headers, newSecret))
  }

  /** Both ends hold the same type; a grouped connection has the same id and the same non-empty secret at both;
      and the ids agree exactly when the hello was grouped, left the id open, or named the one made up for it. */
  predicate Agree(hello: Headers, response: Headers, newId: bytes, newSecret: bytes) {
    var listenerId, listener := ListenerId(hello, newId), ListenerHeaders(hello, newSecret);
    var dialerId, dialer := DialerId(hello, response), DialerHeaders(hello, response);
    && Lookup(dialer, TYPE_HEADER) == Lookup(listener, TYPE_HEADER)
    && (Flag(hello, IS_GROUPED_HEADER) ==>
          && dialerId == listenerId
          && Lookup(dialer, GROUP_SECRET_HEADER) == Lookup(listener, GROUP_SECRET_HEADER) != [])
    && (dialerId == listenerId <==>
          || Flag(hello, IS_GROUPED_HEADER)
          || Lookup(hello, CONNECTION_ID_HEADER) == []
          || Lookup(hello, CONNECTION_ID_HEADER) == newId)
  }

  lemma AckAgrees(hello: Headers, newId: bytes, newSecret: bytes, cfg: ListenerConfig, response: Headers)
    requires newSecret != []
    requires var ack := AckHeaders(cfg, ListenerHeaders(hello, newSecret), ListenerId(hello, newId));
             forall key: I32 | key != REPLY_FOR_HEADER :: Lookup(response, key) == Lookup(ack, key)
    ensures Agree(hello, response, newId, newSecret)
  {
    var kept, id := ListenerHeaders(hello, newSecret), ListenerId(hello, newId);
    AckTells(cfg, kept, id);
    assert Lookup(response, CONNECTION_ID_HEADER) == id;
    assert Lookup(kept, GROUP_SECRET_HEADER) != [] ==>
        Lookup(response, GROUP_SECRET_HEADER) == Lookup(kept, GROUP_SECRET_HEADER);
  }

  /** The whole exchange, byte by byte.  A hello is read, whatever follows it, if and only if it is within the
      limits; the acknowledgement of it is a welcome if and only if it fits a frame and the listener's configured
      headers leave its success flag set; and after a welcome the two ends agree. */
  lemma HandshakeAgrees(hello: Message, helloBlock: bytes, helloData: bytes, rest: bytes,
                        newId: bytes, newSecret: bytes,
                        cfg: ListenerConfig, ackBlock: bytes, ackData: bytes, tail: bytes)
    requires hello.replyFor == None && hello.sequence == HELLO_SEQUENCE && newSecret != []
    requires MarshalsWith(hello, helloBlock, helloData) && |helloBlock| < TWO_32 && |hello.body| < TWO_32
    requires MarshalsWith(AckMessage(cfg, Kept(hello, newSecret), ListenerId(hello.headers, newId)), ackBlock, ackData)
    requires |ackBlock| < TWO_32
    ensures ParseHello(helloData + rest) ==
              if |helloBlock| <= 16384 && |hello.body| <= 4192 then Got(hello, |helloData|) else TooBig
    ensures Judge(ParseFrame(ackData + tail)).Welcome? <==>
              |ackBlock| <= MAX_INT32 && |Success(cfg)| > 0 && Success(cfg)[0] == 1
    ensures Judge(ParseFrame(ackData + tail)).Welcome? ==>
              Agree(hello.headers, Judge(ParseFrame(ackData + tail)).response.headers, newId, newSecret)
  {
    HelloRoundTrip(hello, helloBlock, helloData, rest);
    var id := ListenerId(hello.headers, newId);
    var ack := AckMessage(cfg, Kept(hello, newSecret), id);
    AckIsWelcomeIff(cfg, Kept(hello, newSecret), id, ackBlock, ackData, tail);
    WelcomeShows(ack);
    AckAgrees(hello.headers, newId, newSecret, cfg, Received(ack).headers);
  }

  /** An ungrouped dial that names an id of its own keeps it, while the listener goes by the one it made up. */
  lemma UngroupedIdsMayDiffer(response: Headers)
    ensures var hello: Headers := map[CONNECTION_ID_HEADER := [1]];
            DialerId(hello, response) == [1] && ListenerId(hello, [2]) == [2]
  {
  }

  /** Marshalling touches none of the headers the dialer reads. */
  lemma WelcomeShows(m: Message)
    ensures forall key: I32 | key != REPLY_FOR_HEADER :: Lookup(Received(m).headers, key) == Lookup(m.headers, key)
  {
  }

  /** A refusal always reads as a final one: the dialer does not dial again. */
  lemma RejectionIsFinal(text: bytes, kind: U32, block: bytes, data: bytes, tail: bytes)
    requires MarshalsWith(RejectMessage(text, kind), block, data) && |block| + |text| <= MAX_INT32
    ensures Judge(ParseFrame(data + tail)) == Refusal(NonRetryable)
  {
    var m := RejectMessage(text, kind);
    FrameRoundTrip(m, block, data, tail);
    ReplyForSurvives(m);
    WelcomeShows(m);
  }

  /** The dialer can read why: the reason is the body, and header 13 is its class in four bytes, unless that is 0. */
  lemma RejectionTellsWhy(text: bytes, kind: U32, block: bytes, data: bytes, tail: bytes)
    requires MarshalsWith(RejectMessage(text, kind), block, data) && |block| + |text| <= MAX_INT32
    ensures var r := ParseFrame(data + tail);
            && r.Got? && r.m.contentType == 2 && ReplyFor(r.m) == -1 && r.m.body == text
            && 2 in r.m.headers && r.m.headers[2] == [0]
            && (if kind == 0 then 13 !in r.m.headers
                else 13 in r.m.headers && |r.m.headers[13]| == 4 && GetU32(r.m.headers[13]) == kind)
  {
    var m := RejectMessage(text, kind);
    FrameRoundTrip(m, block, data, tail);
    ReplyForSurvives(m);
    GetOfPut(kind);
  }

  // ---------- The listener ----------

  /** acceptConnection up to the acceptor: the connection is closed, or it carries the chosen id and shares
      its headers, completed, with the request that is acknowledged later.  A peer that speaks another version is
      told which ones are spoken here. */
  method AcceptConnection(conn: Conn, deadlineSet: bool, arrived: Parsed, vetoed: bool, newId: bytes, newSecret: bytes)
    returns (request: MessageObject?, told: Option<bytes>)
    requires !conn.closed
    modifies conn
    ensures request != null <==> deadlineSet && arrived.Got? && arrived.m.contentType == HELLO_CONTENT && !vetoed
    ensures told == if deadlineSet && arrived.BadMagic? then Some(VERSION_RESPONSE) else None
    ensures conn.closed <==> request == null
    ensures request != null ==>
              && fresh(request) && conn.source == request
              && request.View() == arrived.m.(headers := ListenerHeaders(arrived.m.headers, newSecret))
              && conn.id == arrived.m.body && conn.connectionId == ListenerId(arrived.m.headers, newId)
    ensures request != null ==>
              var hello := arrived.m.headers;
              var grouped := 9 in hello && |hello[9]| > 0 && hello[9][0] == 1;
              && conn.connectionId == (if grouped && 0 in hello && hello[0] != [] then hello[0] else newId)
              && request.headers ==
                   (if grouped && (10 in hello ==> hello[10] == []) then hello[10 := newSecret] else hello)
  {
    request, told := null, None;
    if !deadlineSet {
      conn.closed := true;
      return;
    }
    if !arrived.Got? {
      if arrived.BadMagic? { told := Some(VERSION_RESPONSE); }
      conn.closed := true;
      return;
    }
    if arrived.m.contentType != HELLO_CONTENT || vetoed {
      conn.closed := true;
      return;
    }
    request := new MessageObject.Of(arrived.m);
    var connectionId := Lookup(request.headers, CONNECTION_ID_HEADER);
    var isGrouped := Flag(request.headers, IS_GROUPED_HEADER);
    if !isGrouped || connectionId == [] { connectionId := newId; }
    if isGrouped && Lookup(request.headers, GROUP_SECRET_HEADER) == [] {
      request.headers := request.headers[GROUP_SECRET_HEADER := newSecret];
    }
    conn.id, conn.connectionId, conn.source := request.body, connectionId, request;
  }

  method FillAnswer(cfg: ListenerConfig, hello: Headers, connectionId: bytes) returns (headers: Headers)
    ensures headers == AnswerHeaders(cfg, hello, connectionId)
  {
    headers := map[RESULT_SUCCESS_HEADER := [1]];
    headers := CopyHeaders(cfg.headers, headers);
    headers := CopyHeaders(cfg.more, headers);
    headers := headers[CONNECTION_ID_HEADER := connectionId];
    if cfg.token.Some? { headers := headers[ID_HEADER := cfg.token.value]; }
    if Flag(hello, IS_GROUPED_HEADER) { headers := headers[IS_GROUPED_HEADER := [1]]; }
    if Lookup(hello, TYPE_HEADER) != [] { headers := headers[TYPE_HEADER := Lookup(hello, TYPE_HEADER)]; }
    if Lookup(hello, GROUP_SECRET_HEADER) != [] {
      headers := headers[GROUP_SECRET_HEADER := Lookup(hello, GROUP_SECRET_HEADER)];
    }
  }

  method AckHello(conn: Conn, request: MessageObject, cfg: ListenerConfig) returns (data: bytes)
    ensures exists block :: MarshalsWith(AckMessage(cfg, request.View(), conn.connectionId), block, data)
  {
    var response := new MessageObject(RESULT_CONTENT, []);
    response.headers := FillAnswer(cfg, request.headers, conn.connectionId);
    response.sequence := HELLO_SEQUENCE;
    response.ReplyTo(request);
    ghost var ack := response.View();
    data := response.MarshalV2();
    assert ack == AckMessage(cfg, request.View(), conn.connectionId);
    assert request.View() == old(request.View());
    ghost var block :| MarshalsWith(ack, block, data);
    assert MarshalsWith(AckMessage(cfg, request.View(), conn.connectionId), block, data);
  }

  /** RejectHello: the reason is sent, and the connection is closed whether or not that worked. */
  method RejectHello(conn: Conn, text: bytes, kind: U32) returns (data: bytes)
    modifies conn
    ensures conn.closed && exists block :: MarshalsWith(RejectMessage(text, kind), block, data)
  {
    var response := new MessageObject(RESULT_CONTENT, text);
    response.headers := response.headers[RESULT_SUCCESS_HEADER := [0]];
    if kind != 0 {
      response.headers := response.headers[REJECT_CLASS_HEADER := PutU32(kind)];
    }
    response.sequence := HELLO_SEQUENCE;
    response.replyFor := Some(HELLO_SEQUENCE);
    assert response.View() == RejectMessage(text, kind);
    data := response.MarshalV2();
    conn.closed := true;
  }
}
