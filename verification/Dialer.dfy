/** The dialing side (classic_dialer.go): the hello, and the loop that may renegotiate the version once. */
module Dialer {
  import opened Wrappers
  import opened Bytes
  import opened HeaderBlock
  import opened Frame
  import opened FrameStream
  import opened HelloHeaders
  import opened Handshake
  import opened BackoffPolicy

  datatype DialerConfig = DialerConfig(token: bytes, headers: Headers)

  /** The hook that may rewrite the hello's headers, or refuse the peer. */
  datatype Provider = NoProvider | Refuses | Rewrites(headers: Headers)

  /** What one pass through the dial loop meets. */
  datatype Attempt = Attempt(
    inTime: bool,                // the deadline has not passed
    connects: bool,
    deadlineSet: bool,
    provider: Provider,
    sent: bool,                  // the hello could be written
    arrived: Parsed,             // what was read in answer
    commonName: Option<bytes>)   // of the peer's certificate

  /** The headers of the hello: configured ones, overridden by the caller's, as the provider leaves them. */
  function HelloHeadersOf(cfg: DialerConfig, headers: Headers, provider: Provider): Headers {
    match provider
    case Rewrites(h) => h
    case _ => cfg.headers + headers
  }

  function HelloMessage(cfg: DialerConfig, headers: Headers, provider: Provider): Message {
    Message(HELLO_CONTENT, HELLO_SEQUENCE, None, HelloHeadersOf(cfg, headers, provider), cfg.token)
  }

  /** How the hello exchange ends; None when it succeeds. */
  function HelloError(a: Attempt): Option<DialError> {
    if !a.deadlineSet then Some(OtherError)
    else if a.provider.Refuses? then Some(NonRetryable)
    else if !a.sent then Some(OtherError)
    else
      match Judge(a.arrived)
      case Welcome(_) => None
      case Refusal(err) => Some(err)
  }

  /** The dialer's end after a welcome. */
  ghost predicate Opened(conn: Conn, hello: Headers, response: Headers, commonName: Option<bytes>)
    reads conn, conn.source
  {
    && conn.id == (if ID_HEADER in response then response[ID_HEADER]
                   else if commonName.Some? then commonName.value else [])
    && conn.connectionId == DialerId(hello, response)
    && conn.source != null && conn.source.headers == DialerHeaders(hello, response)
  }

  method BuildHello(cfg: DialerConfig, headers: Headers, provider: Provider) returns (request: MessageObject)
    requires !provider.Refuses?
    ensures fresh(request) && request.View() == HelloMessage(cfg, headers, provider)
    ensures request.contentType == 0 && request.sequence == -1 && request.replyFor == None && request.body == cfg.token
    ensures provider.NoProvider? ==>
              forall k: I32 ::
                && (k in request.headers <==> k in headers || k in cfg.headers)
                && (k in headers ==> request.headers[k] == headers[k])
                && (k !in headers && k in cfg.headers ==> request.headers[k] == cfg.headers[k])
    ensures provider.Rewrites? ==> request.headers == provider.headers
  {
    request := new MessageObject(HELLO_CONTENT, cfg.token);
    request.headers := CopyHeaders(cfg.headers, request.headers);
    request.headers := CopyHeaders(headers, request.headers);
    assert request.headers == cfg.headers + headers;
    if provider.Rewrites? { request.headers := provider.headers; }
    request.sequence := HELLO_SEQUENCE;
  }

  /** The answer to the hello opens the connection or ends the attempt. */
  method TakeAnswer(conn: Conn, hello: Headers, a: Attempt) returns (err: Option<DialError>)
    modifies conn
    ensures conn.closed == old(conn.closed)
    ensures match Judge(a.arrived)
            case Welcome(response) =>
              err == None && Opened(conn, hello, response.headers, a.commonName) && fresh(conn.source)
            case Refusal(e) => err == Some(e)
  {
    if a.arrived.Unsupported? { return Some(VersionError(a.arrived.versions)); }
    if !a.arrived.Got? { return Some(OtherError); }
    var response := new MessageObject.Of(a.arrived.m);
    var replyFor := response.ReadReplyFor();
    if replyFor != HELLO_SEQUENCE || response.contentType != RESULT_CONTENT { return Some(OtherError); }
    if !Flag(response.headers, RESULT_SUCCESS_HEADER) { return Some(NonRetryable); }
    var connectionId := Lookup(hello, CONNECTION_ID_HEADER);
    if connectionId == [] { connectionId := Lookup(response.headers, CONNECTION_ID_HEADER); }
    var id: bytes := [];
    if ID_HEADER in response.headers {
      id := response.headers[ID_HEADER];
    } else if a.commonName.Some? {
      id := a.commonName.value;
    }
    response.headers := response.headers[TYPE_HEADER := Lookup(hello, TYPE_HEADER)];
    conn.id, conn.connectionId, conn.source := id, connectionId, response;
    return None;
  }

  /** sendHello: the connection is open afterwards if and only if the exchange succeeded; every failure
      closes it. What was written, if anything, is the hello. */
  method SendHello(conn: Conn, cfg: DialerConfig, headers: Headers, a: Attempt)
      returns (err: Option<DialError>, data: bytes)
    requires !conn.closed
    modifies conn
    ensures err == HelloError(a) && (conn.closed <==> err.Some?)
    ensures err.None? <==> a.deadlineSet && !a.provider.Refuses? && a.sent && Judge(a.arrived).Welcome?
    ensures a.deadlineSet && !a.provider.Refuses? ==>
              exists block :: MarshalsWith(HelloMessage(cfg, headers, a.provider), block, data)
    ensures err.None? ==>
              Opened(conn, HelloHeadersOf(cfg, headers, a.provider), Judge(a.arrived).response.headers, a.commonName)
  {
    data := [];
    if !a.deadlineSet {
      err := Some(OtherError);
    } else if a.provider.Refuses? {
      err := Some(NonRetryable);
    } else {
      var request := BuildHello(cfg, headers, a.provider);
      ghost var hello := request.View();
      data := request.MarshalV2();
      assert exists block :: MarshalsWith(hello, block, data);
      err := Some(OtherError);
      if a.sent { err := TakeAnswer(conn, request.headers, a); }
    }
    if err.Some? { conn.closed := true; }
  }

  // ---------- The dial loop ----------

  predicate Reached(a: Attempt) {
    a.inTime && a.connects
  }

  /** The peer named a version this side speaks too: the one reason to dial again. */
  predicate Negotiable(a: Attempt) {
    match HelloError(a)
    case Some(VersionError(versions)) => 2 in versions
    case _ => false
  }

  /** Whether the first attempt, or the second where there is one, succeeds. */
  predicate Succeeds(world: nat -> Attempt) {
    && Reached(world(0))
    && (HelloError(world(0)).None? || (Negotiable(world(0)) && Reached(world(1)) && HelloError(world(1)).None?))
  }

  method RetryVersion(err: DialError) returns (version: U32, ok: bool)
    ensures ok <==> err.VersionError? && 2 in err.versions
    ensures version == 2
  {
    if !err.VersionError? { return 2, false; }
    version, ok := GetRetryVersionFor(Unsupported(err.versions), 2, [2]);
  }

  /** The hello went out, so the answer decides. */
  predicate Asked(a: Attempt) {
    a.inTime && a.connects && a.deadlineSet && !a.provider.Refuses? && a.sent
  }

  /** CreateWithHeaders: at most two connections are made, the second only after an answer that leaves a
      version to agree on; whatever is not returned is closed, and an open one is returned exactly when an
      attempt succeeded. */
  method CreateWithHeaders(cfg: DialerConfig, headers: Headers, world: nat -> Attempt)
      returns (r: Conn?, made: seq<Conn>)
    ensures |made| <= 2 && (forall c | c in made :: fresh(c) && c.version == 2)
    ensures |made| == 2 <==>
              && Asked(world(0)) && world(0).arrived.Unsupported? && 2 in world(0).arrived.versions
              && world(1).inTime && world(1).connects
    ensures |made| == 2 ==> made[0] != made[1]
    ensures r != null <==>
              || (Asked(world(0)) && Judge(world(0).arrived).Welcome?)
              || (|made| == 2 && Asked(world(1)) && Judge(world(1).arrived).Welcome?)
    ensures forall c | c in made && c != r :: c.closed
    ensures r != null <==> Succeeds(world)
    ensures r != null ==> |made| > 0 && r == made[|made| - 1] && !r.closed
    ensures r != null ==>
              var a := world(|made| - 1);
              HelloError(a).None? && Opened(r, HelloHeadersOf(cfg, headers, a.provider),
                  Judge(a.arrived).response.headers, a.commonName)
  {
    var version: U32 := 2;
    var tryCount := 0;
    r, made := null, [];
    while world(tryCount).inTime
      invariant r == null && version == 2 && tryCount == |made| <= 1
      invariant forall c | c in made :: fresh(c) && c.version == 2 && c.closed
      invariant tryCount == 1 ==> Reached(world(0)) && Negotiable(world(0))
      decreases 2 - tryCount
    {
      var a := world(tryCount);
      if !a.connects { return; }
      var conn := new Conn(version);
      made := made + [conn];
      var err, data := SendHello(conn, cfg, headers, a);
      if err.Some? {
        if tryCount > 0 || err.value == NonRetryable { return; }
        var retryVersion, ok := RetryVersion(err.value);
        if !ok { return; }
        tryCount := tryCount + 1;
        version := retryVersion;
        continue;
      }
      return conn, made;
    }
  }

  // ---------- A dial of the backoff policy, end to end ----------

  /** The provider, if there is one, leaves the headers of the group as the policy set them. */
  predicate Respects(provider: Provider, policy: Headers) {
    match provider
    case NoProvider => true
    case Refuses => false
    case Rewrites(h) =>
      && Lookup(h, IS_GROUPED_HEADER) == [1]
      && Lookup(h, CONNECTION_ID_HEADER) == Lookup(policy, CONNECTION_ID_HEADER)
      && Lookup(h, GROUP_SECRET_HEADER) == Lookup(policy, GROUP_SECRET_HEADER)
      && Lookup(h, TYPE_HEADER) == Lookup(policy, TYPE_HEADER)
  }

  lemma PolicyHello(cfg: DialerConfig, kind: bytes, id: bytes, secret: bytes, isFirst: bool, provider: Provider)
    requires Respects(provider, DialHeaders(kind, id, secret, isFirst))
    ensures var hello := HelloHeadersOf(cfg, DialHeaders(kind, id, secret, isFirst), provider);
            && Lookup(hello, 9) == [1]
            && Lookup(hello, 0) == id
            && Lookup(hello, 10) == secret
            && Lookup(hello, 7) == kind
            && (isFirst && provider.NoProvider? ==> 11 in hello && hello[11] == [1])
            && (!isFirst && provider.NoProvider? ==> (11 in hello <==> 11 in cfg.headers))
  {
  }

  function OrElse(x: bytes, y: bytes): bytes { if x != [] then x else y }

  /** Both ends hold the policy's id, secret and type, and what it leaves open the listener supplies to both. */
  predicate HoldPolicy(kind: bytes, id: bytes, secret: bytes, sent: Headers, response: Headers,
                       newId: bytes, newSecret: bytes) {
    && DialerId(sent, response) == ListenerId(sent, newId) == OrElse(id, newId)
    && Lookup(DialerHeaders(sent, response), GROUP_SECRET_HEADER)
         == Lookup(ListenerHeaders(sent, newSecret), GROUP_SECRET_HEADER) == OrElse(secret, newSecret)
    && Lookup(DialerHeaders(sent, response), TYPE_HEADER)
         == Lookup(ListenerHeaders(sent, newSecret), TYPE_HEADER) == kind
  }

  /** A dial of the policy, with any provider of hello headers, that ends in a welcome.  Where the hello is still
      grouped, both ends hold the same id and the same non-empty secret.  Where the provider leaves the policy's
      headers alone, they are the policy's for that dial, whatever headers either side is configured with. */
  lemma PolicyDialAgrees(dialer: DialerConfig, kind: bytes, id: bytes, secret: bytes, isFirst: bool, provider: Provider,
                         helloBlock: bytes, helloData: bytes, rest: bytes, newId: bytes, newSecret: bytes,
                         listener: ListenerConfig, ackBlock: bytes, ackData: bytes, tail: bytes)
    requires !provider.Refuses? && newSecret != []
    requires |dialer.token| < TWO_32 && |helloBlock| < TWO_32 && |ackBlock| < TWO_32
    requires MarshalsWith(HelloMessage(dialer, DialHeaders(kind, id, secret, isFirst), provider), helloBlock, helloData)
    requires var hello := HelloMessage(dialer, DialHeaders(kind, id, secret, isFirst), provider);
             MarshalsWith(AckMessage(listener, Kept(hello, newSecret), ListenerId(hello.headers, newId)),
                          ackBlock, ackData)
    ensures Judge(ParseFrame(ackData + tail)).Welcome? ==>
            var policy := DialHeaders(kind, id, secret, isFirst);
            var sent := HelloHeadersOf(dialer, policy, provider);
            var response := Judge(ParseFrame(ackData + tail)).response.headers;
            && Agree(sent, response, newId, newSecret)
            && (Respects(provider, policy) ==> HoldPolicy(kind, id, secret, sent, response, newId, newSecret))
  {
    var policy := DialHeaders(kind, id, secret, isFirst);
    var hello := HelloMessage(dialer, policy, provider);
    HandshakeAgrees(hello, helloBlock, helloData, rest, newId, newSecret, listener, ackBlock, ackData, tail);
    if Respects(provider, policy) { PolicyHello(dialer, kind, id, secret, isFirst, provider); }
  }
}
