/** The backoff dial policy (dial_policy.go): failure accounting, group connection ids and the dial itself. */
module BackoffPolicy {
  import opened Wrappers
  import opened Bytes
  import opened HeaderBlock
  import opened HelloHeaders
  import opened BackoffDelay

  /** None is the zero time. */
  type Time = Option<nat>

  datatype Policy = Policy(failures: U32, lastSuccess: Time, lastNegative: Time, lastDial: Time, iteration: U32)

  const FRESH: Policy := Policy(0, None, None, None, 0)

  // ---------- Failure accounting ----------

  function AfterNegative(p: Policy, now: nat): Policy {
    p.(failures := Wrap32(p.failures + 1), lastNegative := Some(now))
  }

  function AfterClose(p: Policy, c: Config, lifetime: int, now: nat): Policy {
    if lifetime < c.minStable then AfterNegative(p, now) else p.(failures := 0)
  }

  /** The failures on record are from before a connection that has since proved stable. */
  predicate Stale(p: Policy, c: Config, now: nat) {
    && p.failures != 0
    && p.lastSuccess.Some?
    && (p.lastNegative.Some? ==> p.lastSuccess.value > p.lastNegative.value)
    && now - p.lastSuccess.value >= c.minStable
  }

  function AfterStaleCheck(p: Policy, c: Config, now: nat): Policy {
    if Stale(p, c, now) then p.(failures := 0) else p
  }

  /** What happens to a policy under its mutex, each time in one step. */
  datatype Event =
    | UnderlayClosed(lifetime: int, at: nat)
    | DialFailed(at: nat)
    | DialSucceeded(at: nat)
    | StaleChecked(at: nat)
    | DialMarked(at: nat)
    | Numbered(isFirst: bool)

  function After(p: Policy, c: Config, e: Event): Policy {
    match e
    case UnderlayClosed(lifetime, at) => AfterClose(p, c, lifetime, at)
    case DialFailed(at) => AfterNegative(p, at)
    case DialSucceeded(at) => p.(lastSuccess := Some(at))
    case StaleChecked(at) => AfterStaleCheck(p, c, at)
    case DialMarked(at) => p.(lastDial := Some(at))
    case Numbered(isFirst) => if isFirst then p.(iteration := Wrap32(p.iteration + 1)) else p
  }

  function AfterAll(c: Config, es: seq<Event>): Policy {
    if es == [] then FRESH else After(AfterAll(c, es[..|es| - 1]), c, es[|es| - 1])
  }

  /** Of every id handed out, whether it was for a first dial. */
  function DialsIn(es: seq<Event>): seq<bool> {
    if es == [] then []
    else
      var e := es[|es| - 1];
      if e.Numbered? then DialsIn(es[..|es| - 1]) + [e.isFirst] else DialsIn(es[..|es| - 1])
  }

  lemma HistoryGrows(c: Config, es: seq<Event>, e: Event)
    ensures AfterAll(c, es + [e]) == After(AfterAll(c, es), c, e)
    ensures DialsIn(es + [e]) == if e.Numbered? then DialsIn(es) + [e.isFirst] else DialsIn(es)
  {
    assert (es + [e])[..|es + [e]| - 1] == es;
  }

  // ---------- Group connection ids ----------

  function Decimal(n: nat): (d: bytes)
    ensures |d| >= 1
  {
    if n < 10 then [48 + n] else Decimal(n / 10) + [48 + n % 10]
  }

  const HYPHEN: byte := 45

  function GroupId(connectionId: bytes, iteration: U32): bytes {
    if iteration == 0 then connectionId else connectionId + [HYPHEN] + Decimal(iteration)
  }

  /** What a text of ASCII digits reads as. */
  function ValueOf(digits: bytes): int {
    if digits == [] then 0 else 10 * ValueOf(digits[..|digits| - 1]) + digits[|digits| - 1] - 48
  }

  /** The decimal text of a number is of digits only, has no leading zero, and reads as that number. */
  lemma {:induction false} DecimalReads(n: nat)
    ensures ValueOf(Decimal(n)) == n
    ensures forall i | 0 <= i < |Decimal(n)| :: 48 <= Decimal(n)[i] <= 57
    ensures Decimal(n)[0] == 48 ==> n == 0
  {
    var d := Decimal(n);
    if n < 10 {
      assert d[..0] == [];
    } else {
      DecimalReads(n / 10);
      assert d[..|d| - 1] == Decimal(n / 10);
    }
  }

  /** The id of a numbered dial is the connection's id, a hyphen and the number; number 0 is the id alone. */
  lemma GroupIdReads(connectionId: bytes, n: U32)
    ensures n == 0 ==> GroupId(connectionId, n) == connectionId
    ensures n != 0 ==>
              var id := GroupId(connectionId, n);
              && connectionId < id && id[|connectionId|] == 45
              && |id| >= |connectionId| + 2
              && id[|connectionId| + 1] != 48
              && ValueOf(id[|connectionId| + 1..]) == n
  {
    if n != 0 {
      assert GroupId(connectionId, n)[|connectionId| + 1..] == Decimal(n);
      DecimalReads(n);
    }
  }

  lemma GroupIdInjective(connectionId: bytes, a: U32, b: U32)
    ensures GroupId(connectionId, a) == GroupId(connectionId, b) <==> a == b
  {
    GroupIdReads(connectionId, a);
    GroupIdReads(connectionId, b);
  }

  /** How many of the dials were first ones. */
  function Firsts(dials: seq<bool>): nat {
    if dials == [] then 0 else Firsts(dials[..|dials| - 1]) + if dials[|dials| - 1] then 1 else 0
  }

  lemma {:induction false} FirstsGrow(dials: seq<bool>, i: nat)
    requires i <= |dials|
    ensures Firsts(dials[..i]) <= Firsts(dials)
    ensures i < |dials| && dials[|dials| - 1] ==> Firsts(dials[..i]) < Firsts(dials)
  {
    if i == |dials| {
      assert dials[..i] == dials;
    } else {
      var init := dials[..|dials| - 1];
      assert init[..i] == dials[..i];
      FirstsGrow(init, i);
    }
  }

  /** The id of the k-th dial of a policy, where `dials` says of each dial whether it was a first one. */
  function IdOfDial(connectionId: bytes, dials: seq<bool>, k: nat): bytes
    requires k < |dials|
  {
    GroupId(connectionId, Wrap32(Firsts(dials[..k + 1])))
  }

  lemma FirstsNext(dials: seq<bool>, isFirst: bool)
    ensures var all := dials + [isFirst];
            all[..|dials| + 1] == all && Firsts(all) == if isFirst then Firsts(dials) + 1 else Firsts(dials)
  {
    var all := dials + [isFirst];
    assert all[..|all| - 1] == dials;
  }

  /** Two dials share an id exactly when the numbers of first dials up to them agree modulo 2^32. */
  lemma SameIdIff(connectionId: bytes, dials: seq<bool>, j: nat, k: nat)
    requires j < |dials| && k < |dials|
    ensures IdOfDial(connectionId, dials, j) == IdOfDial(connectionId, dials, k)
       <==> Wrap32(Firsts(dials[..j + 1])) == Wrap32(Firsts(dials[..k + 1]))
  {
    GroupIdInjective(connectionId, Wrap32(Firsts(dials[..j + 1])), Wrap32(Firsts(dials[..k + 1])));
  }

  /** Up to 2^32 first dials, a first dial's id was used by no earlier dial, nor for the initial underlay. */
  lemma FirstDialHasFreshId(connectionId: bytes, dials: seq<bool>, j: nat, k: nat)
    requires j < k < |dials| && dials[k] && Firsts(dials[..k + 1]) < TWO_32
    ensures IdOfDial(connectionId, dials, k) != IdOfDial(connectionId, dials, j)
    ensures IdOfDial(connectionId, dials, k) != connectionId
  {
    var upTo := dials[..k + 1];
    assert upTo[..j + 1] == dials[..j + 1];
    FirstsGrow(upTo, j + 1);
    WrapSmall(Firsts(dials[..j + 1]));
    WrapSmall(Firsts(upTo));
    SameIdIff(connectionId, dials, j, k);
    GroupIdInjective(connectionId, Firsts(upTo), 0);
  }

  /** Any other dial reuses the id of the dial before it, and the base id before any first dial. */
  lemma OtherDialReusesId(connectionId: bytes, dials: seq<bool>, k: nat)
    requires k < |dials| && !dials[k]
    ensures IdOfDial(connectionId, dials, k) == if k == 0 then connectionId else IdOfDial(connectionId, dials, k - 1)
  {
    var upTo := dials[..k + 1];
    assert upTo[..|upTo| - 1] == dials[..k] && !upTo[|upTo| - 1];
    assert Firsts(upTo) == Firsts(dials[..k]);
  }

  /** The 2^32-nd first dial comes round to the base id again. */
  lemma IdsComeRound(connectionId: bytes, dials: seq<bool>)
    requires dials != [] && Firsts(dials) == TWO_32
    ensures IdOfDial(connectionId, dials, |dials| - 1) == connectionId
  {
    assert dials[..|dials|] == dials;
  }

  // ---------- The policy object ----------

  datatype Stage = Never | InInterval | InBackoff | BeforeConnect

  /** What one dial meets: the time, its cancellation, the random draw, the connection attempt, and what other
      goroutines do to the policy between its parts. */
  datatype World = World(
    checkedAt: nat,        // when the stale check and the interval check run
    intervalLag: nat,      // how late the interval timer fires
    cancelled: Stage,
    draw: real,
    backoffLag: nat,       // how late the backoff timer fires
    connected: bool,
    connectTook: nat,
    others: nat -> seq<Event>)

  /** `marked` is the time recorded as that of the dial; connecting took from `start` to `end`. */
  datatype DialResult =
    | Cancelled(stage: Stage, marked: nat)
    | Failed(marked: nat, start: nat, end: nat)
    | Connected(marked: nat, start: nat, end: nat, headers: Headers)

  function DialHeaders(kind: bytes, id: bytes, secret: bytes, isFirst: bool): Headers {
    var headers: Headers :=
      map[TYPE_HEADER := kind, CONNECTION_ID_HEADER := id, GROUP_SECRET_HEADER := secret, IS_GROUPED_HEADER := [1]];
    if isFirst then headers[IS_FIRST_HEADER := [1]] else headers
  }

  /** The history when a dial is checked for staleness, when it looks at the last dial, when it reads its delay. */
  function Checked(es: seq<Event>, isFirst: bool, w: World): seq<Event> {
    es + [Numbered(isFirst)] + w.others(0) + [StaleChecked(w.checkedAt)]
  }

  function Looked(es: seq<Event>, isFirst: bool, w: World): seq<Event> {
    Checked(es, isFirst, w) + w.others(1)
  }

  function Marked(es: seq<Event>, isFirst: bool, w: World, marked: nat): seq<Event> {
    Looked(es, isFirst, w) + w.others(2) + [DialMarked(marked)] + w.others(3)
  }

  class BackoffDialPolicy {
    const config: Config
    var consecutiveFailures: U32
    var lastDialSuccess: Time
    var lastNegativeEvent: Time
    var lastDialTime: Time
    var iteration: U32
    ghost var history: seq<Event>

    ghost predicate Valid()
      reads this
    {
      View() == AfterAll(config, history) && iteration == Wrap32(Firsts(DialsIn(history)))
    }

    function View(): Policy
      reads this
    {
      Policy(consecutiveFailures, lastDialSuccess, lastNegativeEvent, lastDialTime, iteration)
    }

    constructor (config: Config)
      ensures Valid() && this.config == config && history == []
    {
      this.config := config;
      consecutiveFailures, iteration := 0, 0;
      lastDialSuccess, lastNegativeEvent, lastDialTime := None, None, None;
      history := [];
    }

    method UnderlayClosed(lifetime: int, now: nat)
      requires Valid()
      modifies `consecutiveFailures, `lastNegativeEvent, `history
      ensures Valid() && history == old(history) + [Event.UnderlayClosed(lifetime, now)]
      ensures lifetime < config.minStable ==>
                consecutiveFailures == Wrap32(old(consecutiveFailures) + 1) && lastNegativeEvent == Some(now)
      ensures lifetime >= config.minStable ==>
                consecutiveFailures == 0 && lastNegativeEvent == old(lastNegativeEvent)
    {
      if lifetime < config.minStable {
        consecutiveFailures := Wrap32(consecutiveFailures + 1);
        lastNegativeEvent := Some(now);
      } else {
        consecutiveFailures := 0;
      }
      HistoryGrows(config, history, Event.UnderlayClosed(lifetime, now));
      history := history + [Event.UnderlayClosed(lifetime, now)];
    }

    method ResetStaleFailures(now: nat)
      requires Valid()
      modifies `consecutiveFailures, `history
      ensures Valid() && history == old(history) + [StaleChecked(now)]
      ensures var stable := lastDialSuccess.Some? && now - lastDialSuccess.value >= config.minStable;
              var since := stable && (lastNegativeEvent.Some? ==> lastDialSuccess.value > lastNegativeEvent.value);
              consecutiveFailures == if since then 0 else old(consecutiveFailures)
    {
      if consecutiveFailures != 0 && lastDialSuccess.Some? {
        var after := match lastNegativeEvent
                     case None => true
                     case Some(t) => lastDialSuccess.value > t;
        if after && now - lastDialSuccess.value >= config.minStable {
          consecutiveFailures := 0;
        }
      }
      HistoryGrows(config, history, StaleChecked(now));
      history := history + [StaleChecked(now)];
    }

    method GetBackoffDelay(draw: real) returns (delay: int)
      requires 0.0 <= draw < 1.0
      ensures delay == Delay(config, consecutiveFailures, draw)
      ensures delay <= PlainDelay(config, consecutiveFailures)
      ensures PlainDelay(config, consecutiveFailures) > 0 ==>
                (1.0 - Fraction(config)) * PlainDelay(config, consecutiveFailures) as real <= delay as real
    {
      JitterStaysInRange(config, consecutiveFailures, draw);
      if consecutiveFailures == 0 { return 0; }
      delay := Wrap64(config.baseDelay * Pow2(Min(consecutiveFailures - 1, 30)));
      delay := Min(delay, config.maxDelay);
      assert delay == PlainDelay(config, consecutiveFailures);
      delay := Jittered(delay, draw);
    }

    method Jittered(delay: int, draw: real) returns (r: int)
      ensures r == if config.jitter > 0.0 && delay > 0 then delay - Cut(draw, Most(config, delay)).Floor else delay
    {
      var jitter := config.jitter;
      if jitter > 0.0 && delay > 0 {
        if jitter > 1.0 { jitter := 1.0; }
        assert jitter == Fraction(config);
        return delay - Cut(draw, jitter * delay as real).Floor;
      }
      return delay;
    }

    method RecordSuccess(now: nat)
      requires Valid()
      modifies `lastDialSuccess, `history
      ensures Valid() && history == old(history) + [DialSucceeded(now)] && lastDialSuccess == Some(now)
    {
      lastDialSuccess := Some(now);
      HistoryGrows(config, history, DialSucceeded(now));
      history := history + [DialSucceeded(now)];
    }

    method RecordFailure(now: nat)
      requires Valid()
      modifies `consecutiveFailures, `lastNegativeEvent, `history
      ensures Valid() && history == old(history) + [DialFailed(now)]
      ensures consecutiveFailures == Wrap32(old(consecutiveFailures) + 1) && lastNegativeEvent == Some(now)
    {
      consecutiveFailures := Wrap32(consecutiveFailures + 1);
      lastNegativeEvent := Some(now);
      HistoryGrows(config, history, DialFailed(now));
      history := history + [DialFailed(now)];
    }

    method MarkDial(now: nat)
      requires Valid()
      modifies `lastDialTime, `history
      ensures Valid() && history == old(history) + [DialMarked(now)] && lastDialTime == Some(now)
    {
      lastDialTime := Some(now);
      HistoryGrows(config, history, DialMarked(now));
      history := history + [DialMarked(now)];
    }

    /** The id of this dial follows from all the dials so far. */
    method GroupConnectionId(connectionId: bytes, isFirst: bool) returns (id: bytes)
      requires Valid()
      modifies `iteration, `history
      ensures Valid() && history == old(history) + [Numbered(isFirst)]
      ensures iteration == if isFirst then Wrap32(old(iteration) + 1) else old(iteration)
      ensures var dials := DialsIn(history); |dials| > 0 && id == IdOfDial(connectionId, dials, |dials| - 1)
    {
      HistoryGrows(config, history, Numbered(isFirst));
      FirstsNext(DialsIn(history), isFirst);
      WrapSucc(iteration, Firsts(DialsIn(history)));
      history := history + [Numbered(isFirst)];
      if isFirst { iteration := Wrap32(iteration + 1); }
      if iteration == 0 { return connectionId; }
      id := connectionId + [HYPHEN] + Decimal(iteration);
    }

    /** Other goroutines use the policy. */
    method Others(es: seq<Event>)
      requires Valid()
      modifies this
      ensures Valid() && history == old(history) + es
    {
      for i := 0 to |es|
        invariant Valid() && history == old(history) + es[..i]
      {
        match es[i] {
          case UnderlayClosed(lifetime, at) => UnderlayClosed(lifetime, at);
          case DialFailed(at) => RecordFailure(at);
          case DialSucceeded(at) => RecordSuccess(at);
          case StaleChecked(at) => ResetStaleFailures(at);
          case DialMarked(at) => MarkDial(at);
          case Numbered(isFirst) => var id := GroupConnectionId([], isFirst);
        }
        assert es[..i + 1] == es[..i] + [es[i]];
      }
      assert es[..|es|] == es;
    }

    /** The wait for the minimum interval since the last dial; None when it is cancelled. */
    method AwaitInterval(w: World) returns (now: Option<nat>)
      ensures now.Some? ==> now.value >= w.checkedAt
      ensures now.Some? && config.minInterval > 0 && lastDialTime.Some? ==>
                now.value - lastDialTime.value >= config.minInterval
      ensures var early := lastDialTime.Some? && config.minInterval > 0
                           && w.checkedAt < lastDialTime.value + config.minInterval;
              && (now.None? <==> early && w.cancelled == InInterval)
              && (now.Some? ==>
                    now.value == if early then lastDialTime.value + config.minInterval + w.intervalLag else w.checkedAt)
    {
      if config.minInterval > 0 {
        var elapsed := if lastDialTime.None? then MAX_INT64 else w.checkedAt - lastDialTime.value;
        if elapsed < config.minInterval {
          if w.cancelled == InInterval { return None; }
          var wait := config.minInterval - elapsed;
          return Some(w.checkedAt + wait + w.intervalLag);
        }
      }
      return Some(w.checkedAt);
    }

    method HeadersFor(kind: bytes, id: bytes, secret: bytes, isFirst: bool) returns (headers: Headers)
      ensures headers == DialHeaders(kind, id, secret, isFirst)
    {
      headers := map[TYPE_HEADER := kind, CONNECTION_ID_HEADER := id, GROUP_SECRET_HEADER := secret,
          IS_GROUPED_HEADER := [1]];
      if isFirst { headers := headers[IS_FIRST_HEADER := [1]]; }
    }

    /** Dial from the stale check to the mark: at least the minimum interval lies between it and the last dial. */
    method Prepare(isFirst: bool, w: World, ghost es: seq<Event>) returns (marked: Option<nat>)
      requires Valid() && history == es + [Numbered(isFirst)]
      modifies this
      ensures Valid()
      ensures marked.None? ==> w.cancelled == InInterval && history == Looked(es, isFirst, w)
      ensures marked.Some? ==>
                && history == Marked(es, isFirst, w, marked.value) && marked.value >= w.checkedAt
                && Spaced(config, AfterAll(config, Looked(es, isFirst, w)).lastDial, marked.value)
    {
      Others(w.others(0));
      ResetStaleFailures(w.checkedAt);
      Others(w.others(1));
      marked := AwaitInterval(w);
      if marked.Some? {
        Others(w.others(2));
        MarkDial(marked.value);
        Others(w.others(3));
      }
    }

    /** Dial from the mark on: the backoff, and the connection attempt. */
    method Connect(w: World, marked: nat, headers: Headers, ghost es: seq<Event>) returns (r: DialResult)
      requires Valid() && 0.0 <= w.draw < 1.0 && es == history
      modifies this
      ensures Valid() && r.marked == marked
      ensures match r
              case Cancelled(stage, _) =>
                (stage.InBackoff? || stage.BeforeConnect?) && w.cancelled == stage
                && history == if stage.InBackoff? then es else es + w.others(4)
              case Failed(_, start, end) => !w.connected && end == start + w.connectTook
                  && history == es + w.others(4) + [DialFailed(end)]
              case Connected(_, start, end, h) =>
                && w.connected && h == headers && end == start + w.connectTook
                && history == es + w.others(4) + [DialSucceeded(end)]
      ensures var delay := Delay(config, old(consecutiveFailures), w.draw);
              if delay > 0 && w.cancelled == InBackoff then r == Cancelled(InBackoff, marked)
              else if w.cancelled == BeforeConnect then r == Cancelled(BeforeConnect, marked)
              else !r.Cancelled? && r.start == if delay > 0 then marked + delay + w.backoffLag else marked
      ensures !r.Cancelled? ==>
                r.start >= marked && r.start - marked >= Delay(config, AfterAll(config, es).failures, w.draw)
    {
      var delay := GetBackoffDelay(w.draw);
      var now := marked;
      if delay > 0 {
        if w.cancelled == InBackoff { return Cancelled(InBackoff, marked); }
        now := now + delay + w.backoffLag;
      }
      Others(w.others(4));
      if w.cancelled == BeforeConnect { return Cancelled(BeforeConnect, marked); }
      var end := now + w.connectTook;
      if !w.connected {
        RecordFailure(end);
        return Failed(marked, now, end);
      }
      RecordSuccess(end);
      return Connected(marked, now, end, headers);
    }

    /** Dial, whatever the other goroutines do to the policy meanwhile.  It takes its id, drops stale failures, waits
        out the interval, marks the dial, waits out the backoff and connects.  A cancelled dial is neither a success
        nor a failure.  No dial goes out before the interval since the last dial, and the backoff for the failures
        on record when it was marked, have passed; its hello carries this dial's id. */
    method Dial(kind: bytes, connectionId: bytes, secret: bytes, isFirst: bool, w: World) returns (r: DialResult)
      requires Valid() && 0.0 <= w.draw < 1.0
      modifies this
      ensures Valid()
      ensures var looked, marked := Looked(old(history), isFirst, w), Marked(old(history), isFirst, w, r.marked);
              && history == (match r
                             case Cancelled(stage, _) =>
                               if stage.InInterval? then looked
                               else if stage.InBackoff? then marked else marked + w.others(4)
                             case Failed(_, _, end) => marked + w.others(4) + [DialFailed(end)]
                             case Connected(_, _, end, _) => marked + w.others(4) + [DialSucceeded(end)])
              && (!r.Cancelled? ==>
                    && w.checkedAt <= r.marked <= r.start <= r.end
                    && Spaced(config, AfterAll(config, looked).lastDial, r.marked)
                    && r.start - r.marked >= Delay(config, AfterAll(config, marked).failures, w.draw))
      ensures r.Cancelled? ==> w.cancelled == r.stage != Never
      ensures w.cancelled == BeforeConnect ==> r.Cancelled?
      ensures r.Failed? ==> !w.connected
      ensures r.Connected? ==>
                && w.connected
                && var dials := DialsIn(old(history) + [Numbered(isFirst)]);
                   && |dials| > 0
                   && r.headers == DialHeaders(kind, IdOfDial(connectionId, dials, |dials| - 1), secret, isFirst)
    {
      var groupId := GroupConnectionId(connectionId, isFirst);
      var marked := Prepare(isFirst, w, old(history));
      if marked.None? { return Cancelled(InInterval, 0); }
      var headers := HeadersFor(kind, groupId, secret, isFirst);
      r := Connect(w, marked.value, headers, history);
    }
  }

  /** The minimum interval has passed since the last dial on record. */
  predicate Spaced(c: Config, lastDial: Time, now: nat) {
    c.minInterval > 0 && lastDial.Some? ==> now - lastDial.value >= c.minInterval
  }

  /** What a dial that gets as far as its mark has recorded by then, and in which order: its id, the stale check, the
      mark, and between them what the others did. */
  lemma MarkedReads(es: seq<Event>, isFirst: bool, w: World, marked: nat)
    ensures es + [Numbered(isFirst)] + w.others(0) + [StaleChecked(w.checkedAt)] + w.others(1) == Looked(es, isFirst, w)
    ensures Looked(es, isFirst, w) + w.others(2) + [DialMarked(marked)] + w.others(3) == Marked(es, isFirst, w, marked)
  {
  }

  /** Left alone, a dial whose failures are from before a connection that has proved stable goes out without backoff. */
  lemma StaleFailuresDoNotDelay(c: Config, es: seq<Event>, isFirst: bool, w: World, marked: nat)
    requires forall k: nat | k < 4 :: w.others(k) == []
    requires var p := AfterAll(c, es);
             && p.lastSuccess.Some? && w.checkedAt - p.lastSuccess.value >= c.minStable
             && (p.lastNegative.Some? ==> p.lastSuccess.value > p.lastNegative.value)
    ensures Delay(c, AfterAll(c, Marked(es, isFirst, w, marked)).failures, w.draw) == 0
  {
    var numbered := es + [Numbered(isFirst)];
    LeftAlone(es, isFirst, w, marked);
    HistoryGrows(c, es, Numbered(isFirst));
    HistoryGrows(c, numbered, StaleChecked(w.checkedAt));
    HistoryGrows(c, numbered + [StaleChecked(w.checkedAt)], DialMarked(marked));
  }

  lemma LeftAlone(es: seq<Event>, isFirst: bool, w: World, marked: nat)
    requires forall k: nat | k < 4 :: w.others(k) == []
    ensures Marked(es, isFirst, w, marked) ==
              es + [Numbered(isFirst)] + [StaleChecked(w.checkedAt)] + [DialMarked(marked)]
  {
    assert w.others(0) == w.others(1) == w.others(2) == w.others(3) == [];
  }
}
