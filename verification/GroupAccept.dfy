/**
 The group-accept protocol of MultiListener (multi_listener.go) as a transition system.

 Any number of AcceptUnderlay calls and close callbacks run concurrently.  Every section the
 listener lock protects is one step, except the two places where finer steps matter: a close
 callback stores its `closed` flag before it takes the lock, and publishing a registration
 checks and writes in two steps while the lock is held.

 A call creates at most one notifier, one registration and one channel, so the call's id
 also stands for the identity of each of them.
 */
module GroupAccept {
  import opened Wrappers

  type CallId = nat

  /** How a call ended, or is about to end. */
  datatype Outcome =
    | Delegated        // ungrouped, taken by the fallback
    | FallbackFailed
    | AckFailed        // of an ungrouped or attaching underlay
    | CreateAckFailed
    | NoGroup          // "no existing channel found for non-first underlay"
    | TimedOut
    | Rejected         // refused by the admitter
    | Attached
    | AttachRefused
    | Created
    | FactoryFailed
    | Stillborn        // channel closed during creation, not registered

  datatype Pc =
    | Begin
    | AckFallback
    | CallFallback
    | Lookup
    | Waiting(on: CallId)
    | Admit
    | AckAttach(target: CallId)
    | Attach(target: CallId)
    | AckCreate
    | Create           // the factory is running
    | Publish          // about to take the lock and check
    | PublishWrite     // lock held, check passed, about to write
    | Release(why: Outcome)
    | Close(why: Outcome)
    | Done(why: Outcome)

  datatype Owner = Unowned | FallbackOwner | ChannelOwner(channel: CallId)

  /** One AcceptUnderlay call: its arguments, its position, and what it has done so far. */
  datatype Call = Call(
    chId: string, grouped: bool, first: bool,
    pc: Pc,
    acks: nat, admits: nat, creates: nat,
    closed: bool, owner: Owner)

  datatype State = State(
    hasAdmitter: bool,
    channels: map<string, CallId>,    // registered channels
    notifiers: map<string, CallId>,   // create-in-progress reservations
    woken: set<CallId>,               // notifiers that have been closed
    lock: Option<CallId>,             // a call holding the listener lock between two steps
    calls: map<CallId, Call>,
    regClosed: set<CallId>,           // registration.closed
    chClosed: set<CallId>,            // Channel.IsClosed
    callbacks: map<nat, CallId>)      // close callbacks that have stored the flag and await the lock

  /** What a call can do on its own: everything between two locked sections. */
  datatype Move =
    | Dispatch
    | AckReturns(ok: bool)
    | FallbackReturns(ok: bool)
    | Wake
    | Timeout
    | AdmitterReturns(ok: bool)
    | AttachReturns(ok: bool)
    | FactoryReturns(ok: bool)
    | CloseUnderlay

  datatype Step =
    | Arrive(c: CallId, chId: string, grouped: bool, first: bool)
    | Advance(c: CallId, move: Move)
    | LookupSection(c: CallId)
    | PublishCheck(c: CallId)
    | PublishStore(c: CallId)
    | ReleaseSection(c: CallId)
    | ChannelCloses(c: CallId)
    | CallbackStore(cb: nat, c: CallId)
    | CallbackSection(cb: nat)

  predicate At(s: State, c: CallId, pc: Pc) {
    c in s.calls && s.calls[c].pc == pc
  }

  predicate Live(s: State, c: CallId) {
    c !in s.regClosed && c !in s.chClosed
  }

  predicate CanMove(call: Call, m: Move, woken: set<CallId>) {
    match m
    case Dispatch => call.pc.Begin?
    case AckReturns(_) => call.pc.AckFallback? || call.pc.AckAttach? || call.pc.AckCreate?
    case FallbackReturns(_) => call.pc.CallFallback?
    case Wake => call.pc.Waiting? && call.pc.on in woken
    case Timeout => call.pc.Waiting?
    case AdmitterReturns(_) => call.pc.Admit?
    case AttachReturns(_) => call.pc.Attach?
    case FactoryReturns(_) => call.pc.Create?
    case CloseUnderlay => call.pc.Close?
  }

  predicate Enabled(s: State, st: Step) {
    match st
    case Arrive(c, _, _, _) => c !in s.calls
    case Advance(c, m) => c in s.calls && CanMove(s.calls[c], m, s.woken)
    case LookupSection(c) => At(s, c, Lookup) && s.lock.None?
    case PublishCheck(c) => At(s, c, Publish) && s.lock.None?
    case PublishStore(c) => At(s, c, PublishWrite)
    case ReleaseSection(c) => c in s.calls && s.calls[c].pc.Release? && s.lock.None?
    // The channel, and the callback that closes its registration, exist once the factory runs.
    case ChannelCloses(c) => c in s.calls && s.calls[c].creates > 0
    case CallbackStore(cb, c) => cb !in s.callbacks && c in s.calls && s.calls[c].creates > 0
    case CallbackSection(cb) => cb in s.callbacks && s.callbacks[cb] in s.calls && s.lock.None?
  }

  /** ackHello: one attempt, counted whether or not it succeeds. */
  function Acked(call: Call, ok: bool): Call {
    var call := call.(acks := call.acks + 1);
    match call.pc
    case AckCreate =>
      if ok then call.(pc := Create, creates := call.creates + 1) else call.(pc := Release(CreateAckFailed))
    case AckAttach(target) =>
      call.(pc := if ok then Attach(target) else Close(AckFailed))
    case _ =>
      call.(pc := if ok then CallFallback else Close(AckFailed))
  }

  function Moved(c: CallId, call: Call, m: Move, woken: set<CallId>): Call
    requires CanMove(call, m, woken)
  {
    match m
    case Dispatch => call.(pc := if call.grouped then Lookup else AckFallback)
    case AckReturns(ok) => Acked(call, ok)
    case FallbackReturns(ok) =>
      if ok then call.(pc := Done(Delegated), owner := FallbackOwner) else call.(pc := Close(FallbackFailed))
    case Wake => call.(pc := Lookup)
    case Timeout => call.(pc := Close(TimedOut))
    case AdmitterReturns(ok) =>
      call.(pc := if ok then AckCreate else Release(Rejected), admits := call.admits + 1)
    case AttachReturns(ok) =>
      // Channel.AcceptUnderlay closes the underlay itself when it refuses it.
      if ok then call.(pc := Done(Attached), owner := ChannelOwner(call.pc.target))
      else call.(pc := Done(AttachRefused), closed := true)
    case FactoryReturns(ok) =>
      if ok then call.(pc := Publish, owner := ChannelOwner(c))
      else call.(pc := Release(FactoryFailed), closed := true)
    case CloseUnderlay => call.(pc := Done(call.pc.why), closed := true)
  }

  function Put(s: State, c: CallId, call: Call): State {
    s.(calls := s.calls[c := call])
  }

  function Goto(s: State, c: CallId, pc: Pc): State
    requires c in s.calls
  {
    Put(s, c, s.calls[c].(pc := pc))
  }

  /** What the locked section at the head of the accept loop decides. */
  function LookupPc(s: State, c: CallId): Pc
    requires c in s.calls
  {
    var id := s.calls[c].chId;
    if id in s.channels && Live(s, s.channels[id]) then AckAttach(s.channels[id])
    else if id in s.notifiers then Waiting(s.notifiers[id])
    else if !s.calls[c].first then Close(NoGroup)
    else if s.hasAdmitter then Admit
    else AckCreate
  }

  /** Unless it attaches, the section evicts whatever stale registration it met; a creator reserves. */
  function ApplyLookup(s: State, c: CallId): State
    requires c in s.calls
  {
    var id := s.calls[c].chId;
    var pc := LookupPc(s, c);
    Goto(s.(channels := if pc.AckAttach? then s.channels else s.channels - {id},
            notifiers := if Holding(pc) then s.notifiers[id := c] else s.notifiers), c, pc)
  }

  function ApplyRelease(s: State, c: CallId): State
    requires c in s.calls && s.calls[c].pc.Release?
  {
    var why := s.calls[c].pc.why;
    Goto(s.(notifiers := s.notifiers - {s.calls[c].chId}, woken := s.woken + {c}), c,
         if why.Rejected? || why.CreateAckFailed? then Close(why) else Done(why))
  }

  function ApplyCallback(s: State, cb: nat): State
    requires cb in s.callbacks && s.callbacks[cb] in s.calls
  {
    var c := s.callbacks[cb];
    var id := s.calls[c].chId;
    var t := s.(callbacks := s.callbacks - {cb});
    if id in s.channels && s.channels[id] == c then t.(channels := s.channels - {id}) else t
  }

  function Apply(s: State, st: Step): State
    requires Enabled(s, st)
  {
    match st
    case Arrive(c, id, grouped, first) =>
      Put(s, c, Call(id, grouped, first, Begin, 0, 0, 0, false, Unowned))
    case Advance(c, m) => Put(s, c, Moved(c, s.calls[c], m, s.woken))
    case LookupSection(c) => ApplyLookup(s, c)
    case PublishCheck(c) =>
      if Live(s, c) then Goto(s, c, PublishWrite).(lock := Some(c)) else Goto(s, c, Release(Stillborn))
    case PublishStore(c) =>
      Goto(s, c, Release(Created)).(channels := s.channels[s.calls[c].chId := c], lock := None)
    case ReleaseSection(c) => ApplyRelease(s, c)
    case ChannelCloses(c) => s.(chClosed := s.chClosed + {c})
    case CallbackStore(cb, c) => s.(regClosed := s.regClosed + {c}, callbacks := s.callbacks[cb := c])
    case CallbackSection(cb) => ApplyCallback(s, cb)
  }

  function Initial(hasAdmitter: bool): State {
    State(hasAdmitter, map[], map[], {}, None, map[], {}, {}, map[])
  }

  /** `states` is a run of the listener: it starts empty and `steps[i]` leads from state i to state i+1. */
  ghost predicate IsRun(states: seq<State>, steps: seq<Step>) {
    && |states| == |steps| + 1
    && states[0] == Initial(states[0].hasAdmitter)
    && forall i | 0 <= i < |steps| :: Enabled(states[i], steps[i]) && states[i + 1] == Apply(states[i], steps[i])
  }

  // ---------- Invariant ----------

  /** The call is between reserving its id and releasing it. */
  predicate Holding(pc: Pc) {
    pc.Admit? || pc.AckCreate? || pc.Create? || pc.Publish? || pc.PublishWrite? || pc.Release?
  }

  /** The call has published its registration. */
  predicate Published(pc: Pc) {
    pc == Release(Created) || pc == Done(Created)
  }

  predicate StillbornAt(pc: Pc) {
    pc == Release(Stillborn) || pc == Done(Stillborn)
  }

  predicate Registered(s: State, id: string, c: CallId) {
    id in s.channels && s.channels[id] == c
  }

  predicate Reserved(s: State, id: string, c: CallId) {
    id in s.notifiers && s.notifiers[id] == c
  }

  /** A close callback of `c` has stored the flag and not yet run its locked section. */
  ghost predicate Pending(s: State, c: CallId) {
    exists cb :: cb in s.callbacks && s.callbacks[cb] == c
  }

  predicate LockOk(s: State) {
    s.lock.Some? ==> At(s, s.lock.value, PublishWrite)
  }

  /** How a call's position ties it to the lock, the reservations and the registrations. */
  ghost predicate CallShape(s: State, c: CallId) {
    && (c in s.woken ==> c in s.calls && (s.calls[c].pc.Close? || s.calls[c].pc.Done?))
    && (c in s.calls ==>
          var Call(id, _, _, pc, _, _, _, _, _) := s.calls[c];
          && (pc.PublishWrite? ==> s.lock == Some(c) && (c in s.regClosed ==> Pending(s, c)))
          && (Holding(pc) ==> Reserved(s, id, c))
          && (Published(pc) && Live(s, c) ==> Registered(s, id, c))
          && (StillbornAt(pc) ==> !Live(s, c))
          && (pc.Waiting? ==> pc.on in s.woken || Reserved(s, id, pc.on)))
  }

  predicate NotifierShape(s: State, id: string) {
    id in s.notifiers ==>
      var c := s.notifiers[id];
      c in s.calls && s.calls[c].chId == id && Holding(s.calls[c].pc)
  }

  ghost predicate ChannelShape(s: State, id: string) {
    id in s.channels ==>
      var c := s.channels[id];
      && c in s.calls && s.calls[c].chId == id && Published(s.calls[c].pc)
      && (id in s.notifiers ==> s.notifiers[id] == c)
      && (c in s.regClosed ==> Pending(s, c))
  }

  predicate InGroup(s: State, id: string, c: CallId) {
    c in s.calls && s.calls[c].chId == id
  }

  predicate TargetOk(s: State, call: Call) {
    && (call.pc.AckAttach? || call.pc.Attach? ==>
          InGroup(s, call.chId, call.pc.target) && Published(s.calls[call.pc.target].pc))
    && (call.owner.ChannelOwner? ==> InGroup(s, call.chId, call.owner.channel))
  }

  /** A call attaches to, and hands its underlay to, a channel of its own group. */
  predicate TargetShape(s: State, c: CallId) {
    c in s.calls ==> TargetOk(s, s.calls[c])
  }

  predicate CallbackShape(s: State, cb: nat) {
    cb in s.callbacks ==> s.callbacks[cb] in s.regClosed
  }

  predicate EndsUnacked(why: Outcome) {
    why.NoGroup? || why.TimedOut? || why.Rejected?
  }

  predicate EndsOwned(why: Outcome) {
    why.Delegated? || why.Attached? || why.Created? || why.Stillborn?
  }

  /** The outcomes of a call that reserved its id. */
  predicate CreatorOutcome(why: Outcome) {
    why.Rejected? || why.CreateAckFailed? || CreateOutcome(why)
  }

  /** The outcomes of a call that ran the factory. */
  predicate CreateOutcome(why: Outcome) {
    why.Created? || why.FactoryFailed? || why.Stillborn?
  }

  datatype Tally = Tally(acks: nat, admits: nat, creates: nat, closed: bool, owned: bool)

  function TallyOf(call: Call): Tally {
    Tally(call.acks, call.admits, call.creates, call.closed, call.owner != Unowned)
  }

  function FinalTally(why: Outcome, admit: nat): Tally {
    Tally(if EndsUnacked(why) then 0 else 1,
          if CreatorOutcome(why) then admit else 0,
          if CreateOutcome(why) then 1 else 0,
          !EndsOwned(why), EndsOwned(why))
  }

  /** What a call has done is determined by where it is. */
  function Expected(pc: Pc, admit: nat): Tally {
    match pc
    case CallFallback => Tally(1, 0, 0, false, false)
    case Attach(_) => Tally(1, 0, 0, false, false)
    case AckCreate => Tally(0, admit, 0, false, false)
    case Create => Tally(1, admit, 1, false, false)
    case Publish => Tally(1, admit, 1, false, true)
    case PublishWrite => Tally(1, admit, 1, false, true)
    case Release(why) => FinalTally(why, admit).(closed := why.FactoryFailed?)
    case Close(why) => FinalTally(why, admit).(closed := false)
    case Done(why) => FinalTally(why, admit)
    case _ => Tally(0, 0, 0, false, false)
  }

  predicate CallOk(hasAdmitter: bool, call: Call) {
    && TallyOf(call) == Expected(call.pc, if hasAdmitter then 1 else 0)
    && (call.pc.Admit? ==> hasAdmitter)
    && (call.pc.Release? ==> CreatorOutcome(call.pc.why))
    && (call.pc.Close? ==> !EndsOwned(call.pc.why) && !CreateOutcome(call.pc.why))
  }

  predicate CallOkAt(s: State, c: CallId) {
    c in s.calls ==> CallOk(s.hasAdmitter, s.calls[c])
  }

  ghost predicate CallsOk(s: State) {
    forall c :: CallOkAt(s, c)
  }

  ghost predicate Shape(s: State) {
    && LockOk(s)
    && (forall c :: CallShape(s, c))
    && (forall id :: NotifierShape(s, id))
    && (forall id :: ChannelShape(s, id))
    && (forall cb :: CallbackShape(s, cb))
  }

  ghost predicate Inv(s: State) {
    Shape(s) && CallsOk(s) && (forall c :: TargetShape(s, c))
  }

  // ---------- Every step keeps the invariant ----------

  lemma PendingFrame(s: State, t: State)
    requires forall cb | cb in s.callbacks :: cb in t.callbacks && t.callbacks[cb] == s.callbacks[cb]
    ensures forall c | Pending(s, c) :: Pending(t, c)
  {
    forall c | Pending(s, c) ensures Pending(t, c) {
      var cb :| cb in s.callbacks && s.callbacks[cb] == c;
      assert t.callbacks[cb] == c;
    }
  }

  /** The call neither takes nor gives up the lock, a reservation or a registration, nor starts to wait. */
  predicate Quiet(old': Call, new': Call) {
    && new'.chId == old'.chId
    && Holding(new'.pc) == Holding(old'.pc)
    && Published(new'.pc) == Published(old'.pc)
    && StillbornAt(new'.pc) == StillbornAt(old'.pc)
    && (old'.pc.Close? || old'.pc.Done? ==> new'.pc.Done?)
    && !old'.pc.PublishWrite? && !new'.pc.PublishWrite? && !new'.pc.Waiting?
  }

  lemma QuietStep(s: State, c: CallId, call: Call)
    requires Shape(s)
    requires if c in s.calls then Quiet(s.calls[c], call) else call.pc == Begin
    ensures Shape(Put(s, c, call))
  {
    var t := Put(s, c, call);
    PendingFrame(s, t);
    forall d ensures CallShape(t, d) { assert CallShape(s, d); }
    forall id ensures NotifierShape(t, id) { assert NotifierShape(s, id); }
    forall id ensures ChannelShape(t, id) { assert ChannelShape(s, id); }
    forall cb ensures CallbackShape(t, cb) { assert CallbackShape(s, cb); }
  }

  /** Dropping a registration that is absent or closed. */
  lemma EvictStep(s: State, id: string)
    requires Shape(s)
    requires id in s.channels ==> !Live(s, s.channels[id])
    ensures Shape(s.(channels := s.channels - {id}))
  {
    var t := s.(channels := s.channels - {id});
    PendingFrame(s, t);
    forall d ensures CallShape(t, d) { assert CallShape(s, d); }
    forall i ensures NotifierShape(t, i) { assert NotifierShape(s, i); }
    forall i ensures ChannelShape(t, i) { assert ChannelShape(s, i); }
    forall cb ensures CallbackShape(t, cb) { assert CallbackShape(s, cb); }
  }

  lemma WaitStep(s: State, c: CallId)
    requires Shape(s) && At(s, c, Lookup) && s.calls[c].chId in s.notifiers
    ensures Shape(Goto(s, c, Waiting(s.notifiers[s.calls[c].chId])))
  {
    var t := Goto(s, c, Waiting(s.notifiers[s.calls[c].chId]));
    PendingFrame(s, t);
    forall d ensures CallShape(t, d) { assert CallShape(s, d); }
    forall i ensures NotifierShape(t, i) { assert NotifierShape(s, i); }
    forall i ensures ChannelShape(t, i) { assert ChannelShape(s, i); }
    forall cb ensures CallbackShape(t, cb) { assert CallbackShape(s, cb); }
  }

  lemma ReserveStep(s: State, c: CallId, call: Call)
    requires Shape(s) && At(s, c, Lookup)
    requires call.chId == s.calls[c].chId && (call.pc.Admit? || call.pc.AckCreate?)
    requires call.chId !in s.channels && call.chId !in s.notifiers
    ensures Shape(Put(s.(notifiers := s.notifiers[call.chId := c]), c, call))
  {
    var t := Put(s.(notifiers := s.notifiers[call.chId := c]), c, call);
    PendingFrame(s, t);
    forall d ensures CallShape(t, d) { assert CallShape(s, d); }
    forall i ensures NotifierShape(t, i) { assert NotifierShape(s, i); }
    forall i ensures ChannelShape(t, i) { assert ChannelShape(s, i); }
    forall cb ensures CallbackShape(t, cb) { assert CallbackShape(s, cb); }
  }

  lemma LookupStep(s: State, c: CallId)
    requires Shape(s) && Enabled(s, LookupSection(c))
    ensures Shape(ApplyLookup(s, c))
  {
    var id := s.calls[c].chId;
    if id in s.channels && Live(s, s.channels[id]) {
      QuietStep(s, c, s.calls[c].(pc := AckAttach(s.channels[id])));
    } else {
      EvictStep(s, id);
      var t := s.(channels := s.channels - {id});
      if id in s.notifiers {
        WaitStep(t, c);
      } else if !s.calls[c].first {
        QuietStep(t, c, s.calls[c].(pc := Close(NoGroup)));
      } else {
        ReserveStep(t, c, ApplyLookup(s, c).calls[c]);
      }
    }
  }

  lemma PublishCheckStep(s: State, c: CallId)
    requires Shape(s) && Enabled(s, PublishCheck(c))
    ensures Shape(Apply(s, PublishCheck(c)))
  {
    var t := if Live(s, c) then Goto(s, c, PublishWrite).(lock := Some(c)) else Goto(s, c, Release(Stillborn));
    PendingFrame(s, t);
    forall d ensures CallShape(t, d) { assert CallShape(s, d); }
    forall i ensures NotifierShape(t, i) { assert NotifierShape(s, i); }
    forall i ensures ChannelShape(t, i) { assert ChannelShape(s, i); }
    forall cb ensures CallbackShape(t, cb) { assert CallbackShape(s, cb); }
  }

  lemma PublishStoreStep(s: State, c: CallId)
    requires Shape(s) && Enabled(s, PublishStore(c))
    ensures Shape(Apply(s, PublishStore(c)))
  {
    var t := Apply(s, PublishStore(c));
    PendingFrame(s, t);
    assert CallShape(s, c) && ChannelShape(s, s.calls[c].chId);
    forall d ensures CallShape(t, d) { assert CallShape(s, d); }
    forall i ensures NotifierShape(t, i) { assert NotifierShape(s, i); }
    forall i ensures ChannelShape(t, i) { assert ChannelShape(s, i); }
    forall cb ensures CallbackShape(t, cb) { assert CallbackShape(s, cb); }
  }

  lemma ReleaseStep(s: State, c: CallId)
    requires Shape(s) && Enabled(s, ReleaseSection(c))
    ensures Shape(ApplyRelease(s, c))
  {
    var t := ApplyRelease(s, c);
    PendingFrame(s, t);
    assert CallShape(s, c);
    forall d ensures CallShape(t, d) { assert CallShape(s, d); }
    forall i ensures NotifierShape(t, i) { assert NotifierShape(s, i); }
    forall i ensures ChannelShape(t, i) { assert ChannelShape(s, i); }
    forall cb ensures CallbackShape(t, cb) { assert CallbackShape(s, cb); }
  }

  lemma ChannelCloseStep(s: State, c: CallId)
    requires Shape(s) && Enabled(s, ChannelCloses(c))
    ensures Shape(Apply(s, ChannelCloses(c)))
  {
    var t := Apply(s, ChannelCloses(c));
    PendingFrame(s, t);
    forall d ensures CallShape(t, d) { assert CallShape(s, d); }
    forall i ensures NotifierShape(t, i) { assert NotifierShape(s, i); }
    forall i ensures ChannelShape(t, i) { assert ChannelShape(s, i); }
    forall cb ensures CallbackShape(t, cb) { assert CallbackShape(s, cb); }
  }

  lemma CallbackStoreStep(s: State, cb: nat, c: CallId)
    requires Shape(s) && Enabled(s, CallbackStore(cb, c))
    ensures Shape(Apply(s, CallbackStore(cb, c)))
  {
    var t := Apply(s, CallbackStore(cb, c));
    PendingFrame(s, t);
    assert t.callbacks[cb] == c;
    forall d ensures CallShape(t, d) { assert CallShape(s, d); }
    forall i ensures NotifierShape(t, i) { assert NotifierShape(s, i); }
    forall i ensures ChannelShape(t, i) { assert ChannelShape(s, i); }
    forall k ensures CallbackShape(t, k) { assert CallbackShape(s, k); }
  }

  lemma CallbackStep(s: State, cb: nat)
    requires Shape(s) && Enabled(s, CallbackSection(cb))
    ensures Shape(ApplyCallback(s, cb))
  {
    var t := ApplyCallback(s, cb);
    assert CallbackShape(s, cb);
    forall d | Pending(s, d) && d != s.callbacks[cb] ensures Pending(t, d) {
      var k :| k in s.callbacks && s.callbacks[k] == d;
      assert t.callbacks[k] == d;
    }
    forall d ensures CallShape(t, d) { assert CallShape(s, d); }
    forall i ensures NotifierShape(t, i) { assert NotifierShape(s, i); }
    forall i ensures ChannelShape(t, i) { assert ChannelShape(s, i); }
    forall k ensures CallbackShape(t, k) { assert CallbackShape(s, k); }
  }

  lemma MoveQuiet(hasAdmitter: bool, c: CallId, call: Call, m: Move, woken: set<CallId>)
    requires CallOk(hasAdmitter, call) && CanMove(call, m, woken)
    ensures Quiet(call, Moved(c, call, m, woken))
  {
  }

  lemma AckOk(hasAdmitter: bool, call: Call, ok: bool)
    requires CallOk(hasAdmitter, call) && CanMove(call, AckReturns(ok), {})
    ensures CallOk(hasAdmitter, Acked(call, ok))
  {
  }

  lemma ClosedOk(hasAdmitter: bool, call: Call)
    requires CallOk(hasAdmitter, call) && call.pc.Close?
    ensures CallOk(hasAdmitter, call.(pc := Done(call.pc.why), closed := true))
  {
  }

  lemma AttachedOk(hasAdmitter: bool, call: Call, ok: bool)
    requires CallOk(hasAdmitter, call) && call.pc.Attach?
    ensures CallOk(hasAdmitter, Moved(0, call, AttachReturns(ok), {}))
  {
  }

  lemma AnsweredOk(hasAdmitter: bool, c: CallId, call: Call, m: Move, woken: set<CallId>)
    requires CallOk(hasAdmitter, call) && CanMove(call, m, woken)
    requires m.FallbackReturns? || m.AdmitterReturns? || m.FactoryReturns?
    ensures CallOk(hasAdmitter, Moved(c, call, m, woken))
  {
  }

  lemma MoveOk(hasAdmitter: bool, c: CallId, call: Call, m: Move, woken: set<CallId>)
    requires CallOk(hasAdmitter, call) && CanMove(call, m, woken)
    ensures CallOk(hasAdmitter, Moved(c, call, m, woken))
  {
    match m
    case AckReturns(ok) => AckOk(hasAdmitter, call, ok);
    case CloseUnderlay => ClosedOk(hasAdmitter, call);
    case AttachReturns(ok) => AttachedOk(hasAdmitter, call, ok);
    case FallbackReturns(_) => AnsweredOk(hasAdmitter, c, call, m, woken);
    case AdmitterReturns(_) => AnsweredOk(hasAdmitter, c, call, m, woken);
    case FactoryReturns(_) => AnsweredOk(hasAdmitter, c, call, m, woken);
    case Dispatch =>
    case Wake =>
    case Timeout =>
  }

  /** Where a locked section may take a call. */
  predicate SectionMoves(hasAdmitter: bool, pc: Pc, pc': Pc) {
    match pc
    case Lookup => pc'.AckAttach? || pc'.Waiting? || pc' == Close(NoGroup)
        || pc' == (if hasAdmitter then Admit else AckCreate)
    case Publish => pc' == PublishWrite || pc' == Release(Stillborn)
    case PublishWrite => pc' == Release(Created)
    case Release(why) => pc' == if why.Rejected? || why.CreateAckFailed? then Close(why) else Done(why)
    case _ => false
  }

  lemma SectionOk(s: State, c: CallId, t: State)
    requires CallsOk(s) && c in s.calls && c in t.calls && t.hasAdmitter == s.hasAdmitter
    requires SectionMoves(s.hasAdmitter, s.calls[c].pc, t.calls[c].pc)
    requires t.calls == s.calls[c := s.calls[c].(pc := t.calls[c].pc)]
    ensures CallsOk(t)
  {
    forall d ensures CallOkAt(t, d) { assert CallOkAt(s, d); }
  }

  lemma AdvanceKeepsCalls(s: State, c: CallId, call: Call)
    requires CallsOk(s) && CallOk(s.hasAdmitter, call)
    ensures CallsOk(Put(s, c, call))
  {
    forall d ensures CallOkAt(Put(s, c, call), d) { assert CallOkAt(s, d); }
  }

  lemma LookupKeepsCalls(s: State, c: CallId)
    requires CallsOk(s) && Enabled(s, LookupSection(c))
    ensures CallsOk(ApplyLookup(s, c))
  {
    SectionOk(s, c, ApplyLookup(s, c));
  }

  lemma PublishKeepsCalls(s: State, c: CallId)
    requires CallsOk(s)
    ensures Enabled(s, PublishCheck(c)) ==> CallsOk(Apply(s, PublishCheck(c)))
    ensures Enabled(s, PublishStore(c)) ==> CallsOk(Apply(s, PublishStore(c)))
  {
    if Enabled(s, PublishCheck(c)) { SectionOk(s, c, Apply(s, PublishCheck(c))); }
    if Enabled(s, PublishStore(c)) { SectionOk(s, c, Apply(s, PublishStore(c))); }
  }

  lemma StepKeepsCalls(s: State, st: Step)
    requires CallsOk(s) && Enabled(s, st)
    ensures CallsOk(Apply(s, st))
  {
    match st
    case Arrive(c, id, g, f) => AdvanceKeepsCalls(s, c, Call(id, g, f, Begin, 0, 0, 0, false, Unowned));
    case Advance(c, m) =>
      assert CallOkAt(s, c);
      MoveOk(s.hasAdmitter, c, s.calls[c], m, s.woken);
      AdvanceKeepsCalls(s, c, Moved(c, s.calls[c], m, s.woken));
    case LookupSection(c) => LookupKeepsCalls(s, c);
    case PublishCheck(c) => PublishKeepsCalls(s, c);
    case PublishStore(c) => PublishKeepsCalls(s, c);
    case ReleaseSection(c) => SectionOk(s, c, ApplyRelease(s, c));
    case _ => forall d ensures CallOkAt(Apply(s, st), d) { assert CallOkAt(s, d); }
  }

  lemma MoveTargets(s: State, c: CallId, m: Move)
    requires c in s.calls && CanMove(s.calls[c], m, s.woken) && TargetOk(s, s.calls[c])
    ensures var call := Moved(c, s.calls[c], m, s.woken); TargetOk(s, call) && call.chId == s.calls[c].chId
    ensures !Published(s.calls[c].pc)
  {
  }

  lemma PutTargets(s: State, c: CallId, call: Call, t: State)
    requires forall d :: TargetShape(s, d)
    requires TargetOk(s, call) && t.calls == s.calls[c := call]
    requires c in s.calls ==> call.chId == s.calls[c].chId && (Published(s.calls[c].pc) ==> Published(call.pc))
    ensures forall d :: TargetShape(t, d)
  {
    forall d ensures TargetShape(t, d) { assert TargetShape(s, d); }
  }

  lemma SectionTargets(s: State, c: CallId, t: State)
    requires (forall d :: TargetShape(s, d)) && c in s.calls && c in t.calls
    requires t.calls == s.calls[c := s.calls[c].(pc := t.calls[c].pc)]
    requires !t.calls[c].pc.AckAttach? && !t.calls[c].pc.Attach?
    requires Published(s.calls[c].pc) ==> Published(t.calls[c].pc)
    ensures forall d :: TargetShape(t, d)
  {
    assert TargetShape(s, c);
    PutTargets(s, c, t.calls[c], t);
  }

  lemma LookupTargets(s: State, c: CallId)
    requires (forall d :: TargetShape(s, d)) && Enabled(s, LookupSection(c)) && ChannelShape(s, s.calls[c].chId)
    ensures forall d :: TargetShape(ApplyLookup(s, c), d)
  {
    assert TargetShape(s, c);
    PutTargets(s, c, s.calls[c].(pc := LookupPc(s, c)), ApplyLookup(s, c));
  }

  lemma AdvanceTargets(s: State, c: CallId, m: Move, t: State)
    requires (forall d :: TargetShape(s, d)) && c in s.calls && CanMove(s.calls[c], m, s.woken)
    requires t == Put(s, c, Moved(c, s.calls[c], m, s.woken))
    ensures forall d :: TargetShape(t, d)
  {
    assert TargetShape(s, c);
    MoveTargets(s, c, m);
    PutTargets(s, c, Moved(c, s.calls[c], m, s.woken), t);
  }

  lemma OtherTargets(s: State, t: State)
    requires (forall d :: TargetShape(s, d)) && t.calls == s.calls
    ensures forall d :: TargetShape(t, d)
  {
    forall d ensures TargetShape(t, d) { assert TargetShape(s, d); }
  }

  lemma LockedTargets(s: State, c: CallId, st: Step)
    requires (forall d :: TargetShape(s, d)) && Enabled(s, st)
    requires st == PublishCheck(c) || st == PublishStore(c) || st == ReleaseSection(c)
    ensures forall d :: TargetShape(Apply(s, st), d)
  {
    SectionTargets(s, c, Apply(s, st));
  }

  lemma StepKeepsTargets(s: State, st: Step)
    requires (forall c :: TargetShape(s, c)) && (forall id :: ChannelShape(s, id)) && Enabled(s, st)
    ensures forall c :: TargetShape(Apply(s, st), c)
  {
    var t := Apply(s, st);
    match st
    case Arrive(c, id, g, f) => PutTargets(s, c, Call(id, g, f, Begin, 0, 0, 0, false, Unowned), t);
    case Advance(c, m) => AdvanceTargets(s, c, m, t);
    case LookupSection(c) =>
      assert ChannelShape(s, s.calls[c].chId);
      LookupTargets(s, c);
    case PublishCheck(c) => LockedTargets(s, c, st);
    case PublishStore(c) => LockedTargets(s, c, st);
    case ReleaseSection(c) => LockedTargets(s, c, st);
    case ChannelCloses(c) => OtherTargets(s, t);
    case CallbackStore(cb, c) => OtherTargets(s, t);
    case CallbackSection(cb) => OtherTargets(s, t);
  }

  lemma StepKeepsInv(s: State, st: Step)
    requires Inv(s) && Enabled(s, st)
    ensures Inv(Apply(s, st))
  {
    StepKeepsCalls(s, st);
    StepKeepsTargets(s, st);
    match st
    case Arrive(c, id, g, f) => QuietStep(s, c, Call(id, g, f, Begin, 0, 0, 0, false, Unowned));
    case Advance(c, m) =>
      assert CallOkAt(s, c);
      MoveQuiet(s.hasAdmitter, c, s.calls[c], m, s.woken);
      QuietStep(s, c, Moved(c, s.calls[c], m, s.woken));
    case LookupSection(c) => LookupStep(s, c);
    case PublishCheck(c) => PublishCheckStep(s, c);
    case PublishStore(c) => PublishStoreStep(s, c);
    case ReleaseSection(c) => ReleaseStep(s, c);
    case ChannelCloses(c) => ChannelCloseStep(s, c);
    case CallbackStore(cb, c) => CallbackStoreStep(s, cb, c);
    case CallbackSection(cb) => CallbackStep(s, cb);
  }
}
