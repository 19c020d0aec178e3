/**
 The life of a channel (impl.go) and of its collection of underlays (underlays.go) as a transition
 system: underlays being offered, accepted and lost, the channel being closed, and the goroutines
 that enforce the configured constraints.

 Two locks are involved.  The lock of the `Underlays` collection protects single operations, which
 are single steps here.  The channel lock is held across several steps, during which everything
 that does not need it carries on; `Lock` says who holds it and how far the holder has got.
 */
module ChannelLife {
  import opened Wrappers

  /** An underlay object.  Its type, and whether it carries the group's secret, never change. */
  datatype Underlay = Underlay(id: nat, kind: string, secretOk: bool)

  datatype Constraint = Constraint(min: int, desired: int)

  datatype Config = Config(constraints: map<string, Constraint>, minTotal: int, hasPolicy: bool)

  predicate MultiCapable(cfg: Config) {
    cfg.hasPolicy || cfg.constraints != map[] || cfg.minTotal > 0
  }

  // ---------- The collection ----------

  function CountOf(entries: seq<Underlay>, kind: string): nat {
    if entries == [] then 0
    else CountOf(entries[..|entries| - 1], kind) + if entries[|entries| - 1].kind == kind then 1 else 0
  }

  /** `entries` with the first occurrence of `u` spliced out. */
  function Without(entries: seq<Underlay>, u: Underlay): seq<Underlay> {
    if entries == [] then []
    else if entries[0] == u then entries[1..]
    else [entries[0]] + Without(entries[1..], u)
  }

  predicate MinsMet(cfg: Config, entries: seq<Underlay>) {
    && (forall k | k in cfg.constraints :: cfg.constraints[k].min <= CountOf(entries, k))
    && cfg.minTotal <= |entries|
  }

  predicate Wanted(cfg: Config, entries: seq<Underlay>, kind: string) {
    kind in cfg.constraints && cfg.constraints[kind].desired > CountOf(entries, kind)
  }

  predicate DesiresMet(cfg: Config, entries: seq<Underlay>) {
    forall k | k in cfg.constraints :: !Wanted(cfg, entries, k)
  }

  // ---------- Goroutines ----------

  datatype Side = Rx | Tx

  /** The receiving or the sending goroutine of an underlay. */
  datatype Pump = Pump(u: Underlay, side: Side)

  datatype PumpPc =
    | Running
    | Removing      // underlay.Close() has been called
    | Notifying     // removed from the collection, UnderlayRemoved is due
    | WantsClose    // a simple channel lost its last underlay
    | AwaitFix      // about to fix up the fallback underlay
    | Stopped

  datatype ApplyPc =
    | Start
    | CheckMin
    | TryGuard
    | CloseChannel(guarded: bool)
    | Loop
    | Counting
    | Filling(todo: set<string>)
    | Dialing(kind: string, todo: set<string>)
    | Offering(u: Underlay, todo: set<string>)
    | Releasing
    | RecheckClosed
    | RecheckCounts

  datatype Caller = User | PumpCaller(pump: Pump) | ApplyCaller(a: nat)

  datatype Lock =
    | Free
    | Accepting(u: Underlay, from: Option<nat>)            // fallback stored, not yet added
    | Closing(caller: Caller, todo: Option<seq<Underlay>>)
    | Fixing(pump: Pump, pick: Underlay)                 // fallback was pump's, replacement chosen

  datatype State = State(
    cfg: Config,
    closed: bool,
    entries: seq<Underlay>,
    added: set<Underlay>,
    removed: set<Underlay>,
    reports: multiset<Underlay>,      // UnderlayRemoved notifications
    shut: set<Underlay>,              // underlays on which Close was called
    offered: set<Underlay>,
    waiting: set<Underlay>,           // offered from outside, AcceptUnderlay not yet entered
    fallback: Underlay,
    lock: Lock,
    pumps: map<Pump, PumpPc>,
    guard: Option<nat>,               // applyInProgress, with the goroutine that set it
    appliers: map<nat, ApplyPc>)      // applyConstraints goroutines that have not returned

  datatype ApplyMove =
    | Enter
    | Check
    | Guard
    | LoopTest
    | Count
    | Pick(kind: string)
    | NoneLeft
    | DialFails
    | DialReturns(u: Underlay)
    | Unguard
    | TestClosed

  datatype Step =
    | Offer(u: Underlay)
    | AcceptBegin(u: Underlay, from: Option<nat>)
    | AcceptAdd
    | CloseBegin(caller: Caller)
    | CloseSnapshot
    | CloseOne
    | CloseEnd
    | PumpStops(p: Pump)
    | PumpRemoves(p: Pump)
    | PumpNotifies(p: Pump, spawn: nat)
    | FixLoad(p: Pump)
    | FixStore
    | Apply(a: nat, move: ApplyMove)
    | Recount(a: nat, spawn: nat)

  predicate PumpAt(s: State, p: Pump, pc: PumpPc) {
    p in s.pumps && s.pumps[p] == pc
  }

  predicate ApplierAt(s: State, a: nat, pc: ApplyPc) {
    a in s.appliers && s.appliers[a] == pc
  }

  predicate OffersNow(s: State, u: Underlay, from: Option<nat>) {
    match from
    case None => u in s.waiting
    case Some(a) => a in s.appliers && s.appliers[a].Offering? && s.appliers[a].u == u
  }

  predicate Ready(s: State, caller: Caller) {
    match caller
    case User => true
    case PumpCaller(p) => PumpAt(s, p, WantsClose)
    case ApplyCaller(a) => a in s.appliers && s.appliers[a].CloseChannel?
  }

  predicate CanApply(s: State, pc: ApplyPc, m: ApplyMove) {
    match m
    case Enter => pc.Start?
    case Check => pc.CheckMin?
    case Guard => pc.TryGuard?
    case LoopTest => pc.Loop?
    case Count => pc.Counting?
    case Pick(kind) => pc.Filling? && kind in pc.todo
    case NoneLeft => pc.Filling? && pc.todo == {}
    case DialFails => pc.Dialing?
    case DialReturns(u) => pc.Dialing? && u !in s.offered
    case Unguard => pc.Releasing?
    case TestClosed => pc.RecheckClosed?
  }

  predicate Enabled(s: State, st: Step) {
    match st
    case Offer(u) => u !in s.offered
    case AcceptBegin(u, from) => s.lock.Free? && OffersNow(s, u, from)
    case AcceptAdd => s.lock.Accepting? && (s.lock.from.Some? ==> OffersNow(s, s.lock.u, s.lock.from))
    case CloseBegin(c) => s.lock.Free? && Ready(s, c)
    case CloseSnapshot => s.lock.Closing? && s.lock.todo.None?
    case CloseOne => s.lock.Closing? && s.lock.todo.Some? && s.lock.todo.value != []
    case CloseEnd => s.lock.Closing? && s.lock.todo == Some([]) && Ready(s, s.lock.caller)
    case PumpStops(p) => PumpAt(s, p, Running)
    case PumpRemoves(p) => PumpAt(s, p, Removing)
    case PumpNotifies(p, spawn) => PumpAt(s, p, Notifying) && spawn !in s.appliers
    case FixLoad(p) => PumpAt(s, p, AwaitFix) && s.lock.Free?
    case FixStore => s.lock.Fixing?
    case Apply(a, m) => a in s.appliers && CanApply(s, s.appliers[a], m)
    case Recount(a, spawn) => ApplierAt(s, a, RecheckCounts) && spawn !in s.appliers
  }

  function SetPump(s: State, p: Pump, pc: PumpPc): State {
    s.(pumps := s.pumps[p := pc])
  }

  function SetApplier(s: State, a: nat, pc: ApplyPc): State {
    s.(appliers := s.appliers[a := pc])
  }

  function Return(s: State, a: nat): State {
    s.(appliers := s.appliers - {a})
  }

  /** The caller of Close carries on. */
  function Resume(s: State, caller: Caller): State
    requires Ready(s, caller)
  {
    match caller
    case User => s
    case PumpCaller(p) => SetPump(s, p, AwaitFix)
    case ApplyCaller(a) => if s.appliers[a].guarded then SetApplier(s, a, Releasing) else Return(s, a)
  }

  /** AcceptUnderlay is over for `u`: the offer is settled. */
  function Settle(s: State, u: Underlay, from: Option<nat>): State
    requires from.Some? ==> OffersNow(s, u, from)
  {
    match from
    case None => s.(waiting := s.waiting - {u})
    case Some(a) => SetApplier(s, a, Filling(s.appliers[a].todo))
  }

  predicate Accepts(s: State, u: Underlay) {
    MultiCapable(s.cfg) && u.secretOk && !s.closed
  }

  /** AcceptUnderlay up to the point where it has stored the fallback, or closed the underlay. */
  function ApplyAcceptBegin(s: State, u: Underlay, from: Option<nat>): State
    requires OffersNow(s, u, from)
  {
    if Accepts(s, u) then s.(fallback := u, lock := Accepting(u, from), waiting := s.waiting - {u})
    else Settle(s.(shut := s.shut + {u}), u, from)
  }

  /** Underlays.Add and startMultiplex. */
  function ApplyAcceptAdd(s: State): State
    requires Enabled(s, AcceptAdd)
  {
    var u := s.lock.u;
    Settle(s, u, s.lock.from).(
      entries := s.entries + [u], added := s.added + {u}, lock := Free,
      pumps := s.pumps[Pump(u, Rx) := Running][Pump(u, Tx) := Running])
  }

  /** Underlays.Remove up to its notifications. */
  function ApplyRemove(s: State, p: Pump): State {
    if p.u in s.entries then
      SetPump(s.(entries := Without(s.entries, p.u), removed := s.removed + {p.u}), p, Notifying)
    else SetPump(s, p, AwaitFix)
  }

  /** UnderlayRemoved. */
  function ApplyNotify(s: State, p: Pump, spawn: nat): State {
    var t := s.(reports := s.reports + multiset{p.u});
    if MultiCapable(s.cfg) then SetApplier(SetPump(t, p, AwaitFix), spawn, Start)
    else SetPump(t, p, if s.entries == [] then WantsClose else AwaitFix)
  }

  function ApplyFixLoad(s: State, p: Pump): State {
    if s.fallback == p.u && s.entries != [] then s.(lock := Fixing(p, s.entries[|s.entries| - 1]))
    else SetPump(s, p, Stopped)
  }

  /** The kinds of which one more underlay is to be dialed. */
  function Shortfall(cfg: Config, entries: seq<Underlay>): set<string> {
    set k | k in cfg.constraints && Wanted(cfg, entries, k)
  }

  function ApplyMoveStep(s: State, a: nat, m: ApplyMove): State
    requires a in s.appliers && CanApply(s, s.appliers[a], m)
  {
    var pc := s.appliers[a];
    match m
    case Enter =>
      if (s.cfg.constraints == map[] && s.cfg.minTotal == 0) || s.closed then Return(s, a)
      else SetApplier(s, a, CheckMin)
    case Check => SetApplier(s, a, if MinsMet(s.cfg, s.entries) then TryGuard else CloseChannel(false))
    case Guard =>
      if s.guard.Some? then Return(s, a)
      else SetApplier(s, a, if s.cfg.hasPolicy then Loop else Releasing).(guard := Some(a))
    case LoopTest => SetApplier(s, a, if s.closed then Releasing else Counting)
    case Count =>
      if !MinsMet(s.cfg, s.entries) then SetApplier(s, a, CloseChannel(true))
      else SetApplier(s, a, if Shortfall(s.cfg, s.entries) == {} then Releasing
                            else Filling(Shortfall(s.cfg, s.entries)))
    case Pick(kind) => SetApplier(s, a, Dialing(kind, pc.todo - {kind}))
    case NoneLeft => SetApplier(s, a, Loop)
    case DialFails => SetApplier(s, a, Filling(pc.todo))
    case DialReturns(u) => SetApplier(s, a, Offering(u, pc.todo)).(offered := s.offered + {u})
    case Unguard => SetApplier(s, a, RecheckClosed).(guard := None)
    case TestClosed => if s.cfg.hasPolicy && !s.closed then SetApplier(s, a, RecheckCounts) else Return(s, a)
  }

  function ApplyRecount(s: State, a: nat, spawn: nat): State {
    if DesiresMet(s.cfg, s.entries) then Return(s, a) else SetApplier(Return(s, a), spawn, Start)
  }

  function Next(s: State, st: Step): State
    requires Enabled(s, st)
  {
    match st
    case Offer(u) => s.(offered := s.offered + {u}, waiting := s.waiting + {u})
    case AcceptBegin(u, from) => ApplyAcceptBegin(s, u, from)
    case AcceptAdd => ApplyAcceptAdd(s)
    case CloseBegin(c) => if s.closed then Resume(s, c) else s.(closed := true, lock := Closing(c, None))
    case CloseSnapshot => s.(lock := Closing(s.lock.caller, Some(s.entries)))
    case CloseOne => s.(shut := s.shut + {s.lock.todo.value[0]}, lock := Closing(s.lock.caller,
        Some(s.lock.todo.value[1..])))
    case CloseEnd => Resume(s, s.lock.caller).(lock := Free)
    case PumpStops(p) => SetPump(s.(shut := s.shut + {p.u}), p, Removing)
    case PumpRemoves(p) => ApplyRemove(s, p)
    case PumpNotifies(p, spawn) => ApplyNotify(s, p, spawn)
    case FixLoad(p) => ApplyFixLoad(s, p)
    case FixStore => SetPump(s.(fallback := s.lock.pick, lock := Free), s.lock.pump, Stopped)
    case Apply(a, m) => ApplyMoveStep(s, a, m)
    case Recount(a, spawn) => ApplyRecount(s, a, spawn)
  }

  /** NewChannel has added and started its first underlay and spawned applyConstraints. */
  function Initial(cfg: Config, u: Underlay): State {
    State(cfg, false, [u], {u}, {}, multiset{}, {}, {u}, {}, u, Free,
          map[Pump(u, Rx) := Running, Pump(u, Tx) := Running], None, map[0 := Start])
  }

  ghost predicate IsRun(states: seq<State>, steps: seq<Step>) {
    && |states| == |steps| + 1
    && (exists cfg, u :: states[0] == Initial(cfg, u))
    && forall i | 0 <= i < |steps| :: Enabled(states[i], steps[i]) && states[i + 1] == Next(states[i], steps[i])
  }
}
