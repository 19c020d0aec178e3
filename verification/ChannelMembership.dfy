/** Membership, closing and the fallback underlay: what every step of the channel keeps. */
module ChannelMembership {
  import opened Wrappers
  import opened ChannelLife

  predicate Distinct(es: seq<Underlay>) {
    forall i, j | 0 <= i < j < |es| :: es[i] != es[j]
  }

  /** A closeUnderlay for `p.u` has removed it, or found it removed, and not yet done its fix-up. */
  predicate FixDue(s: State, p: Pump) {
    p in s.pumps && (s.pumps[p].Notifying? || s.pumps[p].WantsClose? || s.pumps[p].AwaitFix?)
  }

  predicate FixPending(s: State, u: Underlay) {
    FixDue(s, Pump(u, Rx)) || FixDue(s, Pump(u, Tx))
  }

  predicate UnderlayShape(s: State, u: Underlay) {
    && (u in s.entries <==> u in s.added && u !in s.removed)
    && (u in s.removed ==> u in s.added && u in s.shut)
    && (u in s.added ==> u in s.offered && u !in s.waiting)
    && (u in s.waiting ==> u in s.offered)
    && s.reports[u] <= (if u in s.removed then 1 else 0)
    && (s.closed && u in s.added && u !in s.shut ==>
          s.lock.Closing? && (s.lock.todo.Some? ==> u in s.lock.todo.value))
  }

  function Other(p: Pump): Pump {
    Pump(p.u, if p.side.Rx? then Tx else Rx)
  }

  predicate PumpShape(s: State, p: Pump) {
    p in s.pumps ==>
      && p.u in s.added && Other(p) in s.pumps
      && (!s.pumps[p].Running? ==> p.u in s.shut)
      && (!s.pumps[p].Running? && !s.pumps[p].Removing? ==> p.u in s.removed)
      && (s.pumps[p].Notifying? ==> s.reports[p.u] == 0 && !s.pumps[Other(p)].Notifying?)
  }

  predicate Guarded(pc: ApplyPc) {
    || pc.Loop? || pc.Counting? || pc.Filling? || pc.Dialing? || pc.Offering? || pc.Releasing?
    || (pc.CloseChannel? && pc.guarded)
  }

  predicate ApplierShape(s: State, a: nat) {
    && (s.guard == Some(a) ==> a in s.appliers)
    && (a in s.appliers ==>
          var pc := s.appliers[a];
          && (Guarded(pc) <==> s.guard == Some(a))
          && (pc.Offering? ==>
                && pc.u in s.offered && pc.u !in s.waiting && pc.u !in s.added
                && (s.lock.Accepting? && s.lock.u == pc.u ==> s.lock.from == Some(a))))
  }

  predicate LockShape(s: State) {
    match s.lock
    case Free => true
    case Accepting(u, from) =>
      && !s.closed && u in s.offered && u !in s.added && u !in s.waiting && s.fallback == u
      && (from.Some? ==> OffersNow(s, u, from))
    case Closing(caller, todo) => s.closed && Ready(s, caller)
    case Fixing(p, pick) =>
      && PumpAt(s, p, AwaitFix) && s.fallback == p.u && pick != p.u
      && pick in s.added && (pick in s.entries || FixPending(s, pick))
  }

  predicate FallbackOk(s: State) {
    s.entries == [] || s.fallback in s.entries || (s.lock.Accepting?
        && s.lock.u == s.fallback) || FixPending(s, s.fallback)
  }

  ghost predicate Inv(s: State) {
    && Distinct(s.entries)
    && (forall u :: UnderlayShape(s, u))
    && (forall p :: PumpShape(s, p))
    && (forall a :: ApplierShape(s, a))
    && LockShape(s)
    && FallbackOk(s)
  }

  // ---------- Splicing ----------

  lemma {:induction false} WithoutIs(es: seq<Underlay>, u: Underlay)
    requires Distinct(es)
    ensures Distinct(Without(es, u))
    ensures forall v :: v in Without(es, u) <==> v in es && v != u
  {
    if es != [] {
      WithoutIs(es[1..], u);
      if es[0] != u {
        var w := Without(es[1..], u);
        assert Without(es, u) == [es[0]] + w;
        forall j | 0 <= j < |w| ensures w[j] != es[0] { assert w[j] in es[1..]; }
        forall v ensures v in Without(es, u) <==> v in es && v != u {
          assert v in es <==> v == es[0] || v in es[1..];
        }
      } else {
        forall v ensures v in es[1..] <==> v in es && v != u {
          assert v in es <==> v == es[0] || v in es[1..];
        }
      }
    }
  }

  // ---------- Steps ----------

  lemma OfferStep(s: State, u: Underlay)
    requires Inv(s) && Enabled(s, Offer(u))
    ensures Inv(Next(s, Offer(u)))
  {
    var t := Next(s, Offer(u));
    assert UnderlayShape(s, u);
    forall v ensures UnderlayShape(t, v) { assert UnderlayShape(s, v); }
    forall p ensures PumpShape(t, p) { assert PumpShape(s, p); }
    forall a ensures ApplierShape(t, a) { assert ApplierShape(s, a); }
  }

  lemma AcceptBeginStep(s: State, u: Underlay, from: Option<nat>)
    requires Inv(s) && Enabled(s, AcceptBegin(u, from))
    ensures Inv(ApplyAcceptBegin(s, u, from))
  {
    var t := ApplyAcceptBegin(s, u, from);
    assert UnderlayShape(s, u);
    if from.Some? { assert ApplierShape(s, from.value); }
    forall v ensures UnderlayShape(t, v) { assert UnderlayShape(s, v); }
    forall p ensures PumpShape(t, p) { assert PumpShape(s, p); }
    forall a ensures ApplierShape(t, a) { assert ApplierShape(s, a); }
  }

  lemma AcceptAddStep(s: State)
    requires Inv(s) && Enabled(s, AcceptAdd)
    ensures Inv(ApplyAcceptAdd(s))
  {
    var t := ApplyAcceptAdd(s);
    assert UnderlayShape(s, s.lock.u);
    forall v ensures UnderlayShape(t, v) { assert UnderlayShape(s, v); }
    forall p ensures PumpShape(t, p) { assert PumpShape(s, p); }
    forall a ensures ApplierShape(t, a) { assert ApplierShape(s, a); }
  }

  lemma UnlockStep(s: State)
    requires Inv(s) && (s.lock.Free? || (s.lock.Closing? && s.lock.todo == Some([])))
    ensures Inv(s.(lock := Free))
  {
    var t := s.(lock := Free);
    forall v ensures UnderlayShape(t, v) { assert UnderlayShape(s, v); }
    forall p ensures PumpShape(t, p) { assert PumpShape(s, p); }
    forall a ensures ApplierShape(t, a) { assert ApplierShape(s, a); }
  }

  lemma ResumeStep(s: State, caller: Caller)
    requires Inv(s) && s.lock.Free? && Ready(s, caller)
    ensures Inv(Resume(s, caller))
  {
    var t := Resume(s, caller);
    if caller.ApplyCaller? { assert ApplierShape(s, caller.a); }
    forall v ensures UnderlayShape(t, v) { assert UnderlayShape(s, v); }
    forall p ensures PumpShape(t, p) { assert PumpShape(s, p); }
    forall a ensures ApplierShape(t, a) { assert ApplierShape(s, a); }
  }

  lemma CloseBeginStep(s: State, caller: Caller)
    requires Inv(s) && Enabled(s, CloseBegin(caller))
    ensures Inv(Next(s, CloseBegin(caller)))
  {
    var t := Next(s, CloseBegin(caller));
    if s.closed {
      ResumeStep(s, caller);
    } else {
      forall v ensures UnderlayShape(t, v) { assert UnderlayShape(s, v); }
      forall p ensures PumpShape(t, p) { assert PumpShape(s, p); }
      forall a ensures ApplierShape(t, a) { assert ApplierShape(s, a); }
    }
  }

  lemma CloseLoopStep(s: State, st: Step)
    requires Inv(s) && Enabled(s, st) && (st.CloseSnapshot? || st.CloseOne?)
    ensures Inv(Next(s, st))
  {
    var t := Next(s, st);
    forall v ensures UnderlayShape(t, v) { assert UnderlayShape(s, v); }
    forall p ensures PumpShape(t, p) { assert PumpShape(s, p); }
    forall a ensures ApplierShape(t, a) { assert ApplierShape(s, a); }
  }

  lemma PumpStopsStep(s: State, p: Pump)
    requires Inv(s) && Enabled(s, PumpStops(p))
    ensures Inv(Next(s, PumpStops(p)))
  {
    var t := Next(s, PumpStops(p));
    forall v ensures UnderlayShape(t, v) { assert UnderlayShape(s, v); }
    forall q ensures PumpShape(t, q) { assert PumpShape(s, q) && PumpShape(s, p); }
    forall a ensures ApplierShape(t, a) { assert ApplierShape(s, a); }
  }

  lemma RemoveAbsentStep(s: State, p: Pump)
    requires Inv(s) && PumpAt(s, p, Removing) && p.u !in s.entries
    ensures Inv(SetPump(s, p, AwaitFix))
  {
    var t := SetPump(s, p, AwaitFix);
    assert UnderlayShape(s, p.u) && PumpShape(s, p);
    forall v ensures UnderlayShape(t, v) { assert UnderlayShape(s, v); }
    forall q ensures PumpShape(t, q) { assert PumpShape(s, q); }
    forall a ensures ApplierShape(t, a) { assert ApplierShape(s, a); }
  }

  lemma RemovePresentStep(s: State, p: Pump, es: seq<Underlay>)
    requires Inv(s) && PumpAt(s, p, Removing) && p.u in s.entries
    requires Distinct(es) && forall v :: v in es <==> v in s.entries && v != p.u
    ensures Inv(SetPump(s.(entries := es, removed := s.removed + {p.u}), p, Notifying))
  {
    var t := SetPump(s.(entries := es, removed := s.removed + {p.u}), p, Notifying);
    assert UnderlayShape(s, p.u) && PumpShape(s, p) && PumpShape(s, Other(p));
    forall v ensures UnderlayShape(t, v) { assert UnderlayShape(s, v); }
    forall q ensures PumpShape(t, q) { assert PumpShape(s, q); }
    forall a ensures ApplierShape(t, a) { assert ApplierShape(s, a); }
    if es != [] { assert es[0] in es && es[0] in s.entries; }
  }

  lemma PumpRemovesStep(s: State, p: Pump)
    requires Inv(s) && Enabled(s, PumpRemoves(p))
    ensures Inv(ApplyRemove(s, p))
  {
    if p.u in s.entries {
      WithoutIs(s.entries, p.u);
      RemovePresentStep(s, p, Without(s.entries, p.u));
    } else {
      RemoveAbsentStep(s, p);
    }
  }

  lemma PumpNotifiesStep(s: State, p: Pump, pc: PumpPc)
    requires Inv(s) && PumpAt(s, p, Notifying) && (pc.AwaitFix? || pc.WantsClose?)
    ensures Inv(SetPump(s.(reports := s.reports + multiset{p.u}), p, pc))
  {
    var t := SetPump(s.(reports := s.reports + multiset{p.u}), p, pc);
    assert PumpShape(s, p);
    forall v ensures UnderlayShape(t, v) { assert UnderlayShape(s, v); }
    forall q ensures PumpShape(t, q) { assert PumpShape(s, q); }
    forall a ensures ApplierShape(t, a) { assert ApplierShape(s, a); }
  }

  lemma FixLoadStep(s: State, p: Pump)
    requires Inv(s) && Enabled(s, FixLoad(p))
    ensures Inv(ApplyFixLoad(s, p))
  {
    var t := ApplyFixLoad(s, p);
    assert PumpShape(s, p) && UnderlayShape(s, p.u);
    if s.entries != [] { assert UnderlayShape(s, s.entries[|s.entries| - 1]); }
    forall v ensures UnderlayShape(t, v) { assert UnderlayShape(s, v); }
    forall q ensures PumpShape(t, q) { assert PumpShape(s, q); }
    forall a ensures ApplierShape(t, a) { assert ApplierShape(s, a); }
  }

  lemma FixStoreStep(s: State)
    requires Inv(s) && Enabled(s, FixStore)
    ensures Inv(Next(s, FixStore))
  {
    var t := Next(s, FixStore);
    forall v ensures UnderlayShape(t, v) { assert UnderlayShape(s, v); }
    forall q ensures PumpShape(t, q) { assert PumpShape(s, q); }
    forall a ensures ApplierShape(t, a) { assert ApplierShape(s, a); }
  }

  /** An applyConstraints goroutine starts, or moves on from anything but an offer or a call to Close. */
  lemma SetApplierStep(s: State, a: nat, pc: ApplyPc, guard: Option<nat>)
    requires Inv(s)
    requires a in s.appliers ==> !s.appliers[a].Offering? && !s.appliers[a].CloseChannel?
    requires !pc.Offering? && (Guarded(pc) <==> guard == Some(a))
    requires if s.guard == Some(a) then guard == s.guard || guard == None
             else guard == s.guard || (s.guard == None && guard == Some(a))
    ensures Inv(SetApplier(s, a, pc).(guard := guard))
  {
    var t := SetApplier(s, a, pc).(guard := guard);
    forall v ensures UnderlayShape(t, v) { assert UnderlayShape(s, v); }
    forall q ensures PumpShape(t, q) { assert PumpShape(s, q); }
    forall b ensures ApplierShape(t, b) { assert ApplierShape(s, b); }
  }

  lemma ReturnStep(s: State, a: nat)
    requires Inv(s) && a in s.appliers && !Guarded(s.appliers[a]) && !s.appliers[a].CloseChannel?
    ensures Inv(Return(s, a))
  {
    var t := Return(s, a);
    assert ApplierShape(s, a);
    forall v ensures UnderlayShape(t, v) { assert UnderlayShape(s, v); }
    forall q ensures PumpShape(t, q) { assert PumpShape(s, q); }
    forall b ensures ApplierShape(t, b) { assert ApplierShape(s, b); }
  }

  lemma DialReturnsStep(s: State, a: nat, u: Underlay)
    requires Inv(s) && Enabled(s, Apply(a, DialReturns(u)))
    ensures Inv(ApplyMoveStep(s, a, DialReturns(u)))
  {
    var t := ApplyMoveStep(s, a, DialReturns(u));
    assert ApplierShape(s, a) && UnderlayShape(s, u);
    forall v ensures UnderlayShape(t, v) { assert UnderlayShape(s, v); }
    forall q ensures PumpShape(t, q) { assert PumpShape(s, q); }
    forall b ensures ApplierShape(t, b) { assert ApplierShape(s, b); }
  }

  lemma ApplyStep(s: State, a: nat, m: ApplyMove)
    requires Inv(s) && Enabled(s, Apply(a, m))
    ensures Inv(ApplyMoveStep(s, a, m))
  {
    var t := ApplyMoveStep(s, a, m);
    assert ApplierShape(s, a);
    if m.DialReturns? {
      DialReturnsStep(s, a, m.u);
    } else if a in t.appliers {
      SetApplierStep(s, a, t.appliers[a], t.guard);
    } else {
      ReturnStep(s, a);
    }
  }

  lemma RecountStep(s: State, a: nat, spawn: nat)
    requires Inv(s) && Enabled(s, Recount(a, spawn))
    ensures Inv(ApplyRecount(s, a, spawn))
  {
    ReturnStep(s, a);
    if !DesiresMet(s.cfg, s.entries) {
      assert ApplierShape(s, spawn);
      SetApplierStep(Return(s, a), spawn, Start, s.guard);
    }
  }

  lemma NotifyStep(s: State, p: Pump, spawn: nat)
    requires Inv(s) && Enabled(s, PumpNotifies(p, spawn))
    ensures Inv(ApplyNotify(s, p, spawn))
  {
    if MultiCapable(s.cfg) {
      PumpNotifiesStep(s, p, AwaitFix);
      assert ApplierShape(s, spawn);
      SetApplierStep(SetPump(s.(reports := s.reports + multiset{p.u}), p, AwaitFix), spawn, Start, s.guard);
    } else {
      PumpNotifiesStep(s, p, if s.entries == [] then WantsClose else AwaitFix);
    }
  }

  lemma StepKeepsInv(s: State, st: Step)
    requires Inv(s) && Enabled(s, st)
    ensures Inv(Next(s, st))
  {
    match st
    case Offer(u) => OfferStep(s, u);
    case AcceptBegin(u, from) => AcceptBeginStep(s, u, from);
    case AcceptAdd => AcceptAddStep(s);
    case CloseBegin(c) => CloseBeginStep(s, c);
    case CloseSnapshot => CloseLoopStep(s, st);
    case CloseOne => CloseLoopStep(s, st);
    case CloseEnd =>
      UnlockStep(s);
      ResumeStep(s.(lock := Free), s.lock.caller);
    case PumpStops(p) => PumpStopsStep(s, p);
    case PumpRemoves(p) => PumpRemovesStep(s, p);
    case PumpNotifies(p, spawn) => NotifyStep(s, p, spawn);
    case FixLoad(p) => FixLoadStep(s, p);
    case FixStore => FixStoreStep(s);
    case Apply(a, m) => ApplyStep(s, a, m);
    case Recount(a, spawn) => RecountStep(s, a, spawn);
  }

  lemma InitialInv(cfg: Config, u: Underlay)
    ensures Inv(Initial(cfg, u))
  {
    var s := Initial(cfg, u);
    forall v ensures UnderlayShape(s, v) {}
    forall p ensures PumpShape(s, p) {}
    forall a ensures ApplierShape(s, a) {}
  }

  lemma {:induction false} RunInv(states: seq<State>, steps: seq<Step>, i: nat)
    requires IsRun(states, steps) && i < |states|
    ensures Inv(states[i])
  {
    if i == 0 {
      var cfg, u :| states[0] == Initial(cfg, u);
      InitialInv(cfg, u);
    } else {
      RunInv(states, steps, i - 1);
      StepKeepsInv(states[i - 1], steps[i - 1]);
    }
  }

  // ---------- What this gives over whole runs ----------

  /** Although both pumps of an underlay run closeUnderlay, it is removed and reported removed at most
      once, and the collection is at all times exactly what was added and not removed. */
  lemma EntriesAreAddedMinusRemoved(states: seq<State>, steps: seq<Step>, i: nat, u: Underlay)
    requires IsRun(states, steps) && i < |states|
    ensures u in states[i].entries <==> u in states[i].added && u !in states[i].removed
    ensures Distinct(states[i].entries)
    ensures states[i].reports[u] <= 1 && (states[i].reports[u] == 1 ==> u in states[i].removed)
  {
    RunInv(states, steps, i);
    assert UnderlayShape(states[i], u);
  }

  /** Close is holding the lock, or has not been entered successfully. */
  predicate CloseReturned(s: State) {
    s.closed && !s.lock.Closing?
  }

  lemma {:induction false} ClosedAddsNothing(states: seq<State>, steps: seq<Step>, i: nat, j: nat)
    requires IsRun(states, steps) && i <= j < |states| && states[i].closed
    ensures states[j].closed && states[j].added == states[i].added
    decreases j - i
  {
    if i < j {
      RunInv(states, steps, i);
      assert states[i + 1] == Next(states[i], steps[i]);
      ClosedAddsNothing(states, steps, i + 1, j);
    }
  }

  /** Once Close has returned, every underlay the channel ever admitted is closed, and no later
      moment of the run admits another. */
  lemma CloseClosesEverything(states: seq<State>, steps: seq<Step>, i: nat, j: nat)
    requires IsRun(states, steps) && i <= j < |states| && CloseReturned(states[i])
    ensures states[i].added <= states[i].shut
    ensures states[j].added == states[i].added && states[j].added <= states[j].shut
  {
    RunInv(states, steps, i);
    forall u | u in states[i].added ensures u in states[i].shut { assert UnderlayShape(states[i], u); }
    ClosedAddsNothing(states, steps, i, j);
    ShutGrows(states, steps, i, j);
  }

  lemma {:induction false} ShutGrows(states: seq<State>, steps: seq<Step>, i: nat, j: nat)
    requires IsRun(states, steps) && i <= j < |states|
    ensures states[i].shut <= states[j].shut
    decreases j - i
  {
    if i < j {
      assert states[i + 1] == Next(states[i], steps[i]);
      ShutGrows(states, steps, i + 1, j);
    }
  }

  /** Whenever there are members, the fallback underlay is one of them exactly when AcceptUnderlay is not
      between storing and adding it, and no closeUnderlay of that very underlay has its fix-up ahead. */
  lemma FallbackIsAMember(states: seq<State>, steps: seq<Step>, i: nat)
    requires IsRun(states, steps) && i < |states| && states[i].entries != []
    ensures states[i].fallback in states[i].entries <==>
              !states[i].lock.Accepting? && !FixPending(states[i], states[i].fallback)
  {
    var s := states[i];
    RunInv(states, steps, i);
    assert UnderlayShape(s, s.fallback) && PumpShape(s, Pump(s.fallback, Rx)) && PumpShape(s, Pump(s.fallback, Tx));
  }

  /** The window is real: on a channel with one member, the next underlay is the fallback before it is one. */
  lemma FallbackBeforeMember(first: Underlay, next: Underlay) returns (states: seq<State>, steps: seq<Step>)
    requires first != next && next.secretOk
    ensures IsRun(states, steps)
    ensures states[|steps|].entries == [first] && states[|steps|].fallback == next && states[|steps|].lock.Accepting?
  {
    var s0 := Initial(Config(map[], 1, false), first);
    var s1 := Next(s0, Offer(next));
    var s2 := Next(s1, AcceptBegin(next, None));
    states, steps := [s0, s1, s2], [Offer(next), AcceptBegin(next, None)];
  }

  /** Nobody gets stuck holding the channel lock. */
  lemma LockHolderCanProceed(states: seq<State>, steps: seq<Step>, i: nat)
    requires IsRun(states, steps) && i < |states|
    ensures match states[i].lock
            case Free => true
            case Accepting(_, _) => Enabled(states[i], AcceptAdd)
            case Closing(_, _) =>
              Enabled(states[i], CloseSnapshot) || Enabled(states[i], CloseOne) || Enabled(states[i], CloseEnd)
            case Fixing(_, _) => Enabled(states[i], FixStore)
  {
    RunInv(states, steps, i);
  }
}
