/** AcceptUnderlay, Close, closeUnderlay and applyConstraints as impl.go writes them, on the shared state of the
    channel, with any number of other goroutines acting between their parts. */
module ChannelObject {
  import opened Wrappers
  import opened ChannelLife
  import opened ChannelMembership
  import opened ChannelCauses
  import opened UnderlayCollection

  /** Whose steps are being followed: a caller of AcceptUnderlay or of Close, a pump, an applyConstraints. */
  datatype Me = Acceptor(u: Underlay) | Closer | OfPump(p: Pump) | OfApplier(a: nat)

  function CallerOf(caller: Caller): Me {
    match caller
    case User => Closer
    case PumpCaller(p) => OfPump(p)
    case ApplyCaller(a) => OfApplier(a)
  }

  function OffererOf(u: Underlay, from: Option<nat>): Me {
    if from.None? then Acceptor(u) else OfApplier(from.value)
  }

  /** The steps of whoever holds the lock. */
  predicate HoldersStep(st: Step) {
    st.AcceptAdd? || st.CloseSnapshot? || st.CloseOne? || st.CloseEnd? || st.FixStore?
  }

  predicate Mine(me: Me, holds: bool, st: Step) {
    || (holds && HoldersStep(st))
    || (st.AcceptBegin? && OffererOf(st.u, st.from) == me)
    || (st.CloseBegin? && st.caller != User && CallerOf(st.caller) == me)
    || ((st.PumpStops? || st.PumpRemoves? || st.PumpNotifies? || st.FixLoad?) && me == OfPump(st.p))
    || ((st.Apply? || st.Recount?) && me == OfApplier(st.a))
  }

  /** Whoever holds the lock, it is not me. */
  predicate Away(me: Me, lock: Lock) {
    match lock
    case Free => true
    case Accepting(u, from) => OffererOf(u, from) != me
    case Closing(caller, _) => caller == User || CallerOf(caller) != me
    case Fixing(p, _) => OfPump(p) != me
  }

  predicate Stands(me: Me, holds: bool, lock: Lock) {
    if holds then !lock.Free? else Away(me, lock)
  }

  /** Goroutine `a` has dialed `kind` since step `since`. */
  ghost predicate Dialed(steps: seq<Step>, since: nat, a: nat, kind: string) {
    exists m :: since <= m < |steps| && steps[m] == Apply(a, Pick(kind))
  }

  lemma DialedLater(steps: seq<Step>, steps': seq<Step>, since: nat, a: nat, kind: string)
    requires steps <= steps' && Dialed(steps, since, a, kind)
    ensures Dialed(steps', since, a, kind)
  {
    var m :| since <= m < |steps| && steps[m] == Apply(a, Pick(kind));
    assert steps'[m] == Apply(a, Pick(kind));
  }

  /** How far I have got is the same in both, and what never shrinks has not. */
  predicate Same(me: Me, s: State, s': State) {
    && s'.cfg == s.cfg && (s.closed ==> s'.closed)
    && s.shut <= s'.shut && s.added <= s'.added && s.reports <= s'.reports
    && match me
       case Acceptor(u) => u in s.waiting ==> u in s'.waiting
       case Closer => true
       case OfPump(p) => p in s.pumps ==> p in s'.pumps && s'.pumps[p] == s.pumps[p]
       case OfApplier(a) => a in s.appliers ==> a in s'.appliers && s'.appliers[a] == s.appliers[a]
  }

  lemma AcceptLeavesMe(s: State, st: Step, me: Me, holds: bool)
    requires Inv(s) && Enabled(s, st) && !Mine(me, holds, st) && Stands(me, holds, s.lock)
    requires st.Offer? || st.AcceptBegin? || st.AcceptAdd?
    ensures Same(me, s, Next(s, st)) && Stands(me, holds, Next(s, st).lock)
    ensures holds ==> Next(s, st).lock == s.lock && Next(s, st).fallback == s.fallback
  {
    if me.OfPump? && st.AcceptAdd? { assert PumpShape(s, me.p); }
    if st.AcceptBegin? && st.from.Some? { assert ApplierShape(s, st.from.value); }
  }

  lemma CloseLeavesMe(s: State, st: Step, me: Me, holds: bool)
    requires Enabled(s, st) && !Mine(me, holds, st) && Stands(me, holds, s.lock)
    requires st.CloseBegin? || st.CloseSnapshot? || st.CloseOne? || st.CloseEnd?
    ensures Same(me, s, Next(s, st)) && Stands(me, holds, Next(s, st).lock)
    ensures holds ==> Next(s, st).lock == s.lock && Next(s, st).fallback == s.fallback
  {
  }

  lemma PumpLeavesMe(s: State, st: Step, me: Me, holds: bool)
    requires Enabled(s, st) && !Mine(me, holds, st) && Stands(me, holds, s.lock)
    requires st.PumpStops? || st.PumpRemoves? || st.PumpNotifies? || st.FixLoad? || st.FixStore?
    ensures Same(me, s, Next(s, st)) && Stands(me, holds, Next(s, st).lock)
    ensures holds ==> Next(s, st).lock == s.lock && Next(s, st).fallback == s.fallback
  {
  }

  lemma ApplyLeavesMe(s: State, st: Step, me: Me, holds: bool)
    requires Enabled(s, st) && !Mine(me, holds, st) && Stands(me, holds, s.lock) && (st.Apply? || st.Recount?)
    ensures Same(me, s, Next(s, st)) && Stands(me, holds, Next(s, st).lock)
    ensures holds ==> Next(s, st).lock == s.lock && Next(s, st).fallback == s.fallback
  {
    if st.Apply? { MoveTouches(s, st.a, st.move); }
    assert Untouched(s, Next(s, st), st.a);
  }

  lemma OthersLeaveMe(s: State, st: Step, me: Me, holds: bool)
    requires Inv(s) && Enabled(s, st) && !Mine(me, holds, st) && Stands(me, holds, s.lock)
    ensures Same(me, s, Next(s, st)) && Stands(me, holds, Next(s, st).lock)
    ensures holds ==> Next(s, st).lock == s.lock && Next(s, st).fallback == s.fallback
  {
    if st.Offer? || st.AcceptBegin? || st.AcceptAdd? {
      AcceptLeavesMe(s, st, me, holds);
    } else if st.CloseBegin? || st.CloseSnapshot? || st.CloseOne? || st.CloseEnd? {
      CloseLeavesMe(s, st, me, holds);
    } else if st.Apply? || st.Recount? {
      ApplyLeavesMe(s, st, me, holds);
    } else {
      PumpLeavesMe(s, st, me, holds);
    }
  }

  class Channel {
    const schedule: nat -> seq<Step>              // what the others do, whenever they get the chance
    const dials: nat -> Option<Underlay>          // what dialing returns, and when
    var clock: nat
    var s: State
    ghost var states: seq<State>
    ghost var steps: seq<Step>

    ghost predicate Valid()
      reads this
    {
      IsRun(states, steps) && s == states[|steps|]
    }

    constructor (cfg: Config, u: Underlay, schedule: nat -> seq<Step>, dials: nat -> Option<Underlay>)
      ensures Valid() && s == Initial(cfg, u)
    {
      this.schedule, this.dials := schedule, dials;
      clock, s, states, steps := 0, Initial(cfg, u), [Initial(cfg, u)], [];
    }

    /** The run has gone on. */
    twostate predicate Later()
      reads this
    {
      old(states) <= states && old(steps) <= steps
    }

    method Do(st: Step)
      requires Valid() && Enabled(s, st)
      modifies this
      ensures Valid() && s == Next(old(s), st)
      ensures states == old(states) + [s] && steps == old(steps) + [st]
    {
      s := Next(s, st);
      states, steps := states + [s], steps + [st];
    }

    /** The other goroutines act. */
    method Others(me: Me, holds: bool)
      requires Valid() && Stands(me, holds, s.lock)
      modifies this
      ensures Valid() && Later() && Same(me, old(s), s)
      ensures Stands(me, holds, s.lock) && (holds ==> s.lock == old(s.lock) && s.fallback == old(s.fallback))
    {
      var todo := schedule(clock);
      clock := clock + 1;
      for i := 0 to |todo|
        invariant Valid() && Later() && Same(me, old(s), s)
        invariant Stands(me, holds, s.lock) && (holds ==> s.lock == old(s.lock) && s.fallback == old(s.fallback))
      {
        if !Mine(me, holds, todo[i]) && Enabled(s, todo[i]) {
          RunInv(states, steps, |steps|);
          OthersLeaveMe(s, todo[i], me, holds);
          Do(todo[i]);
        }
      }
    }

    /** Waiting for the channel lock: the others act, and whoever holds it finishes. */
    method Acquire(me: Me)
      requires Valid() && Away(me, s.lock)
      modifies this
      ensures Valid() && Later() && Same(me, old(s), s) && s.lock.Free?
    {
      Others(me, false);
      while !s.lock.Free?
        invariant Valid() && Later() && Same(me, old(s), s) && Away(me, s.lock)
        decreases LockWork(s)
      {
        RunInv(states, steps, |steps|);
        var st := HoldersNext(s);
        OthersLeaveMe(s, st, me, false);
        Do(st);
      }
    }

    /** AcceptUnderlay: the underlay is a running member of the channel, or turned away and closed; and it is
        turned away only for want of a reason to grow, for the wrong secret, or because the channel is closed. */
    method AcceptUnderlay(u: Underlay, from: Option<nat>) returns (ok: bool)
      requires Valid() && OffersNow(s, u, from) && Away(OffererOf(u, from), s.lock)
      modifies this
      ensures Valid() && Later() && s.lock.Free? && s.cfg == old(s.cfg)
      ensures ok ==>
                && (s.cfg.hasPolicy || s.cfg.constraints != map[] || s.cfg.minTotal > 0) && u.secretOk
                && u in s.entries && PumpAt(s, Pump(u, Rx), Running) && PumpAt(s, Pump(u, Tx), Running)
      ensures !ok ==>
                && u in s.shut && u !in s.added
                && ((!s.cfg.hasPolicy && s.cfg.constraints == map[] && s.cfg.minTotal <= 0) || !u.secretOk || s.closed)
      ensures if from.None? then u !in s.waiting
              else from.value in s.appliers && s.appliers[from.value] == Filling(old(s.appliers[from.value].todo))
    {
      Acquire(OffererOf(u, from));
      ok := MultiCapable(s.cfg) && u.secretOk && !s.closed;
      RunInv(states, steps, |steps|);
      assert UnderlayShape(s, u) && (from.Some? ==> ApplierShape(s, from.value));
      Do(AcceptBegin(u, from));
      if ok {
        Others(OffererOf(u, from), true);
        Do(AcceptAdd);
      }
    }

    /** The loop of Close: the members it saw are closed one by one, while underlays go on being lost. */
    method CloseMembers(caller: Caller)
      requires Valid() && s.closed && s.lock == Closing(caller, None)
      modifies this
      ensures Valid() && Later() && s.closed && s.cfg == old(s.cfg)
      ensures s.lock == Closing(caller, Some([])) && Same(CallerOf(caller), old(s), s)
    {
      Others(CallerOf(caller), true);
      Do(CloseSnapshot);
      while s.lock.todo.value != []
        invariant Valid() && Later() && s.closed && Same(CallerOf(caller), old(s), s)
        invariant s.lock.Closing? && s.lock.caller == caller && s.lock.todo.Some?
        decreases |s.lock.todo.value|
      {
        Others(CallerOf(caller), true);
        Do(CloseOne);
      }
      Others(CallerOf(caller), true);
    }

    /** Close, by whoever calls it: when it returns, the channel is closed and so is every underlay it ever
        admitted. */
    method Close(caller: Caller)
      requires Valid() && Ready(s, caller) && Away(CallerOf(caller), s.lock)
      modifies this
      ensures Valid() && Later() && s.lock.Free? && s.cfg == old(s.cfg)
      ensures s.closed && s.added <= s.shut
      ensures Resumed(old(s), s, caller) && old(s.reports) <= s.reports
    {
      Acquire(CallerOf(caller));
      var first := !s.closed;
      Do(CloseBegin(caller));
      if first {
        CloseMembers(caller);
        Do(CloseEnd);
      }
      CloseClosesEverything(states, steps, |steps|, |steps|);
    }

    /** UnderlayRemoved: a check of the constraints starts, or a simple channel without members is closed. */
    method UnderlayRemoved(p: Pump)
      requires Valid() && PumpAt(s, p, Notifying) && Away(OfPump(p), s.lock)
      modifies this
      ensures Valid() && Later() && PumpAt(s, p, AwaitFix) && Away(OfPump(p), s.lock)
      ensures s.reports[p.u] == 1
      ensures !s.cfg.hasPolicy && s.cfg.constraints == map[] && s.cfg.minTotal <= 0 && old(s.entries) == [] ==> s.closed
      ensures s.cfg.hasPolicy || s.cfg.constraints != map[] || s.cfg.minTotal > 0 ==>
                |old(states)| < |states| && exists a :: ApplierAt(states[|old(states)|], a, Start)
    {
      var spawn := Unused(s.appliers);
      Do(PumpNotifies(p, spawn));
      ghost var after := s;
      assert states[|old(states)|] == after;
      if s.pumps[p].WantsClose? { Close(PumpCaller(p)); }
      RunInv(states, steps, |steps|);
      assert after.reports[p.u] > 0 && UnderlayShape(s, p.u);
      assert !Plain(after.cfg) ==> ApplierAt(after, spawn, Start);
    }

    /** Underlays.Remove: of the two pumps of an underlay, the one that finds it in the collection reports it. */
    method RemoveUnderlay(p: Pump) returns (mine: bool)
      requires Valid() && PumpAt(s, p, Removing) && Away(OfPump(p), s.lock)
      modifies this
      ensures Valid() && Later() && PumpAt(s, p, AwaitFix) && Away(OfPump(p), s.lock)
      ensures mine ==> s.reports[p.u] == 1
    {
      mine := p.u in s.entries;
      Do(PumpRemoves(p));
      if mine {
        Others(OfPump(p), false);
        UnderlayRemoved(p);
      }
    }

    /** The locked section of closeUnderlay: a lost fallback is replaced by the latest member. */
    method FixFallback(p: Pump) returns (ghost at: nat)
      requires Valid() && PumpAt(s, p, AwaitFix) && Away(OfPump(p), s.lock)
      modifies this
      ensures Valid() && Later() && PumpAt(s, p, Stopped) && s.lock.Free?
      ensures s.fallback != p.u || s.entries == []
      ensures |old(steps)| <= at < |steps| && steps[at] == FixLoad(p)
      ensures var seen := states[at];
              s.fallback ==
                if seen.fallback == p.u && seen.entries != [] then seen.entries[|seen.entries| - 1] else seen.fallback
      ensures old(s.shut) <= s.shut && old(s.reports) <= s.reports
    {
      Acquire(OfPump(p));
      at := |steps|;
      Do(FixLoad(p));
      assert steps[at] == FixLoad(p);
      if s.lock.Fixing? {
        RunInv(states, steps, |steps|);
        Others(OfPump(p), true);
        Do(FixStore);
      }
      assert steps[at] == FixLoad(p);
    }

    /** closeUnderlay, run by both pumps of an underlay: it is closed and no longer a member, the fallback is
        another underlay or there is none, and the pump that removed it has seen to the one report of it. */
    method CloseUnderlay(p: Pump) returns (mine: bool)
      requires Valid() && PumpAt(s, p, Running) && Away(OfPump(p), s.lock)
      modifies this
      ensures Valid() && Later() && PumpAt(s, p, Stopped) && s.lock.Free?
      ensures p.u in s.shut && p.u in s.removed && p.u !in s.entries
      ensures s.fallback != p.u || s.entries == []
      ensures mine ==> s.reports[p.u] == 1
    {
      Do(PumpStops(p));
      Others(OfPump(p), false);
      mine := RemoveUnderlay(p);
      ghost var at := FixFallback(p);
      RunInv(states, steps, |steps|);
      assert PumpShape(s, p) && UnderlayShape(s, p.u);
    }

    /** One dial for every kind that was short when it was counted. */
    method DialAll(a: nat, ghost since: nat)
      requires Valid() && a in s.appliers && s.appliers[a].Filling? && Away(OfApplier(a), s.lock)
      requires since <= |steps|
      modifies this
      ensures Valid() && Later() && ApplierAt(s, a, Loop)
      ensures Away(OfApplier(a), s.lock) && s.cfg == old(s.cfg)
      ensures forall k | k in old(s.appliers[a].todo) :: Dialed(steps, since, a, k)
    {
      ghost var all := s.appliers[a].todo;
      while s.appliers[a].todo != {}
        invariant Valid() && Later() && s.cfg == old(s.cfg)
        invariant a in s.appliers && s.appliers[a].Filling? && Away(OfApplier(a), s.lock)
        invariant forall k | k in all && k !in s.appliers[a].todo :: Dialed(steps, since, a, k)
        decreases s.appliers[a].todo
      {
        var kind :| kind in s.appliers[a].todo;
        ghost var todo, sofar := s.appliers[a].todo, steps;
        var got := Dial(a, kind);
        forall k | k in all && k !in s.appliers[a].todo ensures Dialed(steps, since, a, k) {
          if k !in todo {
            DialedLater(sofar, steps, since, a, k);
          } else {
            assert steps[|sofar|] == Apply(a, Pick(k));
          }
        }
      }
      ghost var sofar := steps;
      Do(Apply(a, NoneLeft));
      forall k | k in all ensures Dialed(steps, since, a, k) {
        DialedLater(sofar, steps, since, a, k);
      }
    }

    /** dialUnderlay: a dial is made, and what it returns becomes a member of the channel or is closed. */
    method Dial(a: nat, kind: string) returns (got: Option<Underlay>)
      requires Valid() && a in s.appliers && s.appliers[a].Filling? && kind in s.appliers[a].todo
      requires Away(OfApplier(a), s.lock)
      modifies this
      ensures Valid() && Away(OfApplier(a), s.lock) && s.cfg == old(s.cfg)
      ensures Later() && old(steps) + [Apply(a, Pick(kind))] <= steps
      ensures ApplierAt(s, a, Filling(old(s.appliers[a].todo) - {kind}))
      ensures got.Some? ==> got.value in s.entries || got.value in s.shut
    {
      Do(Apply(a, Pick(kind)));
      got := TakeDialed(a);
    }

    /** The dial returns, whenever it does. */
    method TakeDialed(a: nat) returns (got: Option<Underlay>)
      requires Valid() && a in s.appliers && s.appliers[a].Dialing? && Away(OfApplier(a), s.lock)
      modifies this
      ensures Valid() && Later() && Away(OfApplier(a), s.lock) && s.cfg == old(s.cfg)
      ensures ApplierAt(s, a, Filling(old(s.appliers[a].todo)))
      ensures got.Some? ==> got.value in s.entries || got.value in s.shut
    {
      Others(OfApplier(a), false);
      got := dials(clock);
      if got.Some? && got.value !in s.offered {
        Do(Apply(a, DialReturns(got.value)));
        var ok := AcceptUnderlay(got.value, Some(a));
      } else {
        Do(Apply(a, DialFails));
        got := None;
      }
    }

    /** The counts decide: a channel below a minimum is closed, one that is short of nothing is left alone, and
        otherwise exactly the kinds that are short are to be dialed. */
    method CountAndPlan(a: nat)
      requires Valid() && ApplierAt(s, a, Counting) && Away(OfApplier(a), s.lock)
      modifies this
      ensures Valid() && Away(OfApplier(a), s.lock) && s.cfg == old(s.cfg)
      ensures Later() && old(steps) + [Apply(a, Count)] <= steps
      ensures a in s.appliers && (s.appliers[a].Releasing? || s.appliers[a].Filling?)
      ensures BelowMinimum(s.cfg, old(s.entries)) ==> s.closed && s.appliers[a].Releasing?
      ensures !BelowMinimum(s.cfg, old(s.entries)) && s.appliers[a].Releasing? ==>
                forall k :: !Short(s.cfg, old(s.entries), k)
      ensures s.appliers[a].Filling? ==> forall k :: k in s.appliers[a].todo <==> Short(s.cfg, old(s.entries), k)
    {
      var counts := CountsByType(s.entries);
      var valid := CountsShowValidState(s.cfg, counts, s.entries);
      var short := KindsShort(s.cfg, counts, s.entries);
      Do(Apply(a, Count));
      CountDecides(states, steps, |old(steps)|, a);
      assert valid <==> !BelowMinimum(s.cfg, old(s.entries));
      assert forall k :: k in short <==> Short(s.cfg, old(s.entries), k);
      if !valid { Close(ApplyCaller(a)); }
    }

    /** The test of the fill loop: it goes on as long as the channel is open. */
    method AnotherTurn(a: nat) returns (go: bool)
      requires Valid() && ApplierAt(s, a, Loop)
      modifies this
      ensures Valid() && Later() && s.cfg == old(s.cfg) && s.lock == old(s.lock)
      ensures go <==> !s.closed
      ensures ApplierAt(s, a, if go then Counting else Releasing)
    {
      go := !s.closed;
      Do(Apply(a, LoopTest));
    }

    /** A turn of the fill loop.  It is the last one only on a closed channel, or when nothing was short of what was
        counted; otherwise every kind that was short has been dialed. */
    method FillTurn(a: nat) returns (last: bool, ghost counted: Option<seq<Underlay>>)
      requires Valid() && ApplierAt(s, a, Loop) && Away(OfApplier(a), s.lock)
      modifies this
      ensures Valid() && Later() && Away(OfApplier(a), s.lock)
      ensures ApplierAt(s, a, if last then Releasing else Loop) && s.cfg == old(s.cfg)
      ensures counted.None? ==> last && s.closed
      ensures counted.Some? && last ==> s.closed || forall k :: !Short(s.cfg, counted.value, k)
      ensures counted.Some? && !last ==>
                forall k | Short(s.cfg, counted.value, k) :: Dialed(steps, |old(steps)|, a, k)
      ensures counted.Some? ==>
                exists c :: |old(steps)| <= c < |steps| && steps[c] == Apply(a, Count)
                            && states[c].entries == counted.value
    {
      counted := None;
      var go := AnotherTurn(a);
      if !go { return true, None; }
      Others(OfApplier(a), false);
      counted := Some(s.entries);
      ghost var at := |steps|;
      assert states[at] == s;
      CountAndPlan(a);
      assert steps[at] == Apply(a, Count) && states[at].entries == counted.value;
      if s.appliers[a].Releasing? { return true, counted; }
      Others(OfApplier(a), false);
      DialAll(a, |old(steps)|);
      assert steps[at] == Apply(a, Count) && states[at].entries == counted.value;
      return false, counted;
    }

    /** The fill loop, for as many turns as are looked at. */
    method Fill(a: nat, turns: nat) returns (done: bool)
      requires Valid() && ApplierAt(s, a, Loop) && Away(OfApplier(a), s.lock)
      modifies this
      ensures Valid() && Later() && Away(OfApplier(a), s.lock) && s.cfg == old(s.cfg)
      ensures done ==> ApplierAt(s, a, Releasing)
    {
      for i := 0 to turns
        invariant Valid() && Later() && ApplierAt(s, a, Loop) && Away(OfApplier(a), s.lock)
        invariant s.cfg == old(s.cfg)
      {
        Others(OfApplier(a), false);
        var last, counted := FillTurn(a);
        if last { return true; }
      }
      return false;
    }

    /** The look at the counts after the guard is released. */
    method Recheck(a: nat)
      requires Valid() && ApplierAt(s, a, RecheckCounts)
      modifies this
      ensures Valid() && Later() && a !in s.appliers && s.cfg == old(s.cfg)
      ensures Settled(s)
    {
      var counts := CountsByType(s.entries);
      var ok := AreConstraintDesiresSatisfied(s.cfg, counts, s.entries);
      var spawn := Unused(s.appliers);
      Do(Recount(a, spawn));
      assert ok || spawn in s.appliers;
      assert ok ==> forall k :: !Short(s.cfg, s.entries, k);
    }

    /** The deferred end of applyConstraints: the guard is released, then the desires are looked at again. */
    method ReleaseAndRecheck(a: nat)
      requires Valid() && ApplierAt(s, a, Releasing) && Away(OfApplier(a), s.lock)
      modifies this
      ensures Valid() && Later() && a !in s.appliers && s.cfg == old(s.cfg)
      ensures Settled(s)
    {
      ReleaseGuard(a);
      Others(OfApplier(a), false);
      var go := StillOpen(a);
      if go {
        Others(OfApplier(a), false);
        Recheck(a);
      }
    }

    method ReleaseGuard(a: nat)
      requires Valid() && ApplierAt(s, a, Releasing)
      modifies this
      ensures Valid() && Later() && s.cfg == old(s.cfg) && s.lock == old(s.lock)
      ensures ApplierAt(s, a, RecheckClosed) && s.guard.None?
    {
      Do(Apply(a, Unguard));
    }

    /** Whether there is something to look at again: there is a dial policy and the channel is open. */
    method StillOpen(a: nat) returns (go: bool)
      requires Valid() && ApplierAt(s, a, RecheckClosed)
      modifies this
      ensures Valid() && Later() && s.cfg == old(s.cfg) && s.lock == old(s.lock)
      ensures if go then ApplierAt(s, a, RecheckCounts) else a !in s.appliers && (s.closed || !s.cfg.hasPolicy)
    {
      go := s.cfg.hasPolicy && !s.closed;
      Do(Apply(a, TestClosed));
    }

    /** The first check of the minimums, before the guard: a channel below them is closed at once. */
    method CheckMinimums(a: nat) returns (valid: bool)
      requires Valid() && ApplierAt(s, a, CheckMin) && Away(OfApplier(a), s.lock)
      modifies this
      ensures Valid() && Later() && Away(OfApplier(a), s.lock) && s.cfg == old(s.cfg)
      ensures valid <==> !BelowMinimum(s.cfg, old(s.entries))
      ensures if valid then ApplierAt(s, a, TryGuard) else a !in s.appliers && s.closed
    {
      var counts := CountsByType(s.entries);
      valid := CountsShowValidState(s.cfg, counts, s.entries);
      Do(Apply(a, Check));
      if !valid { Close(ApplyCaller(a)); }
    }

    /** The swap of applyInProgress: this goroutine has the guard now, or another one has it. */
    method TakeGuard(a: nat) returns (guarded: bool)
      requires Valid() && ApplierAt(s, a, TryGuard) && Away(OfApplier(a), s.lock)
      modifies this
      ensures Valid() && Later() && Away(OfApplier(a), s.lock) && s.cfg == old(s.cfg)
      ensures guarded ==> ApplierAt(s, a, if s.cfg.hasPolicy then Loop else Releasing)
      ensures !guarded ==> a !in s.appliers && s.appliers != map[]
    {
      guarded := s.guard.None?;
      Do(Apply(a, Guard));
      if !guarded {
        RunInv(states, steps, |steps|);
        assert ApplierShape(s, s.guard.value);
      }
    }

    /** The entry of applyConstraints: with neither constraints nor a minimum, or on a closed channel, it returns. */
    method SomethingToEnforce(a: nat) returns (go: bool)
      requires Valid() && ApplierAt(s, a, Start)
      modifies this
      ensures Valid() && Later() && s.cfg == old(s.cfg) && s.lock == old(s.lock)
      ensures if go then ApplierAt(s, a, CheckMin)
              else a !in s.appliers && (s.closed || (s.cfg.constraints == map[] && s.cfg.minTotal == 0))
    {
      go := (s.cfg.constraints != map[] || s.cfg.minTotal != 0) && !s.closed;
      Do(Apply(a, Enter));
    }

    /** applyConstraints up to the guard: there is nothing to enforce, the channel is closed now, another
        goroutine has the guard, or this one has. */
    method EnterConstraints(a: nat) returns (guarded: bool)
      requires Valid() && ApplierAt(s, a, Start) && Away(OfApplier(a), s.lock)
      modifies this
      ensures Valid() && Later() && Away(OfApplier(a), s.lock) && s.cfg == old(s.cfg)
      ensures guarded ==> ApplierAt(s, a, if s.cfg.hasPolicy then Loop else Releasing)
      ensures !guarded ==> a !in s.appliers && Settled(s)
    {
      var go := SomethingToEnforce(a);
      if !go { return false; }
      Others(OfApplier(a), false);
      var valid := CheckMinimums(a);
      if !valid { return false; }
      Others(OfApplier(a), false);
      guarded := TakeGuard(a);
    }

    /** applyConstraints, looked at for any number of turns of its loop: it never walks away from an unmet
        desire.  When it has returned, the channel is closed, or there is nothing to enforce or to dial with,
        or every desired count is met, or another goroutine is there to see to it. */
    method ApplyConstraints(a: nat, turns: nat) returns (done: bool)
      requires Valid() && ApplierAt(s, a, Start) && Away(OfApplier(a), s.lock)
      modifies this
      ensures Valid() && Later()
      ensures done ==> a !in s.appliers && Settled(s)
    {
      var guarded := EnterConstraints(a);
      if !guarded { return true; }
      if s.cfg.hasPolicy {
        done := Fill(a, turns);
        if !done { return; }
      }
      ReleaseAndRecheck(a);
      done := true;
    }
  }

  /** Nobody needs to look at the counts any more, or somebody else is going to. */
  ghost predicate Settled(s: State) {
    || s.closed || (s.cfg.constraints == map[] && s.cfg.minTotal == 0) || !s.cfg.hasPolicy
    || (forall k :: !Short(s.cfg, s.entries, k)) || s.appliers != map[]
  }

  /** Where Close leaves its caller. */
  predicate Resumed(s: State, s': State, caller: Caller)
    requires Ready(s, caller)
  {
    match caller
    case User => true
    case PumpCaller(p) => PumpAt(s', p, AwaitFix)
    case ApplyCaller(a) => if s.appliers[a].guarded then ApplierAt(s', a, Releasing) else a !in s'.appliers
  }

  method Unused(appliers: map<nat, ApplyPc>) returns (n: nat)
    ensures n !in appliers
  {
    n := 0;
    var todo := appliers.Keys;
    while todo != {}
      invariant todo <= appliers.Keys && forall a | a in appliers && a !in todo :: a < n
      decreases todo
    {
      var a :| a in todo;
      if a >= n { n := a + 1; }
      todo := todo - {a};
    }
  }

  /** What the holder of the lock does next. */
  function HoldersNext(s: State): (st: Step)
    requires LockShape(s) && !s.lock.Free?
    ensures Enabled(s, st) && HoldersStep(st)
  {
    match s.lock
    case Accepting(_, _) => AcceptAdd
    case Closing(_, todo) => if todo.None? then CloseSnapshot else if todo.value != [] then CloseOne else CloseEnd
    case Fixing(_, _) => FixStore
  }

  function LockWork(s: State): nat {
    match s.lock
    case Free => 0
    case Closing(_, todo) => if todo.None? then |s.entries| + 2 else |todo.value| + 1
    case _ => 1
  }
}
