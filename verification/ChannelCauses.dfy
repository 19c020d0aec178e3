/** What the goroutines of a channel decide, and on what grounds: when it is closed, when it dials, whom it admits.
    Everything is stated on the configuration and the entries themselves. */
module ChannelCauses {
  import opened Wrappers
  import opened ChannelLife
  import opened ChannelMembership

  /** Neither a dial policy nor constraints nor a minimum: a channel for one underlay. */
  predicate Plain(cfg: Config) {
    !cfg.hasPolicy && cfg.constraints == map[] && cfg.minTotal <= 0
  }

  /** Some minimum is not met. */
  predicate BelowMinimum(cfg: Config, entries: seq<Underlay>) {
    || (exists k :: k in cfg.constraints && CountOf(entries, k) < cfg.constraints[k].min)
    || |entries| < cfg.minTotal
  }

  /** Fewer underlays of `kind` than desired. */
  predicate Short(cfg: Config, entries: seq<Underlay>, kind: string) {
    kind in cfg.constraints && CountOf(entries, kind) < cfg.constraints[kind].desired
  }

  ghost function Positions(entries: seq<Underlay>, kind: string): set<nat> {
    set i: nat | i < |entries| && entries[i].kind == kind
  }

  /** The count of a kind is the number of entries of that kind. */
  lemma {:induction false} CountIsNumber(entries: seq<Underlay>, kind: string)
    ensures CountOf(entries, kind) == |Positions(entries, kind)|
  {
    if entries == [] {
      assert Positions(entries, kind) == {};
    } else {
      var n := |entries| - 1;
      var init := entries[..n];
      CountIsNumber(init, kind);
      if entries[n].kind == kind {
        assert Positions(entries, kind) == Positions(init, kind) + {n};
      } else {
        assert Positions(entries, kind) == Positions(init, kind);
      }
    }
  }

  lemma {:induction false} ConfigKept(states: seq<State>, steps: seq<Step>, i: nat)
    requires IsRun(states, steps) && i < |states|
    ensures states[i].cfg == states[0].cfg
  {
    if i > 0 {
      ConfigKept(states, steps, i - 1);
      assert states[i] == Next(states[i - 1], steps[i - 1]);
    }
  }

  /** All that an applyConstraints leaves alone. */
  predicate Untouched(s: State, s': State, a: nat) {
    && s'.cfg == s.cfg && s'.closed == s.closed && s'.shut == s.shut && s'.added == s.added
    && s'.reports == s.reports && s'.waiting == s.waiting && s'.pumps == s.pumps && s'.lock == s.lock
    && forall b | b in s.appliers && b != a :: b in s'.appliers && s'.appliers[b] == s.appliers[b]
  }

  lemma MoveTouches(s: State, a: nat, m: ApplyMove)
    requires Enabled(s, Apply(a, m))
    ensures Untouched(s, ApplyMoveStep(s, a, m), a)
  {
  }

  /** What steps other than its own make of a goroutine: it starts, has its call of Close return, or has its offer
      settled; nothing else. */
  predicate NotItsOwn(s: State, t: State, a: nat) {
    a in t.appliers ==>
      || t.appliers[a].Start? || t.appliers[a].Releasing?
      || (a in s.appliers && t.appliers[a] == s.appliers[a])
      || (a in s.appliers && s.appliers[a].Offering? && t.appliers[a] == Filling(s.appliers[a].todo))
  }

  lemma OthersOnApplier(s: State, st: Step, a: nat)
    requires Enabled(s, st) && !(st.Apply? && st.a == a)
    ensures NotItsOwn(s, Next(s, st), a)
  {
    if st.Apply? {
      MoveTouches(s, st.a, st.move);
      if a !in s.appliers { OthersOnlyHere(s, st.a, st.move, a); }
    }
  }

  lemma OthersOnlyHere(s: State, b: nat, m: ApplyMove, a: nat)
    requires Enabled(s, Apply(b, m)) && a != b && a !in s.appliers
    ensures a !in ApplyMoveStep(s, b, m).appliers
  {
  }

  // ---------- Counting decides ----------

  /** A turn of the fill loop: the channel is closed if and only if a minimum is not met, the guard is released
      if and only if nothing is short, and otherwise exactly the kinds that are short are dialed. */
  lemma CountDecides(states: seq<State>, steps: seq<Step>, i: nat, a: nat)
    requires IsRun(states, steps) && i < |steps| && steps[i] == Apply(a, Count)
    ensures var s := states[i];
            && a in states[i + 1].appliers
            && var pc := states[i + 1].appliers[a];
               && (pc == CloseChannel(true) <==> BelowMinimum(s.cfg, s.entries))
               && (pc == Releasing <==>
                     !BelowMinimum(s.cfg, s.entries) && forall k :: !Short(s.cfg, s.entries, k))
               && (pc.Filling? <==>
                     !BelowMinimum(s.cfg, s.entries) && exists k :: Short(s.cfg, s.entries, k))
               && (pc.Filling? ==> forall k :: k in pc.todo <==> Short(s.cfg, s.entries, k))
  {
    var s := states[i];
    forall k ensures k in Shortfall(s.cfg, s.entries) <==> Short(s.cfg, s.entries, k) {}
    if Shortfall(s.cfg, s.entries) != {} {
      var k :| k in Shortfall(s.cfg, s.entries);
      assert Short(s.cfg, s.entries, k);
    }
  }

  /** The check before the guard. */
  lemma CheckDecides(states: seq<State>, steps: seq<Step>, i: nat, a: nat)
    requires IsRun(states, steps) && i < |steps| && steps[i] == Apply(a, Check)
    ensures a in states[i + 1].appliers
    ensures states[i + 1].appliers[a] ==
              if BelowMinimum(states[i].cfg, states[i].entries) then CloseChannel(false) else TryGuard
  {
  }

  // ---------- Dialing ----------

  predicate Planned(s: State, a: nat, kind: string) {
    && a in s.appliers && (s.appliers[a].Filling? || s.appliers[a].Dialing? || s.appliers[a].Offering?)
    && kind in s.appliers[a].todo
  }

  lemma OthersOnPlanner(s: State, st: Step, a: nat, kind: string)
    requires Inv(s) && Enabled(s, st) && Planned(s, a, kind) && !(st.Apply? && st.a == a)
    ensures Planned(Next(s, st), a, kind)
  {
    if st.Apply? {
      MoveTouches(s, st.a, st.move);
    } else if st.AcceptBegin? || st.AcceptAdd? {
      AcceptsOnPlanner(s, st, a, kind);
    }
  }

  lemma AcceptsOnPlanner(s: State, st: Step, a: nat, kind: string)
    requires Inv(s) && Enabled(s, st) && Planned(s, a, kind) && (st.AcceptBegin? || st.AcceptAdd?)
    ensures Planned(Next(s, st), a, kind)
  {
    assert ApplierShape(s, a);
  }

  lemma PlannerMoves(s: State, a: nat, m: ApplyMove, kind: string)
    requires Enabled(s, Apply(a, m)) && Planned(s, a, kind) && m != Pick(kind)
    ensures Planned(ApplyMoveStep(s, a, m), a, kind)
  {
  }

  lemma PlanStands(s: State, st: Step, a: nat, kind: string)
    requires Inv(s) && Enabled(s, st) && Planned(s, a, kind) && st != Apply(a, Pick(kind))
    ensures Planned(Next(s, st), a, kind)
  {
    if st.Apply? && st.a == a { PlannerMoves(s, a, st.move, kind); } else { OthersOnPlanner(s, st, a, kind); }
  }

  /** A kind that was short when it was counted, on a channel that meets its minimums, is dialed: whatever else
      happens, the goroutine is in that turn, with the dial ahead, until it has made it. */
  lemma {:induction false} ShortKindIsDialed(states: seq<State>, steps: seq<Step>, i: nat, j: nat, a: nat, kind: string)
    requires IsRun(states, steps) && i < j < |states| && steps[i] == Apply(a, Count)
    requires !BelowMinimum(states[i].cfg, states[i].entries) && Short(states[i].cfg, states[i].entries, kind)
    requires forall m | i < m < j :: steps[m] != Apply(a, Pick(kind))
    ensures Planned(states[j], a, kind)
    decreases j
  {
    if j == i + 1 {
      CountDecides(states, steps, i, a);
    } else {
      ShortKindIsDialed(states, steps, i, j - 1, a, kind);
      RunInv(states, steps, j - 1);
      PlanStands(states[j - 1], steps[j - 1], a, kind);
    }
  }

  lemma MoveReleases(s: State, a: nat, m: ApplyMove)
    requires Enabled(s, Apply(a, m)) && ApplierAt(ApplyMoveStep(s, a, m), a, Releasing)
    ensures (m.LoopTest? && s.closed) || (m.Guard? && !s.cfg.hasPolicy) || m.Count?
  {
  }

  lemma OthersRelease(s: State, st: Step, a: nat)
    requires Inv(s) && Enabled(s, st) && !(st.Apply? && st.a == a)
    requires a in s.appliers && !s.appliers[a].Releasing? && ApplierAt(Next(s, st), a, Releasing)
    ensures s.closed
  {
    if st.Apply? { MoveTouches(s, st.a, st.move); }
    assert LockShape(s);
  }

  /** A guarded goroutine gives up its guard only on a closed channel, or because nothing was short when counted. */
  lemma ReleasesOnlyWhenDone(states: seq<State>, steps: seq<Step>, i: nat, a: nat)
    requires IsRun(states, steps) && i < |steps| && ApplierAt(states[i + 1], a, Releasing)
    requires a in states[i].appliers && !states[i].appliers[a].Releasing?
    ensures || states[i].closed || (steps[i] == Apply(a, Guard) && !states[i].cfg.hasPolicy)
            || (steps[i] == Apply(a, Count) && forall k :: !Short(states[i].cfg, states[i].entries, k))
  {
    var s, st := states[i], steps[i];
    if st.Apply? && st.a == a {
      MoveReleases(s, a, st.move);
      if st.move.Count? { CountDecides(states, steps, i, a); }
    } else {
      RunInv(states, steps, i);
      OthersRelease(s, st, a);
    }
  }

  // ---------- Closing ----------

  /** A goroutine about to close the channel has counted a minimum that was not met. */
  lemma {:induction false} ApplierClosesForCause(states: seq<State>, steps: seq<Step>, i: nat, a: nat) returns (m: nat)
    requires IsRun(states, steps) && i < |states| && a in states[i].appliers && states[i].appliers[a].CloseChannel?
    ensures m < i && (steps[m] == Apply(a, Check) || steps[m] == Apply(a, Count))
    ensures BelowMinimum(states[m].cfg, states[m].entries)
  {
    if i == 0 {
      assert false;
    } else if a in states[i - 1].appliers && states[i - 1].appliers[a].CloseChannel? {
      m := ApplierClosesForCause(states, steps, i - 1, a);
    } else {
      CloseDecision(states, steps, i - 1, a);
      m := i - 1;
    }
  }

  lemma CloseDecision(states: seq<State>, steps: seq<Step>, i: nat, a: nat)
    requires IsRun(states, steps) && i < |steps|
    requires a in states[i + 1].appliers && states[i + 1].appliers[a].CloseChannel?
    requires a in states[i].appliers ==> !states[i].appliers[a].CloseChannel?
    ensures steps[i] == Apply(a, Check) || steps[i] == Apply(a, Count)
    ensures BelowMinimum(states[i].cfg, states[i].entries)
  {
    if !(steps[i].Apply? && steps[i].a == a) {
      OthersOnApplier(states[i], steps[i], a);
    } else if steps[i].move.Check? {
      CheckDecides(states, steps, i, a);
    } else if steps[i].move.Count? {
      CountDecides(states, steps, i, a);
    }
  }

  /** What the report of a removal leads to. */
  lemma NotifyDecides(states: seq<State>, steps: seq<Step>, i: nat, p: Pump, spawn: nat)
    requires IsRun(states, steps) && i < |steps| && steps[i] == PumpNotifies(p, spawn)
    ensures states[i + 1].reports == states[i].reports + multiset{p.u}
    ensures if Plain(states[i].cfg)
            then PumpAt(states[i + 1], p, if states[i].entries == [] then WantsClose else AwaitFix)
                 && states[i + 1].appliers == states[i].appliers
            else PumpAt(states[i + 1], p, AwaitFix) && ApplierAt(states[i + 1], spawn, Start)
  {
  }

  lemma PumpWantsClose(s: State, st: Step, p: Pump)
    requires Enabled(s, st) && PumpAt(Next(s, st), p, WantsClose) && !PumpAt(s, p, WantsClose)
    ensures st.PumpNotifies? && st.p == p
  {
    if st.Apply? { MoveTouches(s, st.a, st.move); }
  }

  /** A pump about to close the channel found it plain and without members when it reported its underlay lost. */
  lemma {:induction false} PumpClosesForCause(states: seq<State>, steps: seq<Step>, i: nat, p: Pump) returns (m: nat)
    requires IsRun(states, steps) && i < |states| && PumpAt(states[i], p, WantsClose)
    ensures m < i && steps[m].PumpNotifies? && steps[m].p == p
    ensures Plain(states[m].cfg) && states[m].entries == []
  {
    if i == 0 {
      assert false;
    } else if PumpAt(states[i - 1], p, WantsClose) {
      m := PumpClosesForCause(states, steps, i - 1, p);
    } else {
      m := i - 1;
      PumpWantsClose(states[m], steps[m], p);
      NotifyDecides(states, steps, m, p, steps[m].spawn);
    }
  }

  /** The grounds on which a run's channel may be closed before step `i`. */
  predicate Grounds(states: seq<State>, steps: seq<Step>, i: nat, caller: Caller)
    requires i <= |steps| < |states|
  {
    match caller
    case User => true
    case ApplyCaller(a) =>
      exists m :: 0 <= m < i && BelowMinimum(states[m].cfg, states[m].entries)
                  && (steps[m] == Apply(a, Check) || steps[m] == Apply(a, Count))
    case PumpCaller(p) =>
      exists m :: 0 <= m < i && Plain(states[m].cfg) && states[m].entries == []
                  && steps[m].PumpNotifies? && steps[m].p == p
  }

  /** A channel is closed only by its user, for a minimum that was found unmet, or because it is plain and has
      lost its only underlay. */
  lemma ClosesOnlyForCause(states: seq<State>, steps: seq<Step>, i: nat)
    requires IsRun(states, steps) && i < |steps| && !states[i].closed && states[i + 1].closed
    ensures steps[i].CloseBegin? && Grounds(states, steps, i, steps[i].caller)
  {
    assert states[i + 1] == Next(states[i], steps[i]);
    assert steps[i].CloseBegin?;
    match steps[i].caller
    case User =>
    case ApplyCaller(a) => var m := ApplierClosesForCause(states, steps, i, a);
    case PumpCaller(p) => var m := PumpClosesForCause(states, steps, i, p);
  }

  // ---------- Admission ----------

  /** AcceptUnderlay takes an underlay in if and only if the channel is for more than one, the secret is right
      and the channel is open; otherwise it closes it.  The one it takes in is the new fallback. */
  lemma AcceptDecides(states: seq<State>, steps: seq<Step>, i: nat, u: Underlay, from: Option<nat>)
    requires IsRun(states, steps) && i < |steps| && steps[i] == AcceptBegin(u, from)
    ensures var s, t := states[i], states[i + 1];
            if !Plain(s.cfg) && u.secretOk && !s.closed
            then t.lock == Accepting(u, from) && t.fallback == u && t.shut == s.shut
            else t.lock == Free && u in t.shut && t.fallback == s.fallback
  {
  }

  predicate Admitted(s: State, first: Underlay) {
    && (s.lock.Accepting? ==> s.lock.u.secretOk && !Plain(s.cfg))
    && (forall u | u in s.added && u != first :: u.secretOk && !Plain(s.cfg))
    && first in s.added
  }

  lemma StepAdmits(s: State, st: Step, first: Underlay)
    requires Enabled(s, st) && Admitted(s, first)
    ensures Admitted(Next(s, st), first)
  {
  }

  /** Apart from the first, only underlays with the group's secret are ever members, and on a plain channel none. */
  lemma {:induction false} OnlyTheGroupIsAdmitted(states: seq<State>, steps: seq<Step>, i: nat,
                                                  first: Underlay, u: Underlay)
    requires IsRun(states, steps) && i < |states| && states[0].entries == [first]
    ensures Admitted(states[i], first)
    ensures u in states[i].added && u != first ==> u.secretOk && !Plain(states[0].cfg)
    ensures Plain(states[0].cfg) ==> states[i].added == {first}
  {
    ConfigKept(states, steps, i);
    if i > 0 {
      OnlyTheGroupIsAdmitted(states, steps, i - 1, first, u);
      StepAdmits(states[i - 1], steps[i - 1], first);
    }
  }

  // ---------- The collection and the fallback ----------

  predicate Spliced(es: seq<Underlay>, u: Underlay, es': seq<Underlay>, k: nat) {
    k < |es| && es[k] == u && u !in es[..k] && es' == es[..k] + es[k + 1..]
  }

  lemma {:induction false} WithoutSplices(es: seq<Underlay>, u: Underlay)
    requires u in es
    ensures exists k: nat :: Spliced(es, u, Without(es, u), k)
  {
    if es[0] == u {
      assert Spliced(es, u, Without(es, u), 0);
    } else {
      WithoutSplices(es[1..], u);
      var k: nat :| Spliced(es[1..], u, Without(es[1..], u), k);
      assert es[..k + 1] == [es[0]] + es[1..][..k] && es[k + 2..] == es[1..][k + 1..];
      assert Spliced(es, u, Without(es, u), k + 1);
    }
  }

  /** Members join at the end, leave by being spliced out, and nothing else touches the collection. */
  lemma EntriesChangeOnlyBy(states: seq<State>, steps: seq<Step>, i: nat)
    requires IsRun(states, steps) && i < |steps|
    ensures var es, es' := states[i].entries, states[i + 1].entries;
            if steps[i].AcceptAdd? then es' == es + [states[i].lock.u]
            else if steps[i].PumpRemoves? && steps[i].p.u in es then exists k: nat :: Spliced(es, steps[i].p.u, es', k)
            else es' == es
  {
    if steps[i].PumpRemoves? && steps[i].p.u in states[i].entries {
      WithoutSplices(states[i].entries, steps[i].p.u);
    }
  }

  /** A lost fallback is replaced by the latest member there is. */
  lemma ReplacementIsLatest(states: seq<State>, steps: seq<Step>, i: nat, p: Pump)
    requires IsRun(states, steps) && i < |steps| && steps[i] == FixLoad(p)
    ensures var s, t := states[i], states[i + 1];
            if s.fallback == p.u && s.entries != [] then t.lock == Fixing(p, s.entries[|s.entries| - 1])
            else t.lock == Free && PumpAt(t, p, Stopped)
  {
  }

  /** The fallback is whatever was accepted last, or chosen to replace a lost one. */
  lemma FallbackChangesOnlyBy(states: seq<State>, steps: seq<Step>, i: nat)
    requires IsRun(states, steps) && i < |steps| && states[i + 1].fallback != states[i].fallback
    ensures || (steps[i].AcceptBegin? && states[i + 1].fallback == steps[i].u)
            || (steps[i].FixStore? && states[i].lock.Fixing? && states[i + 1].fallback == states[i].lock.pick)
  {
    assert states[i + 1] == Next(states[i], steps[i]);
  }
}
