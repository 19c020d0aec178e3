/** Constraint enforcement: no wake-up is lost, and dialing never overshoots. */
module ChannelFill {
  import opened Wrappers
  import opened ChannelLife
  import opened ChannelMembership

  // ---------- Counting ----------

  lemma CountAdd(es: seq<Underlay>, u: Underlay, kind: string)
    ensures CountOf(es + [u], kind) == CountOf(es, kind) + if u.kind == kind then 1 else 0
  {
    assert (es + [u])[..|es|] == es;
  }

  lemma {:induction false} CountConcat(a: seq<Underlay>, b: seq<Underlay>, kind: string)
    ensures CountOf(a + b, kind) == CountOf(a, kind) + CountOf(b, kind)
  {
    if b == [] {
      assert a + b == a;
    } else {
      var n := |b| - 1;
      assert a + b == (a + b[..n]) + [b[n]];
      CountAdd(a + b[..n], b[n], kind);
      CountConcat(a, b[..n], kind);
    }
  }

  lemma {:induction false} CountWithout(es: seq<Underlay>, u: Underlay, kind: string)
    ensures CountOf(Without(es, u), kind) <= CountOf(es, kind)
  {
    if es != [] {
      assert es == [es[0]] + es[1..];
      CountConcat([es[0]], es[1..], kind);
      if es[0] != u {
        CountWithout(es[1..], u, kind);
        CountConcat([es[0]], Without(es[1..], u), kind);
      }
    }
  }

  lemma MoreIsEnough(cfg: Config, es: seq<Underlay>, u: Underlay)
    ensures MinsMet(cfg, es) ==> MinsMet(cfg, es + [u])
    ensures DesiresMet(cfg, es) ==> DesiresMet(cfg, es + [u])
  {
    forall k ensures CountOf(es + [u], k) >= CountOf(es, k) { CountAdd(es, u, k); }
    if DesiresMet(cfg, es) {
      forall k | k in cfg.constraints ensures !Wanted(cfg, es + [u], k) { assert !Wanted(cfg, es, k); }
    }
  }

  // ---------- Wake-ups ----------

  /** A removal whose notification is still due. */
  ghost predicate Notifies(s: State) {
    exists p :: PumpAt(s, p, Notifying)
  }

  /** The goroutine will look at the minimums again, or is about to close the channel. */
  predicate WillCheck(s: State, a: nat) {
    a in s.appliers && (s.appliers[a].Start? || s.appliers[a].CheckMin? || s.appliers[a].CloseChannel?)
  }

  ghost predicate MinsWatched(s: State) {
    Notifies(s) || exists a :: WillCheck(s, a)
  }

  ghost predicate DesiresWatched(s: State) {
    Notifies(s) || exists a :: a in s.appliers
  }

  ghost predicate LastWatched(s: State) {
    Notifies(s) || exists p :: PumpAt(s, p, WantsClose)
  }

  /** Whatever is wrong with an open channel, somebody is going to notice. */
  ghost predicate WakeInv(s: State) {
    !s.closed ==>
      && (!MinsMet(s.cfg, s.entries) ==> MinsWatched(s))
      && (s.cfg.hasPolicy && !DesiresMet(s.cfg, s.entries) ==> DesiresWatched(s))
      && (!MultiCapable(s.cfg) && s.entries == [] ==> LastWatched(s))
  }

  /** Nothing is lost while the same goroutines keep watching, and the collection only improves. */
  lemma WakeFrame(s: State, t: State)
    requires WakeInv(s) && t.cfg == s.cfg && (s.closed ==> t.closed)
    requires t.entries == s.entries || exists u :: t.entries == s.entries + [u]
    requires forall p | p in s.pumps && (s.pumps[p].Notifying? || s.pumps[p].WantsClose?) :: PumpAt(t, p, s.pumps[p])
    requires forall a | WillCheck(s, a) :: WillCheck(t, a)
    requires forall a | a in s.appliers :: a in t.appliers
    ensures WakeInv(t)
  {
    if t.entries != s.entries {
      var u :| t.entries == s.entries + [u];
      MoreIsEnough(s.cfg, s.entries, u);
    }
    if Notifies(s) {
      var p :| PumpAt(s, p, Notifying);
      assert PumpAt(t, p, Notifying);
    }
    if p :| PumpAt(s, p, WantsClose) {
      assert PumpAt(t, p, WantsClose);
    }
    if a :| WillCheck(s, a) {
      assert WillCheck(t, a);
    }
    if a :| a in s.appliers {
      assert a in t.appliers;
    }
  }

  lemma RemoveWakes(s: State, p: Pump)
    requires Inv(s) && WakeInv(s) && Enabled(s, PumpRemoves(p))
    ensures WakeInv(ApplyRemove(s, p))
  {
    var t := ApplyRemove(s, p);
    if p.u in s.entries {
      assert PumpAt(t, p, Notifying);
    } else {
      WakeFrame(s, t);
    }
  }

  lemma NotifyWakes(s: State, p: Pump, spawn: nat)
    requires Inv(s) && WakeInv(s) && Enabled(s, PumpNotifies(p, spawn))
    ensures WakeInv(ApplyNotify(s, p, spawn))
  {
    var t := ApplyNotify(s, p, spawn);
    if MultiCapable(s.cfg) {
      assert WillCheck(t, spawn);
    } else if s.entries == [] {
      assert PumpAt(t, p, WantsClose);
    }
  }

  /** An applyConstraints goroutine may return only when it is not needed. */
  lemma ReturnWakes(s: State, a: nat)
    requires Inv(s) && WakeInv(s) && a in s.appliers && (WillCheck(s, a) ==> s.closed || MinsMet(s.cfg, s.entries))
    requires s.closed || !s.cfg.hasPolicy || DesiresMet(s.cfg, s.entries) || (s.guard.Some? && s.guard.value != a)
    ensures WakeInv(Return(s, a))
  {
    var t := Return(s, a);
    if Notifies(s) {
      var p :| PumpAt(s, p, Notifying);
      assert PumpAt(t, p, Notifying);
    } else {
      if p :| PumpAt(s, p, WantsClose) { assert PumpAt(t, p, WantsClose); }
      if b :| WillCheck(s, b) && b != a { assert WillCheck(t, b); }
      if s.guard.Some? && s.guard.value != a {
        assert ApplierShape(s, s.guard.value);
        assert s.guard.value in t.appliers;
      }
    }
  }

  lemma ApplyWakes(s: State, a: nat, m: ApplyMove)
    requires Inv(s) && WakeInv(s) && Enabled(s, Apply(a, m))
    ensures WakeInv(ApplyMoveStep(s, a, m))
  {
    var t := ApplyMoveStep(s, a, m);
    assert ApplierShape(s, a);
    if a !in t.appliers {
      ReturnWakes(s, a);
    } else if m.Check? && MinsMet(s.cfg, s.entries) {
      assert a in t.appliers;
      if Notifies(s) {
        var p :| PumpAt(s, p, Notifying);
        assert PumpAt(t, p, Notifying);
      }
      if p :| PumpAt(s, p, WantsClose) { assert PumpAt(t, p, WantsClose); }
    } else {
      WakeFrame(s, t);
    }
  }

  lemma RecountWakes(s: State, a: nat, spawn: nat)
    requires Inv(s) && WakeInv(s) && Enabled(s, Recount(a, spawn))
    ensures WakeInv(ApplyRecount(s, a, spawn))
  {
    if DesiresMet(s.cfg, s.entries) {
      ReturnWakes(s, a);
    } else {
      var t := ApplyRecount(s, a, spawn);
      assert WillCheck(t, spawn);
      if p :| PumpAt(s, p, WantsClose) { assert PumpAt(t, p, WantsClose); }
      if p :| PumpAt(s, p, Notifying) { assert PumpAt(t, p, Notifying); }
    }
  }

  lemma AcceptWakes(s: State, st: Step)
    requires Inv(s) && WakeInv(s) && Enabled(s, st) && (st.Offer? || st.AcceptBegin? || st.AcceptAdd?)
    ensures WakeInv(Next(s, st))
  {
    if st.AcceptAdd? {
      assert UnderlayShape(s, s.lock.u) && PumpShape(s, Pump(s.lock.u, Rx)) && PumpShape(s, Pump(s.lock.u, Tx));
    }
    WakeFrame(s, Next(s, st));
  }

  lemma CloseWakes(s: State, st: Step)
    requires Inv(s) && WakeInv(s) && Enabled(s, st)
    requires st.CloseBegin? || st.CloseSnapshot? || st.CloseOne? || st.CloseEnd?
    ensures WakeInv(Next(s, st))
  {
    if st.CloseSnapshot? || st.CloseOne? { WakeFrame(s, Next(s, st)); }
  }

  lemma PumpWakes(s: State, st: Step)
    requires Inv(s) && WakeInv(s) && Enabled(s, st) && (st.PumpStops? || st.FixLoad? || st.FixStore?)
    ensures WakeInv(Next(s, st))
  {
    WakeFrame(s, Next(s, st));
  }

  lemma StepKeepsWake(s: State, st: Step)
    requires Inv(s) && WakeInv(s) && Enabled(s, st)
    ensures WakeInv(Next(s, st))
  {
    if st.Offer? || st.AcceptBegin? || st.AcceptAdd? {
      AcceptWakes(s, st);
    } else if st.CloseBegin? || st.CloseSnapshot? || st.CloseOne? || st.CloseEnd? {
      CloseWakes(s, st);
    } else if st.PumpRemoves? {
      RemoveWakes(s, st.p);
    } else if st.PumpNotifies? {
      NotifyWakes(s, st.p, st.spawn);
    } else if st.Apply? {
      ApplyWakes(s, st.a, st.move);
    } else if st.Recount? {
      RecountWakes(s, st.a, st.spawn);
    } else {
      PumpWakes(s, st);
    }
  }

  lemma {:induction false} RunWake(states: seq<State>, steps: seq<Step>, i: nat)
    requires IsRun(states, steps) && i < |states|
    ensures WakeInv(states[i])
  {
    if i == 0 {
      var cfg, u :| states[0] == Initial(cfg, u);
      assert WillCheck(states[0], 0);
    } else {
      RunInv(states, steps, i - 1);
      RunWake(states, steps, i - 1);
      StepKeepsWake(states[i - 1], steps[i - 1]);
    }
  }

  /** No removal is still being handled and no applyConstraints is pending or running. */
  ghost predicate AtRest(s: State) {
    s.appliers == map[] && forall p | p in s.pumps :: !s.pumps[p].Notifying? && !s.pumps[p].WantsClose?
  }

  /** No wake-up is ever lost: a channel at rest is closed, or has every minimum and, if it can dial,
      every desired underlay; and a channel that cannot recover still has an underlay. */
  lemma NoLostWakeUp(states: seq<State>, steps: seq<Step>, i: nat)
    requires IsRun(states, steps) && i < |states| && AtRest(states[i])
    ensures var s := states[i];
            !s.closed ==>
              && (forall k | k in s.cfg.constraints :: CountOf(s.entries, k) >= s.cfg.constraints[k].min)
              && |s.entries| >= s.cfg.minTotal
              && (s.cfg.hasPolicy ==>
                    forall k | k in s.cfg.constraints :: CountOf(s.entries, k) >= s.cfg.constraints[k].desired)
              && (!s.cfg.hasPolicy && s.cfg.constraints == map[] && s.cfg.minTotal <= 0 ==> s.entries != [])
  {
    RunWake(states, steps, i);
    var s := states[i];
    if !s.closed && s.cfg.hasPolicy {
      forall k | k in s.cfg.constraints ensures CountOf(s.entries, k) >= s.cfg.constraints[k].desired {
        assert !Wanted(s.cfg, s.entries, k);
      }
    }
  }

  // ---------- Dialing never overshoots ----------

  /** All underlays come from the channel's own dials, and a dialed underlay has the type asked for. */
  predicate OwnDial(s: State, st: Step) {
    && !st.Offer?
    && (st.Apply? && st.move.DialReturns? && st.a in s.appliers && s.appliers[st.a].Dialing? ==>
          st.move.u.kind == s.appliers[st.a].kind)
  }

  function Max(a: int, b: int): int { if a > b then a else b }

  predicate WithinLimit(s: State, first: Underlay, kind: string) {
    kind in s.cfg.constraints ==>
      CountOf(s.entries, kind) <= Max(s.cfg.constraints[kind].desired, CountOf([first], kind))
  }

  /** Every kind the goroutine is still to dial, or is dialing, is short of its desired count. */
  predicate FillShape(s: State, a: nat) {
    a in s.appliers ==>
      match s.appliers[a]
      case Filling(todo) => forall k | k in todo :: Wanted(s.cfg, s.entries, k)
      case Dialing(kind, todo) =>
        Wanted(s.cfg, s.entries, kind) && forall k | k in todo :: k != kind && Wanted(s.cfg, s.entries, k)
      case Offering(u, todo) =>
        Wanted(s.cfg, s.entries, u.kind) && forall k | k in todo :: k != u.kind && Wanted(s.cfg, s.entries, k)
      case _ => true
  }

  ghost predicate FillInv(s: State, first: Underlay) {
    && (forall k :: WithinLimit(s, first, k))
    && (forall a :: FillShape(s, a))
    && s.waiting == {} && (s.lock.Accepting? ==> s.lock.from.Some?)
  }

  lemma AddKeepsFill(s: State, first: Underlay)
    requires Inv(s) && FillInv(s, first) && Enabled(s, AcceptAdd)
    ensures FillInv(ApplyAcceptAdd(s), first)
  {
    var t := ApplyAcceptAdd(s);
    var a := s.lock.from.value;
    assert FillShape(s, a) && ApplierShape(s, a);
    forall k ensures CountOf(t.entries, k) == CountOf(s.entries, k) + if s.lock.u.kind == k then 1 else 0 {
      CountAdd(s.entries, s.lock.u, k);
    }
    forall k ensures WithinLimit(t, first, k) { assert WithinLimit(s, first, k); }
    forall b ensures FillShape(t, b) { assert FillShape(s, b) && ApplierShape(s, b); }
  }

  lemma RemoveKeepsFill(s: State, first: Underlay, p: Pump)
    requires Inv(s) && FillInv(s, first) && Enabled(s, PumpRemoves(p))
    ensures FillInv(ApplyRemove(s, p), first)
  {
    var t := ApplyRemove(s, p);
    forall k ensures CountOf(t.entries, k) <= CountOf(s.entries, k) { CountWithout(s.entries, p.u, k); }
    forall k ensures WithinLimit(t, first, k) { assert WithinLimit(s, first, k); }
    forall b ensures FillShape(t, b) { assert FillShape(s, b); }
  }

  lemma PlanKeepsFill(s: State, first: Underlay, a: nat)
    requires FillInv(s, first) && Enabled(s, Apply(a, Count))
    ensures FillInv(ApplyMoveStep(s, a, Count), first)
  {
    var t := ApplyMoveStep(s, a, Count);
    forall k ensures WithinLimit(t, first, k) { assert WithinLimit(s, first, k); }
    forall b ensures FillShape(t, b) { assert FillShape(s, b); }
  }

  /** Dialing and its end: what is short stays short, and the dialed underlay is of a kind that is. */
  lemma DialKeepsFill(s: State, first: Underlay, a: nat, m: ApplyMove)
    requires FillInv(s, first) && Enabled(s, Apply(a, m)) && OwnDial(s, Apply(a, m))
    requires m.Pick? || m.DialFails? || m.DialReturns?
    ensures FillInv(ApplyMoveStep(s, a, m), first)
  {
    var t := ApplyMoveStep(s, a, m);
    assert FillShape(s, a);
    forall k ensures WithinLimit(t, first, k) { assert WithinLimit(s, first, k); }
    forall b ensures FillShape(t, b) { assert FillShape(s, b); }
  }

  /** All other moves leave the goroutine with nothing to dial. */
  lemma MoveKeepsFill(s: State, first: Underlay, a: nat, m: ApplyMove)
    requires FillInv(s, first) && Enabled(s, Apply(a, m))
    requires !m.Count? && !m.Pick? && !m.DialFails? && !m.DialReturns?
    ensures FillInv(ApplyMoveStep(s, a, m), first)
  {
    var t := ApplyMoveStep(s, a, m);
    forall k ensures WithinLimit(t, first, k) { assert WithinLimit(s, first, k); }
    forall b ensures FillShape(t, b) { assert FillShape(s, b); }
  }

  lemma ApplyKeepsFill(s: State, first: Underlay, a: nat, m: ApplyMove)
    requires FillInv(s, first) && Enabled(s, Apply(a, m)) && OwnDial(s, Apply(a, m))
    ensures FillInv(ApplyMoveStep(s, a, m), first)
  {
    if m.Count? {
      PlanKeepsFill(s, first, a);
    } else if m.Pick? || m.DialFails? || m.DialReturns? {
      DialKeepsFill(s, first, a, m);
    } else {
      MoveKeepsFill(s, first, a, m);
    }
  }

  /** Steps that leave the collection alone and set no goroutine a new task. */
  lemma FillFrame(s: State, t: State, first: Underlay)
    requires FillInv(s, first) && t.cfg == s.cfg && t.entries == s.entries
    requires t.waiting == {} && (t.lock.Accepting? ==> t.lock.from.Some?)
    requires forall a | a in t.appliers ::
               || (a in s.appliers && t.appliers[a] == s.appliers[a])
               || (a in s.appliers && s.appliers[a].Offering? && t.appliers[a] == Filling(s.appliers[a].todo))
               || t.appliers[a].Start? || t.appliers[a].Releasing?
    ensures FillInv(t, first)
  {
    forall k ensures WithinLimit(t, first, k) { assert WithinLimit(s, first, k); }
    forall a ensures FillShape(t, a) { assert FillShape(s, a); }
  }

  lemma AcceptKeepsFill(s: State, u: Underlay, from: Option<nat>, first: Underlay)
    requires FillInv(s, first) && Enabled(s, AcceptBegin(u, from))
    ensures FillInv(ApplyAcceptBegin(s, u, from), first)
  {
    FillFrame(s, ApplyAcceptBegin(s, u, from), first);
  }

  lemma CloseKeepsFill(s: State, st: Step, first: Underlay)
    requires FillInv(s, first) && Enabled(s, st)
    requires st.CloseBegin? || st.CloseSnapshot? || st.CloseOne? || st.CloseEnd?
    ensures FillInv(Next(s, st), first)
  {
    FillFrame(s, Next(s, st), first);
  }

  lemma PumpKeepsFill(s: State, st: Step, first: Underlay)
    requires FillInv(s, first) && Enabled(s, st)
    requires st.PumpStops? || st.PumpNotifies? || st.FixLoad? || st.FixStore? || st.Recount?
    ensures FillInv(Next(s, st), first)
  {
    FillFrame(s, Next(s, st), first);
  }

  lemma StepKeepsFill(s: State, st: Step, first: Underlay)
    requires Inv(s) && FillInv(s, first) && Enabled(s, st) && OwnDial(s, st)
    ensures FillInv(Next(s, st), first)
  {
    if st.AcceptBegin? {
      AcceptKeepsFill(s, st.u, st.from, first);
    } else if st.AcceptAdd? {
      AddKeepsFill(s, first);
    } else if st.PumpRemoves? {
      RemoveKeepsFill(s, first, st.p);
    } else if st.Apply? {
      ApplyKeepsFill(s, first, st.a, st.move);
    } else if st.CloseBegin? || st.CloseSnapshot? || st.CloseOne? || st.CloseEnd? {
      CloseKeepsFill(s, st, first);
    } else {
      PumpKeepsFill(s, st, first);
    }
  }

  lemma {:induction false} RunFill(states: seq<State>, steps: seq<Step>, first: Underlay, i: nat)
    requires IsRun(states, steps) && i < |states| && states[0].entries == [first]
    requires forall j | 0 <= j < |steps| :: OwnDial(states[j], steps[j])
    ensures FillInv(states[i], first) && states[i].cfg == states[0].cfg
  {
    if i == 0 {
      forall k ensures WithinLimit(states[0], first, k) {}
      forall a ensures FillShape(states[0], a) {}
    } else {
      RunFill(states, steps, first, i - 1);
      RunInv(states, steps, i - 1);
      StepKeepsFill(states[i - 1], steps[i - 1], first);
    }
  }

  /** Filling never overshoots: on a channel fed only by its first underlay and its own dials, no
      constrained type ever exceeds the larger of its desired and its initial count. */
  lemma FillNeverOvershoots(states: seq<State>, steps: seq<Step>, first: Underlay, i: nat, kind: string)
    requires IsRun(states, steps) && i < |states| && states[0].entries == [first]
    requires forall j | 0 <= j < |steps| :: OwnDial(states[j], steps[j])
    requires kind in states[0].cfg.constraints
    ensures CountOf(states[i].entries, kind) <= Max(states[0].cfg.constraints[kind].desired, CountOf([first], kind))
  {
    RunFill(states, steps, first, i);
    assert WithinLimit(states[i], first, kind);
  }
}
