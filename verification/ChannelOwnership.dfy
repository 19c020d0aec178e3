/** Nothing offered to a channel is ever dropped: it is on its way in, a member, or closed. */
module ChannelOwnership {
  import opened Wrappers
  import opened ChannelLife
  import opened ChannelMembership

  /** AcceptUnderlay has `u` in hand, or the dial goroutine is about to call it. */
  predicate InHand(s: State, u: Underlay) {
    || (s.lock.Accepting? && s.lock.u == u)
    || (s.guard.Some? && s.guard.value in s.appliers && s.appliers[s.guard.value].Offering?
        && s.appliers[s.guard.value].u == u)
  }

  predicate Accounted(s: State, u: Underlay) {
    && (u in s.offered ==> u in s.waiting || InHand(s, u) || u in s.added || u in s.shut)
    && (u in s.waiting || InHand(s, u) ==> u !in s.shut)
    && (u in s.shut ==> u in s.offered)
    && (s.lock.Closing? && s.lock.todo.Some? && u in s.lock.todo.value ==> u in s.added)
  }

  ghost predicate AllAccounted(s: State) {
    forall u :: Accounted(s, u)
  }

  lemma ApplierAccounts(s: State, a: nat, m: ApplyMove)
    requires Inv(s) && AllAccounted(s) && Enabled(s, ChannelLife.Apply(a, m))
    ensures AllAccounted(ApplyMoveStep(s, a, m))
  {
    var t := ApplyMoveStep(s, a, m);
    assert ApplierShape(s, a);
    forall u ensures Accounted(t, u) { assert Accounted(s, u); }
  }

  predicate IsAccept(st: Step) {
    st.Offer? || st.AcceptBegin? || st.AcceptAdd?
  }

  lemma AcceptAccounts(s: State, st: Step)
    requires Inv(s) && AllAccounted(s) && Enabled(s, st) && IsAccept(st)
    ensures AllAccounted(Next(s, st))
  {
    var t := Next(s, st);
    if s.guard.Some? { assert ApplierShape(s, s.guard.value); }
    if st.AcceptBegin? && st.from.Some? { assert ApplierShape(s, st.from.value); }
    forall u ensures Accounted(t, u) { assert Accounted(s, u) && UnderlayShape(s, u); }
  }

  lemma ResumeAccounts(s: State, caller: Caller)
    requires Inv(s) && AllAccounted(s) && Ready(s, caller)
    ensures AllAccounted(Resume(s, caller))
  {
    var t := Resume(s, caller);
    if caller.ApplyCaller? { assert ApplierShape(s, caller.a); }
    forall u ensures Accounted(t, u) { assert Accounted(s, u); }
  }

  lemma CloseAccounts(s: State, st: Step)
    requires Inv(s) && AllAccounted(s) && Enabled(s, st)
             && (st.CloseBegin? || st.CloseSnapshot? || st.CloseOne? || st.CloseEnd?)
    ensures AllAccounted(Next(s, st))
  {
    var t := Next(s, st);
    if st.CloseBegin? && s.closed {
      ResumeAccounts(s, st.caller);
    } else if st.CloseEnd? {
      ResumeAccounts(s, s.lock.caller);
      forall u ensures Accounted(t, u) { assert Accounted(Resume(s, s.lock.caller), u); }
    } else {
      if s.guard.Some? { assert ApplierShape(s, s.guard.value); }
      forall u ensures Accounted(t, u) { assert Accounted(s, u) && UnderlayShape(s, u); }
    }
  }

  /** A goroutine that is not offering anything comes or goes. */
  lemma ApplierChangeAccounts(s: State, t: State)
    requires Inv(s) && AllAccounted(s)
    requires t.offered == s.offered && t.waiting == s.waiting && t.added == s.added && t.shut == s.shut
    requires t.lock == s.lock && t.guard == s.guard
    requires s.guard.Some? && s.guard.value in s.appliers ==>
               s.guard.value in t.appliers && t.appliers[s.guard.value] == s.appliers[s.guard.value]
    ensures AllAccounted(t)
  {
    if s.guard.Some? { assert ApplierShape(s, s.guard.value); }
    forall u ensures Accounted(t, u) { assert Accounted(s, u); }
  }

  lemma PumpAccounts(s: State, st: Step)
    requires Inv(s) && AllAccounted(s) && Enabled(s, st)
    requires st.PumpStops? || st.PumpRemoves? || st.FixLoad? || st.FixStore?
    ensures AllAccounted(Next(s, st))
  {
    var t := Next(s, st);
    if st.PumpStops? { assert PumpShape(s, st.p); }
    if s.guard.Some? { assert ApplierShape(s, s.guard.value); }
    forall u ensures Accounted(t, u) { assert Accounted(s, u) && UnderlayShape(s, u); }
  }

  lemma SpawnAccounts(s: State, st: Step)
    requires Inv(s) && AllAccounted(s) && Enabled(s, st) && (st.PumpNotifies? || st.Recount?)
    ensures AllAccounted(Next(s, st))
  {
    if st.Recount? { assert ApplierShape(s, st.a); }
    if s.guard.Some? { assert ApplierShape(s, s.guard.value); }
    ApplierChangeAccounts(s, Next(s, st));
  }

  lemma {:induction false} RunAccounts(states: seq<State>, steps: seq<Step>, i: nat)
    requires IsRun(states, steps) && i < |states|
    ensures AllAccounted(states[i])
  {
    if i == 0 {
      forall u ensures Accounted(states[0], u) {}
    } else {
      RunAccounts(states, steps, i - 1);
      RunInv(states, steps, i - 1);
      var s, st := states[i - 1], steps[i - 1];
      if IsAccept(st) {
        AcceptAccounts(s, st);
      } else if st.CloseBegin? || st.CloseSnapshot? || st.CloseOne? || st.CloseEnd? {
        CloseAccounts(s, st);
      } else if st.Apply? {
        ApplierAccounts(s, st.a, st.move);
      } else if st.PumpNotifies? || st.Recount? {
        SpawnAccounts(s, st);
      } else {
        PumpAccounts(s, st);
      }
    }
  }

  /** How many of these hold. */
  function Holding(a: bool, b: bool, c: bool, d: bool): nat {
    (if a then 1 else 0) + (if b then 1 else 0) + (if c then 1 else 0) + (if d then 1 else 0)
  }

  /** At every moment of every run, an underlay that was offered to the channel is in exactly one place:
      waiting for AcceptUnderlay, in its hands, added to the channel, or turned away and closed. */
  lemma OfferedUnderlayIsNeverDropped(states: seq<State>, steps: seq<Step>, i: nat, u: Underlay)
    requires IsRun(states, steps) && i < |states| && u in states[i].offered
    ensures var s := states[i];
            Holding(u in s.waiting, InHand(s, u), u in s.added, u in s.shut && u !in s.added) == 1
  {
    RunAccounts(states, steps, i);
    RunInv(states, steps, i);
    var s := states[i];
    assert Accounted(s, u) && UnderlayShape(s, u);
    if s.guard.Some? { assert ApplierShape(s, s.guard.value); }
  }
}
