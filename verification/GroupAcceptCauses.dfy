/** Why a call of AcceptUnderlay ends as it does: each outcome has its cause in the run, and each cause its outcome. */
module GroupAcceptCauses {
  import opened Wrappers
  import opened GroupAccept
  import opened GroupAcceptSafety

  /** A channel that is not closed, nor its registration, is registered under `id`. */
  predicate HasLive(s: State, id: string) {
    id in s.channels && s.channels[id] !in s.regClosed && s.channels[id] !in s.chClosed
  }

  // ---------- What the lookup decides ----------

  /** The four ways out of the lookup, each exactly under its condition, and what it does to the two maps: it
      forgets a registration only if that is stale, and makes a reservation only for a creator. */
  lemma LookupIsExact(states: seq<State>, steps: seq<Step>, i: nat, c: CallId)
    requires IsRun(states, steps) && i < |steps| && steps[i] == LookupSection(c)
    ensures var s, t := states[i], states[i + 1];
            var id, first, pc := s.calls[c].chId, s.calls[c].first, t.calls[c].pc;
            && (pc.AckAttach? <==> HasLive(s, id)) && (pc.AckAttach? ==> pc.target == s.channels[id])
            && (pc.Waiting? <==> !HasLive(s, id) && id in s.notifiers) && (pc.Waiting? ==> pc.on == s.notifiers[id])
            && (pc == Close(NoGroup) <==> !HasLive(s, id) && id !in s.notifiers && !first)
            && (pc == Admit <==> !HasLive(s, id) && id !in s.notifiers && first && s.hasAdmitter)
            && (pc == AckCreate <==> !HasLive(s, id) && id !in s.notifiers && first && !s.hasAdmitter)
            && (forall k :: k in t.channels <==> k in s.channels && (k == id ==> HasLive(s, id)))
            && (forall k :: k in t.notifiers <==> k in s.notifiers || (k == id && (pc == Admit || pc == AckCreate)))
            && (pc == Admit || pc == AckCreate ==> t.notifiers[id] == c)
  {
  }

  /** A non-first underlay is turned away for want of a group if and only if there is none to be found. */
  lemma TurnedAwayIff(states: seq<State>, steps: seq<Step>, i: nat, c: CallId)
    requires IsRun(states, steps) && i < |steps| && steps[i] == LookupSection(c)
    ensures states[i + 1].calls[c].pc == Close(NoGroup) <==>
              !states[i].calls[c].first && !Findable(states[i], states[i].calls[c].chId)
  {
    LookupIsExact(states, steps, i, c);
  }

  // ---------- Outcomes and their causes ----------

  /** The outcome that is settled once a call has got this far. */
  function Settled(pc: Pc): Option<Outcome> {
    if pc.Release? || pc.Close? || pc.Done? then Some(pc.why) else None
  }

  function CauseOfMove(pc: Pc, m: Move): Option<Outcome> {
    match m
    case AckReturns(ok) => if ok then None else Some(if pc.AckCreate? then CreateAckFailed else AckFailed)
    case FallbackReturns(ok) => Some(if ok then Delegated else FallbackFailed)
    case Timeout => Some(TimedOut)
    case AdmitterReturns(ok) => if ok then None else Some(Rejected)
    case AttachReturns(ok) => Some(if ok then Attached else AttachRefused)
    case FactoryReturns(ok) => if ok then None else Some(FactoryFailed)
    case _ => None
  }

  /** What a step settles for call `c`: an answer from outside, a lookup in vain, or the publication. */
  function Cause(s: State, st: Step, c: CallId): Option<Outcome> {
    if c !in s.calls || !OwnStep(c, st) then None
    else
      match st
      case Advance(_, m) => CauseOfMove(s.calls[c].pc, m)
      case LookupSection(_) =>
        var id := s.calls[c].chId;
        if !HasLive(s, id) && id !in s.notifiers && !s.calls[c].first then Some(NoGroup) else None
      case PublishCheck(_) => if c in s.regClosed || c in s.chClosed then Some(Stillborn) else None
      case PublishStore(_) => Some(Created)
      case _ => None
  }

  lemma MoveSettles(c: CallId, call: Call, m: Move, woken: set<CallId>)
    requires CanMove(call, m, woken)
    ensures Settled(Moved(c, call, m, woken).pc) ==
              if Settled(call.pc).Some? then Settled(call.pc) else CauseOfMove(call.pc, m)
  {
  }

  /** Where a locked section takes its call, of which it changes nothing else. */
  lemma SectionMovesOn(s: State, st: Step, c: CallId)
    requires Enabled(s, st) && c in s.calls && OwnStep(c, st) && !st.Advance?
    ensures var call, call' := s.calls[c], Apply(s, st).calls[c];
            && call' == call.(pc := call'.pc)
            && match st
               case LookupSection(_) => call'.pc == LookupPc(s, c) && call.pc.Lookup?
               case PublishCheck(_) =>
                 call.pc.Publish? && call'.pc == if Live(s, c) then PublishWrite else Release(Stillborn)
               case PublishStore(_) => call.pc.PublishWrite? && call'.pc == Release(Created)
               case ReleaseSection(_) =>
                 call.pc.Release? && (call'.pc == Close(call.pc.why) || call'.pc == Done(call.pc.why))
               case _ => true
  {
  }

  lemma StepSettles(s: State, st: Step, c: CallId)
    requires Enabled(s, st) && c in s.calls
    ensures var t := Apply(s, st);
            && c in t.calls
            && Settled(t.calls[c].pc) ==
                 if Settled(s.calls[c].pc).Some? then Settled(s.calls[c].pc) else Cause(s, st, c)
  {
    if !OwnStep(c, st) {
      OthersLeaveCall(s, st, c);
    } else if st.Advance? {
      MoveSettles(c, s.calls[c], st.move, s.woken);
    } else {
      SectionMovesOn(s, st, c);
    }
  }

  lemma NewCall(s: State, st: Step, c: CallId)
    requires Enabled(s, st) && c !in s.calls && c in Apply(s, st).calls
    ensures var call := Apply(s, st).calls[c];
            call.pc == Begin && call.owner == Unowned && call.creates == 0 && call.admits == 0
  {
  }

  lemma SettledBefore(states: seq<State>, steps: seq<Step>, i: nat, c: CallId)
    requires IsRun(states, steps) && i < |steps| && c in states[i + 1].calls
    requires Settled(states[i + 1].calls[c].pc).Some?
    ensures c in states[i].calls
    ensures var before, after := Settled(states[i].calls[c].pc), Settled(states[i + 1].calls[c].pc);
            if before.Some? then before == after else Cause(states[i], steps[i], c) == after
  {
    if c !in states[i].calls {
      NewCall(states[i], steps[i], c);
      assert false;
    } else {
      StepSettles(states[i], steps[i], c);
    }
  }

  /** Whatever outcome a call ends with, the run has the step that caused it. */
  lemma {:induction false} OutcomeHasItsCause(states: seq<State>, steps: seq<Step>, i: nat, c: CallId)
    returns (j: nat)
    requires IsRun(states, steps) && i < |states| && c in states[i].calls && Settled(states[i].calls[c].pc).Some?
    ensures j < i && Cause(states[j], steps[j], c) == Settled(states[i].calls[c].pc)
  {
    if i == 0 {
      assert false;
    } else {
      SettledBefore(states, steps, i - 1, c);
      if Settled(states[i - 1].calls[c].pc).Some? {
        j := OutcomeHasItsCause(states, steps, i - 1, c);
      } else {
        j := i - 1;
      }
    }
  }

  /** And whatever causes an outcome causes it for good: no refusal, failure or answer is ever ignored. */
  lemma {:induction false} CauseIsFinal(states: seq<State>, steps: seq<Step>, j: nat, i: nat, c: CallId, why: Outcome)
    requires IsRun(states, steps) && j < i < |states| && Cause(states[j], steps[j], c) == Some(why)
    ensures c in states[i].calls && Settled(states[i].calls[c].pc) == Some(why)
    decreases i
  {
    if i == j + 1 {
      StepSettles(states[j], steps[j], c);
      UnsettledBefore(states[j], steps[j], c);
    } else {
      CauseIsFinal(states, steps, j, i - 1, c, why);
      StepSettles(states[i - 1], steps[i - 1], c);
    }
  }

  lemma UnsettledBefore(s: State, st: Step, c: CallId)
    requires Enabled(s, st) && Cause(s, st, c).Some?
    ensures Settled(s.calls[c].pc) == None
  {
  }

  // ---------- Who creates, who attaches ----------

  predicate Creates(call: Call) {
    || call.pc.Admit? || call.pc.AckCreate? || call.pc.Create? || call.pc.Publish? || call.pc.PublishWrite?
    || call.pc.Release? || call.creates > 0
    || (Settled(call.pc).Some?
        && Settled(call.pc).value in {Rejected, CreateAckFailed, Created, FactoryFailed, Stillborn})
  }

  predicate Ungrouped(call: Call) {
    || call.pc.AckFallback? || call.pc.CallFallback?
    || (Settled(call.pc).Some? && Settled(call.pc).value in {Delegated, FallbackFailed})
  }

  predicate RoleOk(c: CallId, call: Call) {
    && (Creates(call) ==> call.grouped && call.first)
    && (Ungrouped(call) ==> !call.grouped)
    && (Settled(call.pc) == Some(NoGroup) ==> call.grouped && !call.first)
    && (call.pc.Lookup? || call.pc.Waiting? || call.pc.AckAttach? || call.pc.Attach? ==> call.grouped)
    && (Settled(call.pc).Some? && Settled(call.pc).value in {TimedOut, Attached, AttachRefused} ==> call.grouped)
    && (call.pc.Publish? || call.pc.PublishWrite? ==> call.owner == ChannelOwner(c))
    && (Settled(call.pc).Some? && Settled(call.pc).value in {Created, Stillborn} ==> call.owner == ChannelOwner(c))
    && (Settled(call.pc) == Some(Delegated) <==> call.owner == FallbackOwner)
  }

  lemma MoveKeepsRole(c: CallId, call: Call, m: Move, woken: set<CallId>)
    requires CanMove(call, m, woken) && RoleOk(c, call)
    ensures RoleOk(c, Moved(c, call, m, woken))
  {
  }

  lemma StepKeepsRole(s: State, st: Step, c: CallId)
    requires Enabled(s, st) && c in s.calls && RoleOk(c, s.calls[c]) && CallOkAt(s, c)
    ensures RoleOk(c, Apply(s, st).calls[c])
  {
    if !OwnStep(c, st) {
      OthersLeaveCall(s, st, c);
    } else if st.Advance? {
      MoveKeepsRole(c, s.calls[c], st.move, s.woken);
    } else {
      SectionMovesOn(s, st, c);
    }
  }

  lemma {:induction false} RunKeepsRole(states: seq<State>, steps: seq<Step>, i: nat, c: CallId)
    requires IsRun(states, steps) && i < |states| && c in states[i].calls
    ensures RoleOk(c, states[i].calls[c])
  {
    if i > 0 {
      if c !in states[i - 1].calls {
        NewCall(states[i - 1], steps[i - 1], c);
      } else {
        RunKeepsRole(states, steps, i - 1, c);
        RunInv(states, steps, i - 1);
        assert CallOkAt(states[i - 1], c);
        StepKeepsRole(states[i - 1], steps[i - 1], c);
      }
    }
  }

  /** Only a grouped, first underlay ever reserves, is put to the admitter, runs the factory or publishes; only
      one that is not first is turned away for want of a group; and only an ungrouped one goes to the fallback. */
  lemma OnlyFirstCreates(states: seq<State>, steps: seq<Step>, i: nat, c: CallId)
    requires IsRun(states, steps) && i < |states| && c in states[i].calls
    ensures var call := states[i].calls[c];
            && (Holding(call.pc) || call.creates > 0 || call.admits > 0 ==> call.grouped && call.first)
            && (call.pc.Done? && call.pc.why in {Rejected, CreateAckFailed, Created, FactoryFailed, Stillborn} ==>
                  call.grouped && call.first)
            && (call.pc.Done? && call.pc.why == NoGroup ==> call.grouped && !call.first)
            && (call.pc.Done? && call.pc.why in {Delegated, FallbackFailed} ==> !call.grouped)
            && (call.pc.Done? && call.pc.why in {TimedOut, Attached, AttachRefused} ==> call.grouped)
  {
    RunKeepsRole(states, steps, i, c);
    RunInv(states, steps, i);
    assert CallOkAt(states[i], c);
  }

  predicate AttachesTo(c: CallId, call: Call, target: CallId) {
    call.pc == AckAttach(target) || call.pc == Attach(target) || (call.owner == ChannelOwner(target) && target != c)
  }

  /** A lookup of `c` that meets a live channel. */
  predicate Finds(s: State, st: Step, c: CallId, target: CallId) {
    && st == LookupSection(c) && c in s.calls && HasLive(s, s.calls[c].chId)
    && s.channels[s.calls[c].chId] == target
  }

  lemma AttachStep(s: State, st: Step, c: CallId, target: CallId)
    requires Enabled(s, st) && c in s.calls && AttachesTo(c, Apply(s, st).calls[c], target)
    requires !AttachesTo(c, s.calls[c], target)
    ensures Finds(s, st, c, target)
  {
    if !OwnStep(c, st) {
      OthersLeaveCall(s, st, c);
    } else if st.Advance? {
      MoveAttaches(c, s.calls[c], st.move, s.woken);
    } else {
      SectionMovesOn(s, st, c);
    }
  }

  lemma FoundBefore(states: seq<State>, steps: seq<Step>, i: nat, c: CallId, target: CallId)
    requires IsRun(states, steps) && i < |steps|
    requires c in states[i + 1].calls && AttachesTo(c, states[i + 1].calls[c], target)
    ensures c in states[i].calls
    ensures AttachesTo(c, states[i].calls[c], target) || Finds(states[i], steps[i], c, target)
  {
    if c !in states[i].calls {
      NewCall(states[i], steps[i], c);
      assert false;
    } else if !AttachesTo(c, states[i].calls[c], target) {
      AttachStep(states[i], steps[i], c, target);
    }
  }

  /** The channel a call attaches to, and hands its underlay to, is the live one its lookup found. */
  lemma {:induction false} AttachesToWhatItFound(states: seq<State>, steps: seq<Step>, i: nat,
                                                 c: CallId, target: CallId)
    returns (j: nat)
    requires IsRun(states, steps) && i < |states| && c in states[i].calls && AttachesTo(c, states[i].calls[c], target)
    ensures j < i && Finds(states[j], steps[j], c, target)
  {
    if i == 0 {
      assert false;
    } else {
      FoundBefore(states, steps, i - 1, c, target);
      if AttachesTo(c, states[i - 1].calls[c], target) {
        j := AttachesToWhatItFound(states, steps, i - 1, c, target);
      } else {
        j := i - 1;
      }
    }
  }

  lemma MoveAttaches(c: CallId, call: Call, m: Move, woken: set<CallId>)
    requires CanMove(call, m, woken)
    ensures var call' := Moved(c, call, m, woken);
            && !call'.pc.AckAttach?
            && (call'.pc.Attach? ==> call.pc == AckAttach(call'.pc.target))
            && (call'.owner.ChannelOwner? && call'.owner.channel != c && call'.owner != call.owner ==>
                  call.pc == Attach(call'.owner.channel))
  {
  }

  lemma AttachedHow(s: State, st: Step, c: CallId)
    requires Enabled(s, st) && c in s.calls && Settled(Apply(s, st).calls[c].pc) == Some(Attached)
    ensures var call, call' := s.calls[c], Apply(s, st).calls[c];
            || (Settled(call.pc) == Some(Attached) && call'.owner == call.owner)
            || (call.pc.Attach? && call'.owner == ChannelOwner(call.pc.target))
  {
    if !OwnStep(c, st) {
      OthersLeaveCall(s, st, c);
    } else if st.Advance? {
      MoveAttached(c, s.calls[c], st.move, s.woken);
    }
  }

  lemma MoveAttached(c: CallId, call: Call, m: Move, woken: set<CallId>)
    requires CanMove(call, m, woken) && Settled(Moved(c, call, m, woken).pc) == Some(Attached)
    ensures var call' := Moved(c, call, m, woken);
            || (Settled(call.pc) == Some(Attached) && call'.owner == call.owner)
            || (call.pc.Attach? && call'.owner == ChannelOwner(call.pc.target))
  {
  }

  lemma AttachedBefore(states: seq<State>, steps: seq<Step>, i: nat, c: CallId)
    requires IsRun(states, steps) && i < |steps| && c in states[i + 1].calls
    requires Settled(states[i + 1].calls[c].pc) == Some(Attached)
    ensures c in states[i].calls
    ensures var call, call' := states[i].calls[c], states[i + 1].calls[c];
            || (Settled(call.pc) == Some(Attached) && call'.owner == call.owner)
            || (call.pc.Attach? && call'.owner == ChannelOwner(call.pc.target))
  {
    if c !in states[i].calls {
      NewCall(states[i], steps[i], c);
      assert false;
    } else {
      AttachedHow(states[i], steps[i], c);
    }
  }

  /** An attached underlay belongs to the channel that its own lookup found. */
  lemma {:induction false} AttachedToWhatItFound(states: seq<State>, steps: seq<Step>, i: nat, c: CallId)
    returns (j: nat)
    requires IsRun(states, steps) && i < |states| && c in states[i].calls
    requires Settled(states[i].calls[c].pc) == Some(Attached)
    ensures states[i].calls[c].owner.ChannelOwner?
    ensures j < i && Finds(states[j], steps[j], c, states[i].calls[c].owner.channel)
  {
    if i == 0 {
      assert false;
    } else {
      AttachedBefore(states, steps, i - 1, c);
      var call := states[i - 1].calls[c];
      if call.pc.Attach? {
        j := AttachesToWhatItFound(states, steps, i - 1, c, call.pc.target);
      } else {
        j := AttachedToWhatItFound(states, steps, i - 1, c);
      }
    }
  }
}
