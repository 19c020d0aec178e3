/** What the group-accept protocol guarantees in every interleaving. */
module GroupAcceptSafety {
  import opened Wrappers
  import opened GroupAccept

  lemma {:induction false} RunInv(states: seq<State>, steps: seq<Step>, i: nat)
    requires IsRun(states, steps) && i < |states|
    ensures Inv(states[i])
  {
    if i == 0 {
      var s := states[0];
      forall c ensures CallShape(s, c) && CallOkAt(s, c) && TargetShape(s, c) {}
      forall id ensures NotifierShape(s, id) && ChannelShape(s, id) {}
      forall cb ensures CallbackShape(s, cb) {}
    } else {
      RunInv(states, steps, i - 1);
      StepKeepsInv(states[i - 1], steps[i - 1]);
    }
  }

  // ---------- An acknowledged group can always be found ----------

  /** `c` created its group, the hello was acknowledged, and neither has the factory failed nor the channel closed. */
  predicate GroupOpen(s: State, c: CallId) {
    && c in s.calls && s.calls[c].creates > 0 && Live(s, c)
    && !FactoryFailedAt(s.calls[c].pc)
  }

  /** A lookup of `id` meets a live registration, or a reservation to wait for. */
  predicate Findable(s: State, id: string) {
    (id in s.channels && Live(s, s.channels[id])) || id in s.notifiers
  }

  lemma OpenGroupIsFindable(s: State, c: CallId)
    requires Inv(s) && GroupOpen(s, c)
    ensures Findable(s, s.calls[c].chId)
  {
    assert CallOkAt(s, c) && CallShape(s, c);
  }

  /** A group that is open now was open ever since its hello was acknowledged. */
  lemma {:induction false} OpenSince(states: seq<State>, steps: seq<Step>, c: CallId, i: nat, k: nat)
    requires IsRun(states, steps) && i <= k < |states|
    requires c in states[i].calls && states[i].calls[c].creates > 0
    requires GroupOpen(states[k], c)
    ensures GroupOpen(states[i], c) && states[i].calls[c].chId == states[k].calls[c].chId
    decreases k - i
  {
    if i < k {
      OpenStep(states[i], steps[i], c);
      OpenSince(states, steps, c, i + 1, k);
    }
  }

  predicate FactoryFailedAt(pc: Pc) {
    pc == Release(FactoryFailed) || pc == Done(FactoryFailed)
  }

  /** A call's id is fixed, and once its factory has run, or failed, that stays so. */
  predicate Progresses(old': Call, new': Call) {
    && new'.chId == old'.chId && new'.creates >= old'.creates
    && (FactoryFailedAt(old'.pc) ==> FactoryFailedAt(new'.pc))
  }

  lemma MoveProgresses(c: CallId, call: Call, m: Move, woken: set<CallId>)
    requires CanMove(call, m, woken)
    ensures Progresses(call, Moved(c, call, m, woken))
  {
  }

  lemma AdvanceOpen(s: State, d: CallId, m: Move, c: CallId)
    requires Enabled(s, Advance(d, m)) && c in s.calls
    ensures var t := Apply(s, Advance(d, m));
            c in t.calls && Progresses(s.calls[c], t.calls[c]) && t.regClosed == s.regClosed && t.chClosed == s.chClosed
  {
    MoveProgresses(d, s.calls[d], m, s.woken);
  }

  lemma OpenStep(s: State, st: Step, c: CallId)
    requires Enabled(s, st) && c in s.calls
    ensures var t := Apply(s, st);
            && c in t.calls && Progresses(s.calls[c], t.calls[c])
            && s.regClosed <= t.regClosed && s.chClosed <= t.chClosed
  {
    if st.Advance? { AdvanceOpen(s, st.c, st.move, c); }
  }

  /** The main promise: from the moment a creating underlay's hello is acknowledged until its factory
      fails or its channel closes, no underlay of the group is turned away for want of a channel. */
  lemma AcknowledgedGroupIsNeverTurnedAway(states: seq<State>, steps: seq<Step>, c: CallId, d: CallId, i: nat, j: nat,
      k: nat)
    requires IsRun(states, steps) && i < j <= k < |steps|
    requires steps[i] == Advance(c, AckReturns(true)) && states[i].calls[c].pc == AckCreate
    requires steps[j] == LookupSection(d) && states[j].calls[d].chId == states[i].calls[c].chId
    requires GroupOpen(states[k], c)
    ensures Findable(states[j], states[j].calls[d].chId)
    ensures states[j + 1].calls[d].pc != Close(NoGroup)
  {
    CreatesKept(states, steps, c, i + 1, j);
    OpenSince(states, steps, c, j, k);
    RunInv(states, steps, j);
    OpenGroupIsFindable(states[j], c);
  }

  lemma {:induction false} CreatesKept(states: seq<State>, steps: seq<Step>, c: CallId, i: nat, j: nat)
    requires IsRun(states, steps) && i <= j < |states|
    requires c in states[i].calls && states[i].calls[c].creates > 0
    ensures c in states[j].calls && states[j].calls[c].creates > 0 && states[j].calls[c].chId == states[i].calls[c].chId
    decreases j - i
  {
    if i < j {
      OpenStep(states[i], steps[i], c);
      CreatesKept(states, steps, c, i + 1, j);
    }
  }

  /** A creator's hello is acknowledged only while its own reservation stands. */
  lemma CreatorIsAcknowledgedUnderItsReservation(states: seq<State>, steps: seq<Step>, c: CallId, i: nat, ok: bool)
    requires IsRun(states, steps) && i < |steps|
    requires steps[i] == Advance(c, AckReturns(ok)) && states[i].calls[c].pc == AckCreate
    ensures Reserved(states[i], states[i].calls[c].chId, c)
  {
    RunInv(states, steps, i);
    assert CallShape(states[i], c);
  }

  lemma Extend(states: seq<State>, steps: seq<Step>, st: Step, s: State)
    requires IsRun(states, steps) && Enabled(states[|steps|], st) && s == Apply(states[|steps|], st)
    ensures IsRun(states + [s], steps + [st])
  {
  }

  /** Call 0 on its way to create group "g". */
  function Opening(call: Call, channels: map<string, CallId>, notifiers: map<string, CallId>,
      lock: Option<CallId>): State {
    State(false, channels, notifiers, {}, lock, map[0 := call], {}, {}, map[])
  }

  lemma ReservingRun() returns (states: seq<State>, steps: seq<Step>)
    ensures IsRun(states, steps)
    ensures states[|steps|]
            == Opening(Call("g", true, true, AckCreate, 0, 0, 0, false, Unowned), map[], map["g" := 0], None)
  {
    var call := Call("g", true, true, Begin, 0, 0, 0, false, Unowned);
    var s1 := Opening(call, map[], map[], None);
    var s2 := Opening(call.(pc := Lookup), map[], map[], None);
    var s3 := Opening(call.(pc := AckCreate), map[], map["g" := 0], None);
    states, steps := [Initial(false), s1], [Arrive(0, "g", true, true)];
    Extend(states, steps, Advance(0, Dispatch), s2);
    states, steps := states + [s2], steps + [Advance(0, Dispatch)];
    Extend(states, steps, LookupSection(0), s3);
    states, steps := states + [s3], steps + [LookupSection(0)];
  }

  lemma FactoryRun() returns (states: seq<State>, steps: seq<Step>)
    ensures IsRun(states, steps)
    ensures states[|steps|]
            == Opening(Call("g", true, true, Publish, 1, 0, 1, false, ChannelOwner(0)), map[], map["g" := 0], None)
  {
    states, steps := ReservingRun();
    var call := Call("g", true, true, Create, 1, 0, 1, false, Unowned);
    var s4 := Opening(call, map[], map["g" := 0], None);
    var s5 := Opening(call.(pc := Publish, owner := ChannelOwner(0)), map[], map["g" := 0], None);
    Extend(states, steps, Advance(0, AckReturns(true)), s4);
    states, steps := states + [s4], steps + [Advance(0, AckReturns(true))];
    Extend(states, steps, Advance(0, FactoryReturns(true)), s5);
    states, steps := states + [s5], steps + [Advance(0, FactoryReturns(true))];
  }

  lemma CreatingRun() returns (states: seq<State>, steps: seq<Step>)
    ensures IsRun(states, steps)
    ensures states[|steps|] == Opening(Call("g", true, true, Release(Created), 1, 0, 1, false, ChannelOwner(0)),
                                       map["g" := 0], map["g" := 0], None)
  {
    states, steps := FactoryRun();
    var call := Call("g", true, true, PublishWrite, 1, 0, 1, false, ChannelOwner(0));
    var s6 := Opening(call, map[], map["g" := 0], Some(0));
    var s7 := Opening(call.(pc := Release(Created)), map["g" := 0], map["g" := 0], None);
    Extend(states, steps, PublishCheck(0), s6);
    states, steps := states + [s6], steps + [PublishCheck(0)];
    Extend(states, steps, PublishStore(0), s7);
    states, steps := states + [s7], steps + [PublishStore(0)];
  }

  /** An attaching underlay has no such luck: whenever one is about to be acknowledged, its channel may close first. */
  lemma AttachMayBeAcknowledgedAfterClose(states: seq<State>, steps: seq<Step>, c: CallId, target: CallId)
    requires IsRun(states, steps) && At(states[|steps|], c, AckAttach(target))
    ensures exists s, s' ::
              && IsRun(states + [s, s'], steps + [ChannelCloses(target), Advance(c, AckReturns(true))])
              && target in s.chClosed && At(s', c, Attach(target))
  {
    var s := states[|steps|];
    RunInv(states, steps, |steps|);
    assert TargetShape(s, c) && CallOkAt(s, target);
    var s1 := Apply(s, ChannelCloses(target));
    Extend(states, steps, ChannelCloses(target), s1);
    var s2 := Apply(s1, Advance(c, AckReturns(true)));
    Extend(states + [s1], steps + [ChannelCloses(target)], Advance(c, AckReturns(true)), s2);
    assert states + [s1, s2] == states + [s1] + [s2];
    assert steps + [ChannelCloses(target), Advance(c, AckReturns(true))]
           == steps + [ChannelCloses(target)] + [Advance(c, AckReturns(true))];
  }

  /** And an attaching underlay does get that far. */
  lemma AttachingRun() returns (states: seq<State>, steps: seq<Step>)
    ensures IsRun(states, steps) && At(states[|steps|], 1, AckAttach(0))
  {
    states, steps := CreatingRun();
    var s0 := states[|steps|];
    var s1 := Apply(s0, Arrive(1, "g", true, false));
    Extend(states, steps, Arrive(1, "g", true, false), s1);
    states, steps := states + [s1], steps + [Arrive(1, "g", true, false)];
    var s2 := Apply(s1, Advance(1, Dispatch));
    Extend(states, steps, Advance(1, Dispatch), s2);
    states, steps := states + [s2], steps + [Advance(1, Dispatch)];
    var s3 := Apply(s2, LookupSection(1));
    Extend(states, steps, LookupSection(1), s3);
    states, steps := states + [s3], steps + [LookupSection(1)];
  }

  // ---------- Closed registrations ----------

  /** A registration marked closed is in the map only while a close callback of that registration awaits the lock. */
  lemma ClosedRegistrationAwaitsItsCallback(states: seq<State>, steps: seq<Step>, i: nat, id: string)
    requires IsRun(states, steps) && i < |states|
    requires id in states[i].channels && states[i].channels[id] in states[i].regClosed
    ensures exists cb :: cb in states[i].callbacks && states[i].callbacks[cb] == states[i].channels[id]
  {
    RunInv(states, steps, i);
    assert ChannelShape(states[i], id);
  }

  /** So once every callback has run, nothing closed is left behind to reject reconnects. */
  lemma NoClosedRegistrationAtRest(states: seq<State>, steps: seq<Step>, i: nat)
    requires IsRun(states, steps) && i < |states| && states[i].callbacks == map[]
    ensures forall id | id in states[i].channels :: states[i].channels[id] !in states[i].regClosed
  {
    forall id | id in states[i].channels ensures states[i].channels[id] !in states[i].regClosed {
      if states[i].channels[id] in states[i].regClosed {
        ClosedRegistrationAwaitsItsCallback(states, steps, i, id);
      }
    }
  }

  /** A registration leaves the map, by whatever step, only if it is itself closed: no callback,
      eviction or publication ever displaces a live one, even under the same id. */
  lemma OnlyClosedRegistrationsLeave(states: seq<State>, steps: seq<Step>, i: nat, id: string)
    requires IsRun(states, steps) && i < |steps|
    requires id in states[i].channels
    ensures || Registered(states[i + 1], id, states[i].channels[id])
            || (id !in states[i + 1].channels && !Live(states[i], states[i].channels[id])
                && (steps[i].CallbackSection? ==> states[i].callbacks[steps[i].cb] == states[i].channels[id]))
  {
    var s := states[i];
    RunInv(states, steps, i);
    assert ChannelShape(s, id);
    match steps[i]
    case PublishStore(c) => assert CallShape(s, c);
    case CallbackSection(cb) => assert CallbackShape(s, cb);
    case _ =>
  }

  // ---------- One creator at a time ----------

  /** At most one call per id is between reservation and release, so factories never overlap. */
  lemma OneCreatorPerGroup(states: seq<State>, steps: seq<Step>, i: nat, c: CallId, d: CallId)
    requires IsRun(states, steps) && i < |states|
    requires c in states[i].calls && d in states[i].calls && states[i].calls[c].chId == states[i].calls[d].chId
    requires Holding(states[i].calls[c].pc) && Holding(states[i].calls[d].pc)
    ensures c == d
  {
    RunInv(states, steps, i);
    assert CallShape(states[i], c) && CallShape(states[i], d);
  }

  /** Publishing writes into a vacant slot. */
  lemma PublishNeverOverwrites(states: seq<State>, steps: seq<Step>, i: nat, c: CallId)
    requires IsRun(states, steps) && i < |steps| && steps[i] == PublishStore(c)
    ensures states[i].calls[c].chId !in states[i].channels
    ensures Registered(states[i + 1], states[i].calls[c].chId, c)
  {
    RunInv(states, steps, i);
    assert CallShape(states[i], c) && ChannelShape(states[i], states[i].calls[c].chId);
  }

  /** A waiting call can wake, or the call it waits for still holds the reservation of their group. */
  lemma NobodyWaitsInVain(states: seq<State>, steps: seq<Step>, i: nat, c: CallId)
    requires IsRun(states, steps) && i < |states|
    requires c in states[i].calls && states[i].calls[c].pc.Waiting?
    ensures var n := states[i].calls[c].pc.on;
            || Enabled(states[i], Advance(c, Wake))
            || (n in states[i].calls && Holding(states[i].calls[n].pc)
                && states[i].calls[n].chId == states[i].calls[c].chId)
  {
    RunInv(states, steps, i);
    assert CallShape(states[i], c) && NotifierShape(states[i], states[i].calls[c].chId);
  }

  /** The steps of call `c` itself; its channel may close, and its callback run, at any time. */
  predicate OwnStep(c: CallId, st: Step) {
    match st
    case Arrive(d, _, _, _) => d == c
    case Advance(d, _) => d == c
    case LookupSection(d) => d == c
    case PublishCheck(d) => d == c
    case PublishStore(d) => d == c
    case ReleaseSection(d) => d == c
    case _ => false
  }

  /** How many steps a creator is away from releasing its reservation. */
  function Distance(pc: Pc): nat {
    match pc
    case Admit => 6
    case AckCreate => 5
    case Create => 4
    case Publish => 3
    case PublishWrite => 2
    case Release(_) => 1
    case _ => 0
  }

  lemma OthersLeaveCall(s: State, st: Step, c: CallId)
    requires Enabled(s, st) && c in s.calls && !OwnStep(c, st)
    ensures c in Apply(s, st).calls && Apply(s, st).calls[c] == s.calls[c]
  {
  }

  /** Every step of a creator brings it closer to the release of its reservation, and no other step touches it. */
  lemma CreatorMovesOn(s: State, st: Step, c: CallId)
    requires Enabled(s, st) && c in s.calls && Holding(s.calls[c].pc)
    ensures var t := Apply(s, st);
            && c in t.calls
            && if OwnStep(c, st) then Distance(t.calls[c].pc) < Distance(s.calls[c].pc) else t.calls[c] == s.calls[c]
  {
    if !OwnStep(c, st) {
      OthersLeaveCall(s, st, c);
    } else if st.Advance? {
      CreatorAdvances(c, s.calls[c], st.move, s.woken);
    }
  }

  lemma CreatorAdvances(c: CallId, call: Call, m: Move, woken: set<CallId>)
    requires CanMove(call, m, woken) && Holding(call.pc)
    ensures Distance(Moved(c, call, m, woken).pc) < Distance(call.pc)
  {
  }

  /** In every run a creator has a step to take, or waits for the lock while the one who holds it has. */
  lemma CreatorIsNeverStuck(states: seq<State>, steps: seq<Step>, i: nat, c: CallId)
    requires IsRun(states, steps) && i < |states|
    requires c in states[i].calls && Holding(states[i].calls[c].pc)
    ensures || (exists st :: OwnStep(c, st) && Enabled(states[i], st))
            || (states[i].lock.Some? && Enabled(states[i], PublishStore(states[i].lock.value)))
  {
    var s := states[i];
    RunInv(states, steps, i);
    assert CallShape(s, c);
    var st := match s.calls[c].pc
              case Admit => Advance(c, AdmitterReturns(true))
              case AckCreate => Advance(c, AckReturns(true))
              case Create => Advance(c, FactoryReturns(true))
              case Publish => PublishCheck(c)
              case PublishWrite => PublishStore(c)
              case _ => ReleaseSection(c);
    assert OwnStep(c, st);
    assert s.lock.None? ==> Enabled(s, st);
  }

  // ---------- Accounting ----------

  /** The ways in which a call that reserved its id can end. */
  const CREATOR_ENDS: set<Outcome> := {Rejected, CreateAckFailed, Created, FactoryFailed, Stillborn}

  /** Every finished call has closed its underlay or given it to exactly one owner of the right kind;
      it acknowledged at most once, and not at all when it refused, timed out or found no group; and
      the admitter was asked once if the call reserved the group, and never otherwise. */
  lemma FinishedCallAccounts(states: seq<State>, steps: seq<Step>, i: nat, c: CallId)
    requires IsRun(states, steps) && i < |states|
    requires c in states[i].calls && states[i].calls[c].pc.Done?
    ensures var call := states[i].calls[c]; var why := call.pc.why;
            && call.closed == (call.owner == Unowned)
            && (call.owner.ChannelOwner? ==> InGroup(states[i], call.chId, call.owner.channel))
            && call.acks == (if why in {NoGroup, TimedOut, Rejected} then 0 else 1)
            && call.admits == (if states[i].hasAdmitter && why in CREATOR_ENDS then 1 else 0)
            && call.creates == (if why in {Created, FactoryFailed, Stillborn} then 1 else 0)
            && (call.owner != Unowned <==> why in {Delegated, Attached, Created, Stillborn})
  {
    RunInv(states, steps, i);
    assert CallOkAt(states[i], c) && TargetShape(states[i], c);
  }
}
