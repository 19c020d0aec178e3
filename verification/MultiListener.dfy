/** The listener object of multi_listener.go: its locked sections on the two shared maps, and the whole of
    AcceptUnderlay and closeRegistration, with any number of other calls and callbacks acting in between. */
module MultiListener {
  import opened Wrappers
  import opened GroupAccept
  import opened GroupAcceptSafety
  import opened GroupAcceptCauses

  predicate Same(c: CallId, s: State, s': State) {
    && s'.hasAdmitter == s.hasAdmitter && s.regClosed <= s'.regClosed && s.woken <= s'.woken
    && (c in s.calls <==> c in s'.calls) && (c in s.calls ==> s'.calls[c] == s.calls[c])
  }

  lemma OthersLeaveMe(s: State, st: Step, c: CallId)
    requires Enabled(s, st) && !OwnStep(c, st)
    ensures Same(c, s, Apply(s, st))
  {
  }

  /** Every finished call accounts for its underlay, its acknowledgement and its admission. */
  predicate Accounts(s: State, c: CallId) {
    && c in s.calls && s.calls[c].pc.Done?
    && var call := s.calls[c];
       var why := call.pc.why;
       && call.closed == (call.owner == Unowned)
       && (call.owner.ChannelOwner? ==> InGroup(s, call.chId, call.owner.channel))
       && call.acks == (if why in {NoGroup, TimedOut, Rejected} then 0 else 1)
       && call.admits == (if s.hasAdmitter && why in CREATOR_ENDS then 1 else 0)
       && call.creates == (if why in {Created, FactoryFailed, Stillborn} then 1 else 0)
       && (call.owner != Unowned <==> why in {Delegated, Attached, Created, Stillborn})
       && (why in CREATOR_ENDS ==> call.grouped && call.first)
       && (why == NoGroup ==> call.grouped && !call.first)
       && (why in {Delegated, FallbackFailed} ==> !call.grouped)
       && (why in {TimedOut, Attached, AttachRefused} ==> call.grouped)
  }

  /** The accept loop under the lock: attach to a live channel; otherwise evict what is stale, and wait for a
      creator, give up, or reserve the id. */
  method LookedUp(s: State, c: CallId) returns (t: State)
    requires c in s.calls
    ensures t == ApplyLookup(s, c)
  {
    var id := s.calls[c].chId;
    var channels, notifiers, pc := s.channels, s.notifiers, s.calls[c].pc;
    if id in channels && channels[id] !in s.regClosed && channels[id] !in s.chClosed {
      pc := AckAttach(channels[id]);
    } else {
      channels := channels - {id};
      if id in notifiers {
        pc := Waiting(notifiers[id]);
      } else if !s.calls[c].first {
        pc := Pc.Close(NoGroup);
      } else {
        notifiers := notifiers[id := c];
        pc := if s.hasAdmitter then Admit else AckCreate;
      }
    }
    t := s.(channels := channels, notifiers := notifiers, calls := s.calls[c := s.calls[c].(pc := pc)]);
  }

  class Listener {
    const schedule: nat -> seq<Step>    // what the others do, whenever they get the chance
    const answers: nat -> bool          // what the application and the network answer, and when
    var clock: nat
    var s: State                        // the two maps, the lock, and every call and callback under way
    ghost var states: seq<State>
    ghost var steps: seq<Step>

    ghost predicate Valid()
      reads this
    {
      IsRun(states, steps) && s == states[|steps|]
    }

    constructor (hasAdmitter: bool, schedule: nat -> seq<Step>, answers: nat -> bool)
      ensures Valid() && s == Initial(hasAdmitter)
    {
      this.schedule, this.answers, clock := schedule, answers, 0;
      s, states, steps := Initial(hasAdmitter), [Initial(hasAdmitter)], [];
    }

    // ---------- The others ----------

    method Do(st: Step)
      requires Valid() && Enabled(s, st)
      modifies this
      ensures Valid() && s == Apply(old(s), st) && old(states) < states
    {
      s := Apply(s, st);
      states, steps := states + [s], steps + [st];
    }

    method Others(c: CallId)
      requires Valid()
      modifies this
      ensures Valid() && old(states) <= states && Same(c, old(s), s)
    {
      var todo := schedule(clock);
      clock := clock + 1;
      for i := 0 to |todo|
        invariant Valid() && old(states) <= states && Same(c, old(s), s)
      {
        if !OwnStep(c, todo[i]) && Enabled(s, todo[i]) {
          OthersLeaveMe(s, todo[i], c);
          Do(todo[i]);
        }
      }
    }

    /** Waiting for the listener lock: the others act, and a publisher holding it finishes. */
    method Acquire(c: CallId)
      requires Valid() && (c in s.calls ==> s.calls[c].pc != PublishWrite)
      modifies this
      ensures Valid() && old(states) <= states && Same(c, old(s), s) && s.lock.None?
    {
      Others(c);
      if s.lock.Some? {
        RunInv(states, steps, |steps|);
        OthersLeaveMe(s, PublishStore(s.lock.value), c);
        Do(PublishStore(s.lock.value));
      }
    }

    /** The outside world answers. */
    method Ask() returns (answer: bool)
      modifies this`clock
    {
      answer := answers(clock);
      clock := clock + 1;
    }

    // ---------- The locked sections ----------

    method Lookup(c: CallId)
      requires Valid() && Enabled(s, LookupSection(c))
      modifies this
      ensures Valid() && s == Apply(old(s), LookupSection(c)) && old(states) < states
    {
      s := LookedUp(s, c);
      states, steps := states + [s], steps + [LookupSection(c)];
    }

    /** The publishing section: the check and, the lock still held, the write into a slot that is vacant. */
    method PublishSection(c: CallId)
      requires Valid() && Enabled(s, PublishCheck(c))
      modifies this
      ensures Valid() && old(states) < states && c in s.calls
      ensures s.calls[c].pc == Release(Stillborn) || s.calls[c].pc == Release(Created)
    {
      Do(PublishCheck(c));
      if s.calls[c].pc.PublishWrite? {
        Others(c);
        PublishNext(states, steps, c);
        assert s.calls[c].chId !in s.channels;
        Do(PublishStore(c));
      }
    }

    /** releaseReservation: the notifier is closed, for the first time. */
    method ReleaseReservation(c: CallId)
      requires Valid() && c in s.calls && s.calls[c].pc.Release?
      modifies this
      ensures Valid() && old(states) < states && c in s.calls && c in s.woken
      ensures var why := old(s.calls[c].pc.why);
              s.calls[c].pc == if why.Rejected? || why.CreateAckFailed? then Pc.Close(why) else Done(why)
    {
      Acquire(c);
      ReleaseNext(states, steps, c);
      assert c !in s.woken;
      Do(ReleaseSection(c));
    }

    // ---------- AcceptUnderlay ----------

    method CloseUnderlay(c: CallId)
      requires Valid() && c in s.calls && s.calls[c].pc.Close?
      modifies this
      ensures Valid() && old(states) < states && c in s.calls && s.calls[c].pc.Done?
    {
      Others(c);
      Do(Advance(c, Move.CloseUnderlay));
    }

    /** An ungrouped underlay: acknowledged and handed to the fallback, or closed. */
    method AcceptUngrouped(c: CallId)
      requires Valid() && At(s, c, AckFallback)
      modifies this
      ensures Valid() && old(states) < states && c in s.calls && s.calls[c].pc.Done?
    {
      Others(c);
      var ok := Ask();
      Do(Advance(c, AckReturns(ok)));
      if ok {
        Others(c);
        ok := Ask();
        Do(Advance(c, FallbackReturns(ok)));
      }
      if !ok { CloseUnderlay(c); }
    }

    /** An underlay of an existing group: acknowledged and offered to its channel. */
    method AcceptAttaching(c: CallId)
      requires Valid() && c in s.calls && s.calls[c].pc.AckAttach?
      modifies this
      ensures Valid() && old(states) < states && c in s.calls && s.calls[c].pc.Done?
    {
      Others(c);
      var ok := Ask();
      Do(Advance(c, AckReturns(ok)));
      if !ok {
        CloseUnderlay(c);
      } else {
        Others(c);
        ok := Ask();
        Do(Advance(c, AttachReturns(ok)));
      }
    }

    /** The admitter, where there is one, decides before anything is acknowledged. */
    method Admitted(c: CallId) returns (ok: bool)
      requires Valid() && c in s.calls && (s.calls[c].pc.Admit? || s.calls[c].pc.AckCreate?)
      modifies this
      ensures Valid() && old(states) <= states && c in s.calls
      ensures s.calls[c].pc == if ok then AckCreate else Release(Rejected)
    {
      ok := true;
      if s.calls[c].pc.Admit? {
        Others(c);
        ok := Ask();
        Do(Advance(c, AdmitterReturns(ok)));
      }
    }

    /** The first underlay of a group: admission, acknowledgement, factory, publication, release. */
    method AcceptCreating(c: CallId)
      requires Valid() && c in s.calls && (s.calls[c].pc.Admit? || s.calls[c].pc.AckCreate?)
      modifies this
      ensures Valid() && old(states) < states && c in s.calls && s.calls[c].pc.Done?
    {
      var ok := Admitted(c);
      if ok { Create(c); }
      ReleaseReservation(c);
      if s.calls[c].pc.Close? { CloseUnderlay(c); }
    }

    method Create(c: CallId)
      requires Valid() && At(s, c, AckCreate)
      modifies this
      ensures Valid() && old(states) < states && c in s.calls && s.calls[c].pc.Release?
    {
      Others(c);
      var ok := Ask();
      Do(Advance(c, AckReturns(ok)));
      if ok { RunFactory(c); }
    }

    method RunFactory(c: CallId)
      requires Valid() && At(s, c, Pc.Create)
      modifies this
      ensures Valid() && old(states) < states && c in s.calls && s.calls[c].pc.Release?
    {
      Others(c);
      var ok := Ask();
      Do(Advance(c, FactoryReturns(ok)));
      if ok {
        Acquire(c);
        PublishSection(c);
      }
    }

    /** One turn of the accept loop; whether there is to be another. */
    method FindTurn(c: CallId) returns (again: bool)
      requires Valid() && At(s, c, Pc.Lookup)
      modifies this
      ensures Valid() && old(states) < states && c in s.calls
      ensures again ==> s.calls[c].pc.Lookup?
      ensures !again ==>
                || s.calls[c].pc.Done? || s.calls[c].pc.AckAttach? || s.calls[c].pc.Admit?
                || s.calls[c].pc.AckCreate?
    {
      Acquire(c);
      Lookup(c);
      if s.calls[c].pc.Waiting? {
        again := Wait(c);
        if again { return; }
      }
      if s.calls[c].pc.Close? { CloseUnderlay(c); }
      again := false;
    }

    /** The wait for a creator: until it is woken, or for a second. */
    method Wait(c: CallId) returns (woken: bool)
      requires Valid() && c in s.calls && s.calls[c].pc.Waiting?
      modifies this
      ensures Valid() && old(states) < states && c in s.calls
      ensures s.calls[c].pc == if woken then Pc.Lookup else Pc.Close(TimedOut)
    {
      Others(c);
      var inTime := Ask();
      woken := inTime && s.calls[c].pc.on in s.woken;
      Do(Advance(c, if woken then Wake else Timeout));
    }

    /** The accept loop, for as many turns as are looked at: it ends with the underlay closed, or with a channel
        to attach to, or with the reservation of its id. */
    method FindGroup(c: CallId, turns: nat) returns (found: bool)
      requires Valid() && At(s, c, Pc.Lookup)
      modifies this
      ensures Valid() && old(states) <= states && c in s.calls
      ensures found ==>
                || s.calls[c].pc.Done? || s.calls[c].pc.AckAttach? || s.calls[c].pc.Admit?
                || s.calls[c].pc.AckCreate?
    {
      for i := 0 to turns
        invariant Valid() && old(states) <= states && At(s, c, Pc.Lookup)
      {
        var again := FindTurn(c);
        if !again { return true; }
      }
      return false;
    }

    /** AcceptUnderlay, whatever the application answers and whatever goes on besides: when it has returned, the
        underlay is closed or has exactly one owner of its own group, it was acknowledged at most once and
        never when refused, and the admitter was asked once by a creator and by nobody else. */
    method AcceptUnderlay(c: CallId, chId: string, grouped: bool, first: bool, turns: nat) returns (done: bool)
      requires Valid() && c !in s.calls
      modifies this
      ensures Valid() && old(states) < states
      ensures done ==> Accounts(s, c) && s.calls[c].grouped == grouped && s.calls[c].first == first
    {
      Do(Arrive(c, chId, grouped, first));
      ghost var at, sofar := |steps|, states;
      Do(Advance(c, Dispatch));
      if !grouped {
        AcceptUngrouped(c);
      } else {
        done := FindGroup(c, turns);
        if !done { return; }
        if s.calls[c].pc.AckAttach? {
          AcceptAttaching(c);
        } else if !s.calls[c].pc.Done? {
          AcceptCreating(c);
        }
      }
      assert sofar <= states && states[at] == sofar[at];
      CallAccounts(states, steps, at, c);
      done := true;
    }

    /** closeRegistration: when it has returned, its registration is marked and out of the map; what is under
        the same id then is another one. */
    method CloseRegistration(cb: nat, c: CallId)
      requires Valid() && cb !in s.callbacks && c in s.calls && s.calls[c].creates > 0
      modifies this
      ensures Valid() && old(states) < states && c in s.regClosed && c in s.calls
      ensures !Registered(s, s.calls[c].chId, c)
    {
      Do(CallbackStore(cb, c));
      AcquireForCallback(cb, c);
      Do(CallbackSection(cb));
    }

    method AcquireForCallback(cb: nat, c: CallId)
      requires Valid() && cb in s.callbacks && s.callbacks[cb] == c && c in s.calls && c in s.regClosed
      modifies this
      ensures Valid() && old(states) <= states && s.lock.None? && c in s.regClosed
      ensures cb in s.callbacks && s.callbacks[cb] == c && c in s.calls
    {
      var todo := schedule(clock);
      clock := clock + 1;
      for i := 0 to |todo|
        invariant Valid() && old(states) <= states && c in s.regClosed
        invariant cb in s.callbacks && s.callbacks[cb] == c && c in s.calls
      {
        if todo[i] != CallbackSection(cb) && Enabled(s, todo[i]) { Do(todo[i]); }
      }
      if s.lock.Some? {
        RunInv(states, steps, |steps|);
        Do(PublishStore(s.lock.value));
      }
    }
  }

  lemma CallAccounts(states: seq<State>, steps: seq<Step>, at: nat, c: CallId)
    requires IsRun(states, steps) && at < |states| && c in states[at].calls
    requires c in states[|steps|].calls && states[|steps|].calls[c].pc.Done?
    ensures Accounts(states[|steps|], c) && SameArguments(states[at].calls[c], states[|steps|].calls[c])
  {
    FinishedCallAccounts(states, steps, |steps|, c);
    OnlyFirstCreates(states, steps, |steps|, c);
    ArgumentsKept(states, steps, at, |steps|, c);
  }

  predicate SameArguments(a: Call, b: Call) {
    b.chId == a.chId && b.grouped == a.grouped && b.first == a.first
  }

  /** A call keeps the arguments it was made with. */
  lemma ArgumentsKept(states: seq<State>, steps: seq<Step>, i: nat, j: nat, c: CallId)
    requires IsRun(states, steps) && i <= j < |states| && c in states[i].calls
    ensures c in states[j].calls && SameArguments(states[i].calls[c], states[j].calls[c])
  {
    for k := i to j
      invariant c in states[k].calls && SameArguments(states[i].calls[c], states[k].calls[c])
    {
      ArgumentsNext(states, steps, k, c);
    }
  }

  lemma ArgumentsStep(s: State, st: Step, c: CallId)
    requires Enabled(s, st) && c in s.calls
    ensures c in Apply(s, st).calls && SameArguments(s.calls[c], Apply(s, st).calls[c])
  {
    if !OwnStep(c, st) { OthersLeaveCall(s, st, c); }
  }

  lemma ArgumentsNext(states: seq<State>, steps: seq<Step>, i: nat, c: CallId)
    requires IsRun(states, steps) && i < |steps| && c in states[i].calls
    ensures c in states[i + 1].calls && SameArguments(states[i].calls[c], states[i + 1].calls[c])
  {
    ArgumentsStep(states[i], steps[i], c);
  }

  lemma PublishNext(states: seq<State>, steps: seq<Step>, c: CallId)
    requires IsRun(states, steps) && At(states[|steps|], c, PublishWrite)
    ensures states[|steps|].calls[c].chId !in states[|steps|].channels
  {
    var s := states[|steps|];
    RunInv(states, steps, |steps|);
    assert CallShape(s, c) && ChannelShape(s, s.calls[c].chId);
  }

  lemma ReleaseNext(states: seq<State>, steps: seq<Step>, c: CallId)
    requires IsRun(states, steps) && c in states[|steps|].calls && states[|steps|].calls[c].pc.Release?
    ensures c !in states[|steps|].woken
  {
    RunInv(states, steps, |steps|);
    assert CallShape(states[|steps|], c);
  }
}
