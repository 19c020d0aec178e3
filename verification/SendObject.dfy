/** Send, WaitForWire and tx as senders.go, envelope.go and impl.go write them, on the shared state of the send
    path, with any number of other goroutines acting between their parts. */
module SendObject {
  import opened Wrappers
  import opened SendPath
  import opened SendConservation

  /** Whose steps are being followed: a txer, or the call that sends the message with this sequence. */
  datatype Me = Txer(t: nat) | Sender(n: nat)

  predicate Mine(me: Me, st: Step) {
    match me
    case Txer(t) => (st.Dequeue? && st.t == t) || (st.Tx? && st.t == t)
    case Sender(n) =>
      (st.Enqueue? && st.n == n) || (st.SendFails? && st.n == n) || (st.WaitReturns? && st.x.sq == n)
  }

  /** How far I have got is the same in both. */
  predicate Same(me: Me, s: State, s': State) {
    && s'.cfg == s.cfg
    && match me
       case Txer(t) => t in s.txers ==> t in s'.txers && s'.txers[t] == s.txers[t]
       case Sender(n) =>
         && n < s.nextSeq <= s'.nextSeq
         && (n in s.numbered <==> n in s'.numbered) && (n in s.numbered ==> s'.numbered[n] == s.numbered[n])
         && (n in s.accepted <==> n in s'.accepted) && (n in s.accepted ==> s'.accepted[n] == s.accepted[n])
         && forall x | x in s'.got && x.sq == n :: x in s.got
  }

  /** All that a txer leaves alone. */
  ghost predicate Untouched(s: State, s': State, u: nat) {
    && s'.cfg == s.cfg && s'.nextSeq == s.nextSeq && s'.numbered == s.numbered && s'.accepted == s.accepted
    && s'.got == s.got && |s'.queues| == |s.queues| && s'.entered == s.entered
    && u in s'.txers && s'.txers == s.txers[u := s'.txers[u]]
  }

  lemma EndTouches(s: State, u: nat, m: TxMove)
    requires Enabled(s, Tx(u, m)) && (m.Expire? || m.Trace? || m.RefuseTimeout? || m.AfterWrite? || m.GiveUpDone?)
    ensures Untouched(s, ApplyTx(s, u, m), u)
  {
  }

  lemma MoveTouches(s: State, u: nat, m: TxMove)
    requires Enabled(s, Tx(u, m)) && (m.Begin? || m.WriteOk? || m.WriteFails? || m.Disarm? || m.GiveUp?)
    ensures Untouched(s, ApplyTx(s, u, m), u)
  {
  }

  lemma TxTouches(s: State, u: nat, m: TxMove)
    requires Enabled(s, Tx(u, m))
    ensures Untouched(s, ApplyTx(s, u, m), u)
  {
    if m.Expire? || m.Trace? || m.RefuseTimeout? || m.AfterWrite? || m.GiveUpDone? {
      EndTouches(s, u, m);
    } else if m.Begin? || m.WriteOk? || m.WriteFails? || m.Disarm? || m.GiveUp? {
      MoveTouches(s, u, m);
    }
  }

  lemma OthersLeaveTxer(s: State, st: Step, t: nat)
    requires Enabled(s, st) && !Mine(Txer(t), st)
    ensures Same(Txer(t), s, Next(s, st))
  {
    if st.Tx? { TxTouches(s, st.t, st.move); }
  }

  lemma OthersLeaveSender(s: State, w: map<Sendable, Place>, st: Step, n: nat)
    requires Enabled(s, st) && !Mine(Sender(n), st) && Inv(s, w) && n < s.nextSeq
    ensures Same(Sender(n), s, Next(s, st))
  {
    if st.Tx? {
      TxTouches(s, st.t, st.move);
    } else if st.SendFails? {
      assert MessageShape(s, w, Sendable(st.n, true, true));
    }
  }

  lemma NextIsNew(states: seq<State>, steps: seq<Step>)
    requires IsRun(states, steps)
    ensures var s := states[|steps|]; s.nextSeq !in s.accepted && forall y | y in s.got :: y.sq != s.nextSeq
  {
    var s := states[|steps|];
    var w := RunInv(states, steps, |steps|);
    assert MessageShape(s, w, Sendable(s.nextSeq, true, true));
    forall y | y in s.got ensures y.sq != s.nextSeq { assert MessageShape(s, w, y); }
  }

  /** Whether a queue takes a message without blocking: a buffered one that is not full does, an unbuffered one if a
      receiver is waiting for it and no other message is on its way there. */
  predicate RoomFor(s: State, q: nat, receiver: bool) {
    && q < |s.queues| && q < |s.cfg.caps|
    && if s.cfg.caps[q] > 0 then |s.queues[q]| < s.cfg.caps[q] else s.queues[q] == [] && receiver
  }

  datatype TxResult = Finished(outcome: Outcome) | Requeued(k: nat)

  /** What happens to one call of tx: its write context, its timeout, its write, and the receivers that wait
      at unbuffered queues when it is retried. */
  datatype World = World(live: bool, timeoutSet: bool, writeOk: bool, receiver: nat -> bool, others: nat -> seq<Step>)

  class Sending {
    var s: State
    ghost var states: seq<State>
    ghost var steps: seq<Step>

    ghost predicate Valid()
      reads this
    {
      IsRun(states, steps) && s == states[|steps|]
    }

    constructor (cfg: Config)
      ensures Valid() && s == Initial(cfg) && steps == []
    {
      s, states, steps := Initial(cfg), [Initial(cfg)], [];
    }

    method Do(st: Step)
      requires Valid() && Enabled(s, st)
      modifies this
      ensures Valid() && s == Next(old(s), st) && steps == old(steps) + [st] && states == old(states) + [s]
    {
      s := Next(s, st);
      states, steps := states + [s], steps + [st];
    }

    /** Other goroutines take these steps, as far as they can. */
    method Others(me: Me, world: seq<Step>)
      requires Valid() && (me.Sender? ==> me.n < s.nextSeq)
      modifies this
      ensures Valid() && old(steps) <= steps && old(states) <= states && Same(me, old(s), s)
    {
      for i := 0 to |world|
        invariant Valid() && old(steps) <= steps && old(states) <= states && Same(me, old(s), s)
      {
        if !Mine(me, world[i]) && Enabled(s, world[i]) {
          ghost var w := RunInv(states, steps, |steps|);
          if me.Txer? { OthersLeaveTxer(s, world[i], me.t); } else { OthersLeaveSender(s, w, world[i], me.n); }
          Do(world[i]);
        }
      }
    }

    /** The next sequence, which nothing has been told about yet. */
    method Draw(wantsReply: bool, tracer: bool) returns (x: Sendable)
      requires Valid()
      modifies this
      ensures Valid() && old(steps) <= steps && s.cfg == old(s.cfg) && s.nextSeq == x.sq + 1
      ensures x == Sendable(old(s.nextSeq), wantsReply, tracer)
      ensures x.sq in s.numbered && s.numbered[x.sq] == x && x.sq !in s.accepted
      ensures forall y | y in s.got :: y.sq != x.sq
    {
      x := Sendable(s.nextSeq, wantsReply, tracer);
      NextIsNew(states, steps);
      Do(Number(wantsReply, tracer));
    }

    /** Send and TrySend: the message gets a sequence of its own and is then in the queue, or refused. */
    method Send(q: nat, wantsReply: bool, tracer: bool, receiver: bool, giveUp: bool, world: seq<Step>)
      returns (x: Sendable, ok: bool)
      requires Valid() && q < |s.cfg.caps|
      modifies this
      ensures Valid() && old(steps) <= steps && x == Sendable(old(s.nextSeq), wantsReply, tracer) && x.sq < s.nextSeq
      ensures ok ==> Accepted(s, x) && Is(s, x, InQueue(q)) && x !in s.got
      ensures |steps| > 0 && (ok <==> !giveUp && RoomFor(states[|steps| - 1], q, receiver))
      ensures ok ==> s.queues[q] == states[|steps| - 1].queues[q] + [x]
      ensures !ok ==> !Accepted(s, x) && x in s.got && s.got[x] == Refused
    {
      x := Draw(wantsReply, tracer);
      Others(Sender(x.sq), world);
      QueuesKept(states, steps, |steps|);
      ok := !giveUp && RoomFor(s, q, receiver);
      if ok {
        Do(Enqueue(x.sq, q));
        assert s.queues[q][|s.queues[q]| - 1] == x;
      } else {
        Do(SendFails(x.sq));
      }
    }

    /** WaitForWire: whichever branch of its select is taken, nil means that the message was written. */
    method WaitForWire(q: nat, wantsReply: bool, tracer: bool, receiver: bool, giveUp: bool, from: Source,
                       before: seq<Step>, after: seq<Step>)
      returns (v: Verdict, x: Sendable)
      requires Valid() && q < |s.cfg.caps|
      modifies this
      ensures Valid() && old(steps) <= steps && x in s.got && v == s.got[x]
      ensures v.Nil? ==> multiset(s.wire)[x] == 1
      ensures v.Failure? ==> multiset(s.wire)[x] == 0
      ensures v.Refused? <==> !Accepted(s, x)
      ensures |steps| > 0 && (!v.Refused? ==>
                var seen := states[|steps| - 1];
                v == if from.ErrC? && seen.errs[x] > 0 then Failure
                     else if from.ErrC? && seen.afters[x] > 0 then Nil
                     else if from.CloseNotify? && seen.closed then ClosedError
                     else TimedOut)
    {
      var ok;
      x, ok := Send(q, wantsReply, tracer, receiver, giveUp, before);
      if ok {
        Others(Sender(x.sq), after);
        Do(WaitReturns(x, if Offers(s, x, from) then from else ContextDone));
      }
      v := s.got[x];
      NilOnlyIfWritten(states, steps, |steps|, x);
    }

    /** tx goes on to its next part.  When it reports an error to WaitForWire, the error channel is open and
        empty: the txer neither blocks nor panics. */
    method Move(t: nat, m: TxMove)
      requires Valid() && Enabled(s, Step.Tx(t, m)) && Onward(s.txers[t], m).Some?
      modifies this
      ensures Valid() && old(steps) <= steps && s.cfg == old(s.cfg)
      ensures t in s.txers && s.txers[t] == Onward(old(s.txers[t]), m).value
      ensures CallsNotifyErr(m) ==> old(s.errs[s.txers[t].x]) == 0 && old(s.afters[s.txers[t].x]) == 0
    {
      Do(Step.Tx(t, m));
      ErrorChannelIsSafe(states, steps, |steps| - 1, t, m);
    }

    /** tx comes to an end, and so does the message.  The error channel that is written to is empty and open,
        the one that is closed is open. */
    method Finish(t: nat, m: TxMove, o: Outcome)
      requires Valid() && Enabled(s, Step.Tx(t, m)) && OutcomeOf(m) == Some(o)
      modifies this
      ensures Valid() && old(steps) <= steps && t in s.txers && Ends(s, old(s.txers[t].x), Finished(o))
      ensures s.txers[t] == if o.Failed? || o.TimeoutRefused? then Exited else Idle
      ensures CallsNotifyErr(m) ==> old(s.errs[s.txers[t].x]) == 0 && old(s.afters[s.txers[t].x]) == 0
      ensures CallsNotifyAfterWrite(m) ==> old(s.afters[s.txers[t].x]) == 0
    {
      ghost var x := s.txers[t].x;
      Do(Step.Tx(t, m));
      ErrorChannelIsSafe(states, steps, |steps| - 1, t, m);
      EndsThere(states, steps, x, Ended(o));
    }

    /** RetryToQueues: the queues are tried one after the other, each at its own moment.  The message goes to the
        end of the first that has room when it is tried; it stays with the txer only if every one refused. */
    method RetryToQueues(t: nat, receiver: nat -> bool, others: nat -> seq<Step>)
      returns (at: Option<nat>, ghost tries: seq<State>)
      requires Valid() && t in s.txers && s.txers[t].Disarmed?
      modifies this
      ensures Valid() && old(steps) <= steps && s.cfg == old(s.cfg) && t in s.txers
      ensures |tries| == if at.None? then |s.cfg.retry| else at.value + 1
      ensures |tries| <= |s.cfg.retry| && forall k | 0 <= k < |tries| :: tries[k] in states
      ensures forall k | 0 <= k < |tries| :: RoomFor(tries[k], s.cfg.retry[k], receiver(k)) <==> at == Some(k)
      ensures at.None? ==> s.txers[t] == old(s.txers[t])
      ensures at.Some? ==>
                && Ends(s, old(s.txers[t].x), Requeued(at.value)) && s.txers[t].Exited?
                && var q := s.cfg.retry[at.value];
                   && RoomFor(tries[at.value], q, receiver(at.value))
                   && s.queues[q] == tries[at.value].queues[q] + [old(s.txers[t].x)]
    {
      var x := s.txers[t].x;
      tries := [];
      for k := 0 to |s.cfg.retry|
        invariant Valid() && old(steps) <= steps && s.cfg == old(s.cfg) && t in s.txers && s.txers[t] == Disarmed(x)
        invariant |tries| == k && forall j | 0 <= j < k :: tries[j] in states
        invariant forall j | 0 <= j < k :: !RoomFor(tries[j], s.cfg.retry[j], receiver(j))
      {
        var ok, seen := TryQueue(t, k, receiver(k), others(k));
        tries := tries + [seen];
        if ok { return Some(k), tries; }
      }
      return None, tries;
    }

    method TryQueue(t: nat, k: nat, receiver: bool, world: seq<Step>) returns (ok: bool, ghost seen: State)
      requires Valid() && t in s.txers && s.txers[t].Disarmed? && k < |s.cfg.retry|
      modifies this
      ensures Valid() && old(steps) <= steps && old(states) <= states && s.cfg == old(s.cfg) && t in s.txers
      ensures seen in states && (ok <==> RoomFor(seen, s.cfg.retry[k], receiver))
      ensures !ok ==> s.txers[t] == old(s.txers[t])
      ensures ok ==>
                && Ends(s, old(s.txers[t].x), Requeued(k)) && s.txers[t].Exited?
                && s.queues[s.cfg.retry[k]] == seen.queues[s.cfg.retry[k]] + [old(s.txers[t].x)]
    {
      Others(Txer(t), world);
      seen := s;
      assert states[|steps|] == seen;
      ok := RoomFor(s, s.cfg.retry[k], receiver);
      if ok { Requeue(t, k); }
    }

    method Requeue(t: nat, k: nat)
      requires Valid() && Enabled(s, Step.Tx(t, TxMove.Requeue(k)))
      modifies this
      ensures Valid() && old(steps) <= steps && old(states) <= states && s.cfg == old(s.cfg)
      ensures t in s.txers && s.txers[t].Exited? && Ends(s, old(s.txers[t].x), Requeued(k))
      ensures s.queues[s.cfg.retry[k]] == old(s.queues[s.cfg.retry[k]]) + [old(s.txers[t].x)]
    {
      var x := s.txers[t].x;
      Do(Step.Tx(t, TxMove.Requeue(k)));
      var q := s.queues[s.cfg.retry[k]];
      assert q[|q| - 1] == x;
      EndsThere(states, steps, x, InQueue(s.cfg.retry[k]));
    }

    /** tx after a failed write: the waiter goes first, then the message is requeued or reported, never both. */
    method WriteFailed(t: nat, receiver: nat -> bool, others: nat -> seq<Step>) returns (r: TxResult)
      requires Valid() && t in s.txers && s.txers[t].WriteFailed?
      modifies this
      ensures Valid() && old(steps) <= steps && t in s.txers && s.txers[t].Exited?
      ensures Ends(s, old(s.txers[t].x), r) && (r.Requeued? || r.outcome.Failed?)
    {
      Move(t, Disarm);
      var at, tries := RetryToQueues(t, receiver, (i: nat) => others(i + 2));
      if at.Some? { return Requeued(at.value); }
      Others(Txer(t), others(0));
      Move(t, GiveUp);
      Others(Txer(t), others(1));
      Finish(t, GiveUpDone, Failed);
      return Finished(Failed);
    }

    /** tx from the point where the waiter is registered. */
    method Write(t: nat, w: World) returns (r: TxResult)
      requires Valid() && t in s.txers && s.txers[t].Writing?
      modifies this
      ensures Valid() && old(steps) <= steps && t in s.txers && Ends(s, old(s.txers[t].x), r)
      ensures r == Finished(Written) <==> w.timeoutSet && w.writeOk
      ensures r == Finished(TimeoutRefused) <==> !w.timeoutSet
      ensures r.Requeued? || r.outcome.Failed? || r.outcome.TimeoutRefused? || r.outcome.Written?
      ensures s.txers[t] == if r == Finished(Written) then Idle else Exited
    {
      if !w.timeoutSet {
        Finish(t, RefuseTimeout, TimeoutRefused);
        return Finished(TimeoutRefused);
      }
      if w.writeOk {
        Move(t, WriteOk);
        Others(Txer(t), w.others(1));
        Finish(t, AfterWrite, Written);
        return Finished(Written);
      }
      Move(t, WriteFails);
      Others(Txer(t), w.others(1));
      r := WriteFailed(t, w.receiver, (i: nat) => w.others(i + 2));
    }

    /** tx, for every answer of the world and every interleaving with the rest of the channel.  The message
        ends in one queue, without a waiter, or at one outcome, and the tally of its writes and notifications is
        the one that belongs there.  It is written if and only if its context was live and nothing failed; the
        txer goes on exactly when tx returned no error. */
    method Transmit(t: nat, w: World) returns (r: TxResult)
      requires Valid() && t in s.txers && s.txers[t].Got?
      modifies this
      ensures Valid() && old(steps) <= steps && t in s.txers
      ensures Ends(s, old(s.txers[t].x), r)
      ensures r == Finished(Written) <==> w.live && !old(s.txers[t].x.tracer) && w.timeoutSet && w.writeOk
      ensures r == Finished(Expired) <==> !w.live
      ensures r == Finished(Traced) <==> w.live && old(s.txers[t].x.tracer)
      ensures r == Finished(TimeoutRefused) <==> w.live && !old(s.txers[t].x.tracer) && !w.timeoutSet
      ensures s.txers[t] == if r.Requeued? || r.outcome.Failed? || r.outcome.TimeoutRefused? then Exited else Idle
    {
      if !w.live {
        Finish(t, Expire, Expired);
        return Finished(Expired);
      }
      if s.txers[t].x.tracer {
        Finish(t, Trace, Traced);
        return Finished(Traced);
      }
      Move(t, Begin);
      Others(Txer(t), w.others(0));
      r := Write(t, w);
    }
  }

  /** Where tx goes from here, as long as it keeps the message. */
  function Onward(pc: TxPc, m: TxMove): Option<TxPc> {
    if pc.Idle? || pc.Exited? then None
    else
      match m
      case Begin => Some(TxPc.Writing(pc.x))
      case WriteOk => Some(TxPc.Wrote(pc.x))
      case WriteFails => Some(TxPc.WriteFailed(pc.x))
      case Disarm => Some(TxPc.Disarmed(pc.x))
      case GiveUp => Some(TxPc.ErrNotified(pc.x))
      case _ => None
  }

  function OutcomeOf(m: TxMove): Option<Outcome> {
    match m
    case Expire => Some(Expired)
    case Trace => Some(Traced)
    case RefuseTimeout => Some(TimeoutRefused)
    case AfterWrite => Some(Written)
    case GiveUpDone => Some(Failed)
    case _ => None
  }

  /** `x` has come to rest as `r` says: it is there, and the tally of writes and reports fits. */
  ghost predicate Ends(s: State, x: Sendable, r: TxResult) {
    match r
    case Requeued(k) =>
      && k < |s.cfg.retry| && Is(s, x, InQueue(s.cfg.retry[k]))
      && TallyOf(s, x) == Tally(0, 0, 0) && x.sq !in s.desk.waiters
    case Finished(o) =>
      && Is(s, x, Ended(o))
      && multiset(s.wire)[x] == (if o.Written? then 1 else 0)
      && s.errs[x] == (if o.Expired? || o.TimeoutRefused? || o.Failed? then 1 else 0)
      && s.afters[x] == (if o.Written? || o.Failed? then 1 else 0)
  }

  lemma EndsThere(states: seq<State>, steps: seq<Step>, x: Sendable, p: Place)
    requires IsRun(states, steps) && Is(states[|steps|], x, p)
    ensures TallyOf(states[|steps|], x) == Expected(states[|steps|], p)
    ensures p.Ended? ==> Ends(states[|steps|], x, Finished(p.o))
    ensures p.InQueue? ==> x.sq !in states[|steps|].desk.waiters
  {
    if p.Ended? { OutcomeIsReported(states, steps, |steps|, x); }
    if p.InQueue? { QueuedMessageHasNoWaiter(states, steps, |steps|, p.q, x); }
    var s := states[|steps|];
    var w := RunInv(states, steps, |steps|);
    assert MessageShape(s, w, x);
    match p
    case InQueue(q) => assert QueueShape(s, w, q);
    case AtTxer(t) => assert TxerShape(s, w, t);
    case Ended(o) =>
  }

  lemma {:induction false} QueuesKept(states: seq<State>, steps: seq<Step>, i: nat)
    requires IsRun(states, steps) && i < |states|
    ensures states[i].cfg == states[0].cfg
    ensures |states[i].queues| == |states[i].entered| == |states[i].cfg.caps|
  {
    if i > 0 {
      QueuesKept(states, steps, i - 1);
      var s, st := states[i - 1], steps[i - 1];
      if st.Tx? { TxTouches(s, st.t, st.move); }
      assert states[i] == Next(s, st);
    }
  }
}
