/** Nothing sent is lost, duplicated or reported twice, and waiters survive retries. */
module SendConservation {
  import opened Wrappers
  import opened SendPath

  datatype Tally = Tally(writes: nat, errs: nat, afters: nat)

  function TallyOf(s: State, x: Sendable): Tally {
    Tally(multiset(s.wire)[x], s.errs[x], s.afters[x])
  }

  /** What has happened to a message is determined by where it is. */
  function Expected(s: State, p: Place): Tally {
    match p
    case InQueue(_) => Tally(0, 0, 0)
    case AtTxer(t) =>
      if t in s.txers && s.txers[t].Wrote? then Tally(1, 0, 0)
      else if t in s.txers && s.txers[t].ErrNotified? then Tally(0, 1, 0)
      else Tally(0, 0, 0)
    case Ended(o) =>
      match o
      case Written => Tally(1, 0, 1)
      case Expired => Tally(0, 1, 0)
      case Traced => Tally(0, 0, 0)
      case TimeoutRefused => Tally(0, 1, 0)
      case Failed => Tally(0, 1, 1)
  }

  predicate MessageShape(s: State, w: map<Sendable, Place>, x: Sendable) {
    && (x in w <==> Accepted(s, x))
    && (x.sq in s.accepted ==> x.sq < s.nextSeq && x.sq !in s.numbered)
    && (x.sq in s.numbered ==> x.sq < s.nextSeq && s.numbered[x.sq].sq == x.sq)
    && (x in w ==> Is(s, x, w[x]) && TallyOf(s, x) == Expected(s, w[x]))
    && (x in s.outcomes ==> x in w && w[x] == Ended(s.outcomes[x]))
    && (x !in w ==> TallyOf(s, x) == Tally(0, 0, 0))
    && (x in s.got ==> x.sq < s.nextSeq)
    && (x in s.got && s.got[x].Nil? ==> s.errs[x] == 0 && s.afters[x] > 0)
    && (x in s.got && s.got[x].Failure? ==> s.errs[x] > 0)
  }

  predicate Distinct(q: seq<Sendable>) {
    forall i, j | 0 <= i < j < |q| :: q[i] != q[j]
  }

  predicate QueueShape(s: State, w: map<Sendable, Place>, q: nat) {
    q < |s.queues| ==> Distinct(s.queues[q]) && forall x | x in s.queues[q] :: x in w && w[x] == InQueue(q)
  }

  predicate TxerShape(s: State, w: map<Sendable, Place>, t: nat) {
    t in s.txers ==>
      match Held(s.txers[t])
      case None => true
      case Some(x) => x in w && w[x] == AtTxer(t)
  }

  /** `w` is the place of every accepted message. */
  ghost predicate Inv(s: State, w: map<Sendable, Place>) {
    && (forall x :: MessageShape(s, w, x))
    && (forall q :: QueueShape(s, w, q))
    && (forall t :: TxerShape(s, w, t))
  }

  /** Where a txer's step leaves the message it holds. */
  function TxPlaces(s: State, w: map<Sendable, Place>, t: nat, m: TxMove): map<Sendable, Place>
    requires Enabled(s, Tx(t, m))
  {
    if m.Exit? then w
    else if m.Requeue? then w[s.txers[t].x := InQueue(s.cfg.retry[m.k])]
    else
      var x, s' := s.txers[t].x, ApplyTx(s, t, m);
      if x in s'.outcomes then w[x := Ended(s'.outcomes[x])] else w
  }

  function Places(s: State, w: map<Sendable, Place>, st: Step): map<Sendable, Place>
    requires Enabled(s, st)
  {
    match st
    case Enqueue(n, q) => w[s.numbered[n] := InQueue(q)]
    case Dequeue(t, q) => w[s.queues[q][0] := AtTxer(t)]
    case Tx(t, m) => TxPlaces(s, w, t, m)
    case _ => w
  }

  lemma Appended(q: seq<Sendable>, x: Sendable)
    requires Distinct(q) && x !in q
    ensures Distinct(q + [x])
    ensures forall y :: y in q + [x] <==> y in q || y == x
  {
    assert (q + [x])[|q|] == x;
  }

  lemma NumberStep(s: State, w: map<Sendable, Place>, wantsReply: bool, tracer: bool)
    requires Inv(s, w)
    ensures Inv(Next(s, Number(wantsReply, tracer)), w)
  {
    var t := Next(s, Number(wantsReply, tracer));
    forall y ensures MessageShape(t, w, y) { assert MessageShape(s, w, y); }
    forall k ensures QueueShape(t, w, k) { assert QueueShape(s, w, k); }
    forall k ensures TxerShape(t, w, k) { assert TxerShape(s, w, k); }
  }

  lemma EnqueueMessages(s: State, w: map<Sendable, Place>, n: nat, q: nat, s': State, w': map<Sendable, Place>)
    requires Inv(s, w) && Enabled(s, Enqueue(n, q)) && s' == Next(s, Enqueue(n, q))
             && w' == w[s.numbered[n] := InQueue(q)]
    ensures s.numbered[n] !in w && s.numbered[n].sq == n && forall y :: MessageShape(s', w', y)
  {
    var x := s.numbered[n];
    assert MessageShape(s, w, Sendable(n, true, true));
    assert MessageShape(s, w, x) && QueueShape(s, w, q);
    Appended(s.queues[q], x);
    forall y ensures MessageShape(s', w', y) { assert MessageShape(s, w, y); }
  }

  lemma EnqueueStep(s: State, w: map<Sendable, Place>, n: nat, q: nat)
    requires Inv(s, w) && Enabled(s, Enqueue(n, q))
    ensures Inv(Next(s, Enqueue(n, q)), w[s.numbered[n] := InQueue(q)])
  {
    var x := s.numbered[n];
    var t := Next(s, Enqueue(n, q));
    var w' := w[x := InQueue(q)];
    EnqueueMessages(s, w, n, q, t, w');
    assert QueueShape(s, w, q);
    Appended(s.queues[q], x);
    forall k ensures QueueShape(t, w', k) { assert QueueShape(s, w, k); }
    forall k ensures TxerShape(t, w', k) { assert TxerShape(s, w, k); }
  }

  lemma DequeueStep(s: State, w: map<Sendable, Place>, t: nat, q: nat)
    requires Inv(s, w) && Enabled(s, Dequeue(t, q))
    ensures Inv(Next(s, Dequeue(t, q)), w[s.queues[q][0] := AtTxer(t)])
  {
    var x := s.queues[q][0];
    var s' := Next(s, Dequeue(t, q));
    var w' := w[x := AtTxer(t)];
    assert QueueShape(s, w, q) && MessageShape(s, w, x);
    assert s.queues[q] == [x] + s'.queues[q];
    forall y ensures MessageShape(s', w', y) { assert MessageShape(s, w, y); }
    forall k ensures QueueShape(s', w', k) { assert QueueShape(s, w, k); }
    forall k ensures TxerShape(s', w', k) { assert TxerShape(s, w, k); }
  }

  lemma RequeueStep(s: State, w: map<Sendable, Place>, t: nat, k: nat)
    requires Inv(s, w) && Enabled(s, Tx(t, Requeue(k)))
    ensures Inv(ApplyTx(s, t, Requeue(k)), w[s.txers[t].x := InQueue(s.cfg.retry[k])])
  {
    var x := s.txers[t].x;
    var q := s.cfg.retry[k];
    var s' := ApplyTx(s, t, Requeue(k));
    var w' := w[x := InQueue(q)];
    assert TxerShape(s, w, t) && QueueShape(s, w, q) && MessageShape(s, w, x);
    Appended(s.queues[q], x);
    forall y ensures MessageShape(s', w', y) { assert MessageShape(s, w, y); }
    forall j ensures QueueShape(s', w', j) { assert QueueShape(s, w, j); }
    forall j ensures TxerShape(s', w', j) { assert TxerShape(s, w, j); }
  }

  /** The txer holding `x` moves on with it, or puts it to rest: nothing changes for any other message. */
  ghost predicate Handles(s: State, s': State, t: nat, x: Sendable) {
    && t in s.txers && Held(s.txers[t]) == Some(x) && t in s'.txers
    && s'.nextSeq == s.nextSeq && s'.numbered == s.numbered && s'.accepted == s.accepted
    && s'.queues == s.queues && s'.got == s.got
    && s'.txers == s.txers[t := s'.txers[t]]
    && (forall y | y != x :: TallyOf(s', y) == TallyOf(s, y))
    && (if x in s'.outcomes then s'.outcomes == s.outcomes[x := s'.outcomes[x]] && Held(s'.txers[t]) == None
        else s'.outcomes == s.outcomes && Held(s'.txers[t]) == Some(x))
    && TallyOf(s', x) == Expected(s', if x in s'.outcomes then Ended(s'.outcomes[x]) else AtTxer(t))
    && (s.errs[x] > 0 ==> s'.errs[x] == s.errs[x])
  }

  lemma HoldingStep(s: State, w: map<Sendable, Place>, s': State, t: nat, x: Sendable)
    requires Inv(s, w) && Handles(s, s', t, x)
    ensures Inv(s', if x in s'.outcomes then w[x := Ended(s'.outcomes[x])] else w)
  {
    var w' := if x in s'.outcomes then w[x := Ended(s'.outcomes[x])] else w;
    assert TxerShape(s, w, t) && MessageShape(s, w, x);
    forall y ensures MessageShape(s', w', y) {
      assert MessageShape(s, w, y);
      if y != x { assert TallyOf(s', y) == TallyOf(s, y); }
    }
    forall j ensures QueueShape(s', w', j) { assert QueueShape(s, w, j); }
    forall j ensures TxerShape(s', w', j) { assert TxerShape(s, w, j); }
  }

  lemma RefuseHandles(s: State, t: nat, m: TxMove, x: Sendable)
    requires Enabled(s, Tx(t, m)) && (m.Expire? || m.RefuseTimeout?)
    requires x == s.txers[t].x && x !in s.outcomes && TallyOf(s, x) == Expected(s, AtTxer(t))
    ensures Handles(s, ApplyTx(s, t, m), t, x)
  {
  }

  lemma EndHandles(s: State, t: nat, m: TxMove, x: Sendable)
    requires Enabled(s, Tx(t, m)) && (m.Trace? || m.AfterWrite? || m.GiveUpDone?)
    requires x == s.txers[t].x && x !in s.outcomes && TallyOf(s, x) == Expected(s, AtTxer(t))
    ensures Handles(s, ApplyTx(s, t, m), t, x)
  {
  }

  lemma BeginHandles(s: State, t: nat, x: Sendable)
    requires Enabled(s, Tx(t, Begin)) && x == s.txers[t].x && x !in s.outcomes
             && TallyOf(s, x) == Expected(s, AtTxer(t))
    ensures Handles(s, ApplyTx(s, t, Begin), t, x)
  {
  }

  lemma ReportHandles(s: State, t: nat, m: TxMove, x: Sendable)
    requires Enabled(s, Tx(t, m)) && (m.WriteOk? || m.GiveUp?)
    requires x == s.txers[t].x && x !in s.outcomes && TallyOf(s, x) == Expected(s, AtTxer(t))
    ensures Handles(s, ApplyTx(s, t, m), t, x)
  {
  }

  lemma FailHandles(s: State, t: nat, m: TxMove, x: Sendable)
    requires Enabled(s, Tx(t, m)) && (m.WriteFails? || m.Disarm?)
    requires x == s.txers[t].x && x !in s.outcomes && TallyOf(s, x) == Expected(s, AtTxer(t))
    ensures Handles(s, ApplyTx(s, t, m), t, x)
  {
  }

  lemma TxStep(s: State, w: map<Sendable, Place>, t: nat, m: TxMove)
    requires Inv(s, w) && Enabled(s, Tx(t, m)) && !m.Requeue? && !m.Exit?
    ensures Inv(ApplyTx(s, t, m), TxPlaces(s, w, t, m))
  {
    var x := s.txers[t].x;
    var s' := ApplyTx(s, t, m);
    assert TxerShape(s, w, t) && MessageShape(s, w, x);
    if m.Begin? {
      BeginHandles(s, t, x);
    } else if m.WriteOk? || m.GiveUp? {
      ReportHandles(s, t, m, x);
    } else if m.WriteFails? || m.Disarm? {
      FailHandles(s, t, m, x);
    } else if m.Expire? || m.RefuseTimeout? {
      RefuseHandles(s, t, m, x);
    } else {
      EndHandles(s, t, m, x);
    }
    HoldingStep(s, w, s', t, x);
  }

  /** Steps that move no message: txers come and go, waiters are taken. */
  lemma IdleStep(s: State, w: map<Sendable, Place>, s': State)
    requires Inv(s, w) && s'.accepted == s.accepted && s'.nextSeq == s.nextSeq && s'.numbered == s.numbered
    requires s'.queues == s.queues
    requires s'.outcomes == s.outcomes && s'.wire == s.wire && s'.errs == s.errs && s'.afters == s.afters
             && s'.got == s.got
    requires forall t | t in s.txers && Held(s.txers[t]).Some? :: t in s'.txers && s'.txers[t] == s.txers[t]
    requires forall t | t in s'.txers && Held(s'.txers[t]).Some? :: t in s.txers && s'.txers[t] == s.txers[t]
    ensures Inv(s', w)
  {
    forall y ensures MessageShape(s', w, y) { assert MessageShape(s, w, y); }
    forall j ensures QueueShape(s', w, j) { assert QueueShape(s, w, j); }
    forall j ensures TxerShape(s', w, j) { assert TxerShape(s, w, j); }
  }

  /** A call returns to the sender of `x`: no message moves. */
  lemma ReturnStep(s: State, w: map<Sendable, Place>, s': State, x: Sendable, v: Verdict)
    requires Inv(s, w) && s' == s.(got := s.got[x := v], numbered := s'.numbered) && x.sq < s.nextSeq
    requires s'.numbered == s.numbered || s'.numbered == s.numbered - {x.sq}
    requires v.Nil? ==> s.errs[x] == 0 && s.afters[x] > 0
    requires v.Failure? ==> s.errs[x] > 0
    ensures Inv(s', w)
  {
    forall y ensures MessageShape(s', w, y) { assert MessageShape(s, w, y); }
    forall j ensures QueueShape(s', w, j) { assert QueueShape(s, w, j); }
    forall j ensures TxerShape(s', w, j) { assert TxerShape(s, w, j); }
  }

  lemma QuietStep(s: State, w: map<Sendable, Place>, st: Step)
    requires Inv(s, w) && Enabled(s, st) && (st.StartTxer? || st.Reply? || st.Reap? || st.CloseChannel?)
    ensures Inv(Next(s, st), w)
  {
    IdleStep(s, w, Next(s, st));
  }

  lemma TxerStep(s: State, w: map<Sendable, Place>, t: nat, m: TxMove)
    requires Inv(s, w) && Enabled(s, Tx(t, m))
    ensures Inv(ApplyTx(s, t, m), TxPlaces(s, w, t, m))
  {
    if m.Requeue? {
      RequeueStep(s, w, t, m.k);
    } else if m.Exit? {
      IdleStep(s, w, ApplyTx(s, t, m));
    } else {
      TxStep(s, w, t, m);
    }
  }

  lemma StepKeepsInv(s: State, w: map<Sendable, Place>, st: Step)
    requires Inv(s, w) && Enabled(s, st)
    ensures Inv(Next(s, st), Places(s, w, st))
  {
    if st.Number? {
      NumberStep(s, w, st.wantsReply, st.tracer);
    } else if st.Enqueue? {
      EnqueueStep(s, w, st.n, st.q);
    } else if st.Dequeue? {
      DequeueStep(s, w, st.t, st.q);
    } else if st.Tx? {
      TxerStep(s, w, st.t, st.move);
    } else if st.WaitReturns? {
      assert MessageShape(s, w, st.x);
      ReturnStep(s, w, Next(s, st), st.x, Answer(s, st.x, st.from));
    } else if st.SendFails? {
      assert MessageShape(s, w, Sendable(st.n, true, true));
      ReturnStep(s, w, Next(s, st), s.numbered[st.n], Refused);
    } else {
      QuietStep(s, w, st);
    }
  }

  lemma {:induction false} RunInv(states: seq<State>, steps: seq<Step>, i: nat) returns (w: map<Sendable, Place>)
    requires IsRun(states, steps) && i < |states|
    ensures Inv(states[i], w) && WaiterInv(states[i], w)
  {
    if i == 0 {
      w := map[];
      var s := states[0];
      forall x ensures MessageShape(s, w, x) && ArmedShape(s, w, x) {}
      forall n ensures QueueShape(s, w, n) && TxerShape(s, w, n) && WaiterShape(s, w, n) && RegShape(s, n) {}
    } else {
      var w0 := RunInv(states, steps, i - 1);
      w := Places(states[i - 1], w0, steps[i - 1]);
      StepKeepsInv(states[i - 1], w0, steps[i - 1]);
      StepKeepsWaiters(states[i - 1], w0, steps[i - 1]);
    }
  }

  // ---------- Conservation ----------

  lemma OnlyPlace(s: State, w: map<Sendable, Place>, x: Sendable, p: Place)
    requires Inv(s, w) && x in w && Is(s, x, p)
    ensures p == w[x]
  {
    assert MessageShape(s, w, x);
    match p
    case InQueue(q) => assert QueueShape(s, w, q);
    case AtTxer(t) => assert TxerShape(s, w, t);
    case Ended(o) =>
  }

  /** Over any number of txers and retries, every message that Send accepted is in exactly one place: in
      one queue, with one txer, or at one final outcome.  No queue holds it twice. */
  lemma ExactlyOnePlace(states: seq<State>, steps: seq<Step>, i: nat, x: Sendable)
    requires IsRun(states, steps) && i < |states| && Accepted(states[i], x)
    ensures exists p :: Is(states[i], x, p) && forall p' | Is(states[i], x, p') :: p' == p
    ensures forall q | 0 <= q < |states[i].queues| :: Distinct(states[i].queues[q])
  {
    var s := states[i];
    var w := RunInv(states, steps, i);
    assert MessageShape(s, w, x);
    assert Is(s, x, w[x]);
    forall p | Is(s, x, p) ensures p == w[x] { OnlyPlace(s, w, x, p); }
    forall q: nat | q < |s.queues| ensures Distinct(s.queues[q]) { assert QueueShape(s, w, q); }
  }

  /** A message is successfully written at most once, fails at most once, is reported done at most once,
      and is never both written and failed. */
  lemma WrittenAndReportedAtMostOnce(states: seq<State>, steps: seq<Step>, i: nat, x: Sendable)
    requires IsRun(states, steps) && i < |states|
    ensures var s := states[i];
            multiset(s.wire)[x] <= 1 && s.errs[x] <= 1 && s.afters[x] <= 1 && multiset(s.wire)[x] + s.errs[x] <= 1
  {
    var w := RunInv(states, steps, i);
    assert MessageShape(states[i], w, x);
  }

  /** What an outcome means to the sender: a written message was written once and reported done, without error; one
      that expired or whose timeout could not be set was reported failed and not written; one whose write failed for
      good was reported failed and then done; a tracer is neither. */
  lemma OutcomeIsReported(states: seq<State>, steps: seq<Step>, i: nat, x: Sendable)
    requires IsRun(states, steps) && i < |states| && x in states[i].outcomes
    ensures var writes, errs, afters := multiset(states[i].wire)[x], states[i].errs[x], states[i].afters[x];
            match states[i].outcomes[x]
            case Written => writes == 1 && errs == 0 && afters == 1
            case Expired => writes == 0 && errs == 1 && afters == 0
            case TimeoutRefused => writes == 0 && errs == 1 && afters == 0
            case Failed => writes == 0 && errs == 1 && afters == 1
            case Traced => writes == 0 && errs == 0 && afters == 0
  {
    var w := RunInv(states, steps, i);
    assert MessageShape(states[i], w, x);
  }

  lemma TxMovesQueues(s: State, t: nat, m: TxMove)
    requires Enabled(s, Tx(t, m))
    ensures ApplyTx(s, t, m).cfg == s.cfg
    ensures ApplyTx(s, t, m).queues ==
              if m.Requeue? then s.queues[s.cfg.retry[m.k] := s.queues[s.cfg.retry[m.k]] + [s.txers[t].x]] else s.queues
  {
  }

  lemma TakenFromTheFront(s: State, t: nat, q: nat)
    requires Enabled(s, Dequeue(t, q))
    ensures var s' := Next(s, Dequeue(t, q));
            && t in s'.txers && s'.txers[t] == Got(s.queues[q][0])
            && |s'.queues| == |s.queues|
            && s.queues == s'.queues[q := [s.queues[q][0]] + s'.queues[q]]
  {
    assert s.queues[q] == [s.queues[q][0]] + s.queues[q][1..];
  }

  /** Queues are first in, first out: messages join at the end, from Send or for a retry, and leave at the front,
      into the hands of one txer. */
  lemma QueuesAreFifo(states: seq<State>, steps: seq<Step>, i: nat)
    requires IsRun(states, steps) && i < |steps|
    ensures var s, t, st := states[i], states[i + 1], steps[i];
            if st.Enqueue? then t.queues == s.queues[st.q := s.queues[st.q] + [s.numbered[st.n]]]
            else if st.Dequeue? then
              && s.queues == t.queues[st.q := [t.txers[st.t].x] + t.queues[st.q]]
              && t.txers[st.t] == Got(s.queues[st.q][0])
            else if st.Tx? && st.move.Requeue? then
              var q := s.cfg.retry[st.move.k];
              t.queues == s.queues[q := s.queues[q] + [s.txers[st.t].x]]
            else t.queues == s.queues
  {
    var s, t, st := states[i], states[i + 1], steps[i];
    if st.Tx? {
      TxMovesQueues(s, st.t, st.move);
    } else if st.Dequeue? {
      TakenFromTheFront(s, st.t, st.q);
    }
  }

  /** No queue ever holds more than its capacity; an unbuffered one holds at most the message being handed over. */
  lemma {:induction false} QueuesStayWithinCapacity(states: seq<State>, steps: seq<Step>, i: nat, q: nat)
    requires IsRun(states, steps) && i < |states| && q < |states[i].queues|
    ensures states[i].cfg == states[0].cfg && q < |states[0].cfg.caps|
    ensures |states[i].queues[q]| <= if states[0].cfg.caps[q] == 0 then 1 else states[0].cfg.caps[q]
  {
    if i > 0 {
      CapacityStep(states[i - 1], steps[i - 1], q);
      QueuesStayWithinCapacity(states, steps, i - 1, q);
    }
  }

  lemma CapacityStep(s: State, st: Step, q: nat)
    requires Enabled(s, st) && q < |Next(s, st).queues|
    ensures Next(s, st).cfg == s.cfg && q < |s.queues|
    ensures |Next(s, st).queues[q]| <= |s.queues[q]| || HasRoom(s, q)
    ensures |Next(s, st).queues[q]| <= |s.queues[q]| + 1
  {
    if st.Tx? { TxMovesQueues(s, st.t, st.move); }
  }

  predicate CallsNotifyErr(m: TxMove) {
    m.Expire? || m.RefuseTimeout? || m.GiveUp?
  }

  predicate CallsNotifyAfterWrite(m: TxMove) {
    m.AfterWrite? || m.GiveUpDone?
  }

  /** The one-slot error channel of WaitForWire is empty and open whenever NotifyErr sends to it, so the
      txer never blocks or panics there, and NotifyAfterWrite never closes it a second time. */
  lemma ErrorChannelIsSafe(states: seq<State>, steps: seq<Step>, i: nat, t: nat, m: TxMove)
    requires IsRun(states, steps) && i < |steps| && steps[i] == Tx(t, m)
    ensures var s := states[i];
            && (CallsNotifyErr(m) ==> s.errs[s.txers[t].x] == 0 && s.afters[s.txers[t].x] == 0)
            && (CallsNotifyAfterWrite(m) ==> s.afters[s.txers[t].x] == 0)
  {
    var s := states[i];
    var w := RunInv(states, steps, i);
    assert TxerShape(s, w, t);
    if CallsNotifyErr(m) || CallsNotifyAfterWrite(m) { assert MessageShape(s, w, s.txers[t].x); }
  }

  /** Whatever branch of its select WaitForWire takes, it returns nil only for a message that was written,
      and the error of a failed write only for one that was not. */
  lemma NilOnlyIfWritten(states: seq<State>, steps: seq<Step>, i: nat, x: Sendable)
    requires IsRun(states, steps) && i < |states| && x in states[i].got
    ensures states[i].got[x].Nil? ==> multiset(states[i].wire)[x] == 1
    ensures states[i].got[x].Failure? ==> multiset(states[i].wire)[x] == 0
  {
    var w := RunInv(states, steps, i);
    assert MessageShape(states[i], w, x);
  }

  /** What it hears from the write itself is right both ways: nil if and only if written. */
  lemma ErrorChannelTellsTheTruth(states: seq<State>, steps: seq<Step>, i: nat, x: Sendable)
    requires IsRun(states, steps) && i < |steps| && steps[i] == WaitReturns(x, ErrC)
    ensures states[i + 1].got[x].Nil? <==> multiset(states[i].wire)[x] == 1
  {
    var w := RunInv(states, steps, i);
    assert MessageShape(states[i], w, x);
  }

  /** Nil is the only answer that says something about the write: any waiting call, of a message written or
      not, may still be told that the channel has closed. */
  lemma AnyMessageMayBeReportedClosed(states: seq<State>, steps: seq<Step>, x: Sendable)
    requires IsRun(states, steps) && Accepted(states[|steps|], x) && x !in states[|steps|].got
    ensures exists s, s' ::
              && IsRun(states + [s, s'], steps + [CloseChannel, WaitReturns(x, CloseNotify)])
              && x in s'.got && s'.got[x] == ClosedError && s'.wire == states[|steps|].wire
  {
    var s := Next(states[|steps|], CloseChannel);
    var s' := Next(s, WaitReturns(x, CloseNotify));
    assert IsRun(states + [s, s'], steps + [CloseChannel, WaitReturns(x, CloseNotify)]);
  }

  // ---------- Waiters ----------

  predicate ArmedPc(pc: TxPc) {
    pc.Writing? || pc.Wrote? || pc.WriteFailed?
  }

  /** A waiter belongs to an accepted message that is being written, or whose txer is done with it. */
  predicate WaiterShape(s: State, w: map<Sendable, Place>, n: nat) {
    n in s.desk.waiters ==>
      && n in s.accepted && s.accepted[n].sq == n && s.accepted[n] in w && s.accepted[n].wantsReply
      && (match w[s.accepted[n]]
          case InQueue(_) => false
          case AtTxer(t) => t in s.txers && ArmedPc(s.txers[t])
          case Ended(o) => o.Written? || o.TimeoutRefused?)
      && s.desk.waiters[n] in s.desk.regSeq && s.desk.regSeq[s.desk.waiters[n]] == n
      && s.desk.waiters[n] in s.desk.replies && s.desk.replies[s.desk.waiters[n]] == []
  }

  /** The message is being written or has been written. */
  predicate InFlight(s: State, w: map<Sendable, Place>, x: Sendable) {
    x in w && match w[x]
              case InQueue(_) => false
              case AtTxer(t) => t in s.txers && (s.txers[t].Writing? || s.txers[t].Wrote?)
              case Ended(o) => o.Written?
  }

  predicate ArmedShape(s: State, w: map<Sendable, Place>, x: Sendable) {
    InFlight(s, w, x) && x.wantsReply ==> x.sq in s.desk.waiters || x.sq in s.desk.taken
  }

  predicate RegShape(s: State, r: nat) {
    && (r in s.desk.replies <==> r < s.desk.nextReg) && (r in s.desk.regSeq <==> r < s.desk.nextReg)
    && (r in s.desk.replies ==>
          && |s.desk.replies[r]| <= 1
          && (s.desk.replies[r] != [] ==>
                && s.desk.replies[r][0] == s.desk.regSeq[r]
                && !(s.desk.regSeq[r] in s.desk.waiters && s.desk.waiters[s.desk.regSeq[r]] == r)))
  }

  ghost predicate WaiterInv(s: State, w: map<Sendable, Place>) {
    && (forall n :: WaiterShape(s, w, n))
    && (forall x :: ArmedShape(s, w, x))
    && (forall r :: RegShape(s, r))
  }

  lemma TakeStep(s: State, w: map<Sendable, Place>, st: Step)
    requires Inv(s, w) && WaiterInv(s, w) && Enabled(s, st) && (st.Reply? || st.Reap? || st.CloseChannel?)
    ensures WaiterInv(Next(s, st), w)
  {
    var s' := Next(s, st);
    if st.Reply? && st.replyFor in s.desk.waiters { assert WaiterShape(s, w, st.replyFor); }
    forall n ensures WaiterShape(s', w, n) { assert WaiterShape(s, w, n); }
    forall x ensures ArmedShape(s', w, x) { assert ArmedShape(s, w, x); }
    forall r ensures RegShape(s', r) { assert RegShape(s, r); }
  }

  lemma ArmWaiters(s: State, w: map<Sendable, Place>, t: nat, x: Sendable)
    requires WaiterInv(s, w) && t in s.txers && s.txers[t] == Got(x) && x in w && w[x] == AtTxer(t) && Accepted(s, x)
    requires forall y :: MessageShape(s, w, y)
    ensures WaiterInv(SetTxer(s, t, Writing(x)).(desk := AddWaiter(s.desk, x)), w)
  {
    var s' := SetTxer(s, t, Writing(x)).(desk := AddWaiter(s.desk, x));
    assert RegShape(s, s.desk.nextReg) && WaiterShape(s, w, x.sq);
    forall n ensures WaiterShape(s', w, n) {
      assert WaiterShape(s, w, n);
      if n in s.desk.waiters { assert RegShape(s, s.desk.waiters[n]); }
    }
    forall y ensures ArmedShape(s', w, y) { assert ArmedShape(s, w, y) && MessageShape(s, w, y); }
    forall r ensures RegShape(s', r) { assert RegShape(s, r); }
  }

  /** The message comes to rest, or back into a queue, with its waiter as it is. */
  lemma RestWaiters(s: State, w: map<Sendable, Place>, s': State, t: nat, x: Sendable, p: Place)
    requires WaiterInv(s, w) && t in s.txers && Held(s.txers[t]) == Some(x) && x in w && w[x] == AtTxer(t)
             && Accepted(s, x)
    requires forall y :: MessageShape(s, w, y)
    requires s'.desk == s.desk && s'.accepted == s.accepted
    requires t in s'.txers && Held(s'.txers[t]) == None && s'.txers == s.txers[t := s'.txers[t]]
    requires match p
             case AtTxer(_) => false
             case InQueue(_) => s.txers[t].Disarmed?
             case Ended(o) => if o.Written? then s.txers[t].Wrote? else o.TimeoutRefused? || !ArmedPc(s.txers[t])
    ensures WaiterInv(s', w[x := p])
  {
    var w' := w[x := p];
    assert WaiterShape(s, w, x.sq) && ArmedShape(s, w, x);
    forall n ensures WaiterShape(s', w', n) {
      assert WaiterShape(s, w, n);
      if n in s.accepted { assert MessageShape(s, w, s.accepted[n]); }
    }
    forall y ensures ArmedShape(s', w', y) { assert ArmedShape(s, w, y) && MessageShape(s, w, y); }
    forall r ensures RegShape(s', r) { assert RegShape(s, r); }
  }

  lemma DisarmWaiters(s: State, w: map<Sendable, Place>, t: nat, x: Sendable)
    requires WaiterInv(s, w) && t in s.txers && s.txers[t] == WriteFailed(x) && x in w && w[x] == AtTxer(t)
             && Accepted(s, x)
    requires forall y :: MessageShape(s, w, y)
    ensures WaiterInv(ApplyTx(s, t, Disarm), w)
  {
    var s' := ApplyTx(s, t, Disarm);
    forall n ensures WaiterShape(s', w, n) {
      assert WaiterShape(s, w, n);
      if n in s.accepted { assert MessageShape(s, w, s.accepted[n]); }
    }
    forall y ensures ArmedShape(s', w, y) { assert ArmedShape(s, w, y) && MessageShape(s, w, y); }
    forall r ensures RegShape(s', r) { assert RegShape(s, r); }
  }

  /** The message stays with its txer and its waiter with the message. */
  lemma HoldWaiters(s: State, w: map<Sendable, Place>, s': State, t: nat, x: Sendable)
    requires WaiterInv(s, w) && t in s.txers && Held(s.txers[t]) == Some(x) && x in w && w[x] == AtTxer(t)
             && Accepted(s, x)
    requires s'.desk == s.desk && s'.accepted == s.accepted
    requires t in s'.txers && s'.txers == s.txers[t := s'.txers[t]]
    requires if s.txers[t].Writing? then s'.txers[t].Wrote? || s'.txers[t].WriteFailed?
             else s.txers[t].Disarmed? && s'.txers[t].ErrNotified?
    ensures WaiterInv(s', w)
  {
    assert WaiterShape(s, w, x.sq) && ArmedShape(s, w, x);
    forall n ensures WaiterShape(s', w, n) { assert WaiterShape(s, w, n); }
    forall y ensures ArmedShape(s', w, y) { assert ArmedShape(s, w, y); }
    forall r ensures RegShape(s', r) { assert RegShape(s, r); }
  }

  lemma EndWaiters(s: State, w: map<Sendable, Place>, t: nat, m: TxMove)
    requires Inv(s, w) && WaiterInv(s, w) && Enabled(s, Tx(t, m))
             && (m.Expire? || m.Trace? || m.RefuseTimeout? || m.AfterWrite? || m.GiveUpDone?)
    ensures WaiterInv(ApplyTx(s, t, m), TxPlaces(s, w, t, m))
  {
    var s', x := ApplyTx(s, t, m), s.txers[t].x;
    assert TxerShape(s, w, t) && MessageShape(s, w, x);
    RestWaiters(s, w, s', t, x, Ended(s'.outcomes[x]));
  }

  lemma BeginWaiters(s: State, w: map<Sendable, Place>, t: nat)
    requires Inv(s, w) && WaiterInv(s, w) && Enabled(s, Tx(t, Begin))
    ensures WaiterInv(ApplyTx(s, t, Begin), TxPlaces(s, w, t, Begin))
  {
    var x := s.txers[t].x;
    assert TxerShape(s, w, t) && MessageShape(s, w, x);
    ArmWaiters(s, w, t, x);
  }

  lemma MoveWaiters(s: State, w: map<Sendable, Place>, t: nat, m: TxMove)
    requires Inv(s, w) && WaiterInv(s, w) && Enabled(s, Tx(t, m))
             && (m.WriteOk? || m.WriteFails? || m.GiveUp? || m.Disarm?)
    ensures WaiterInv(ApplyTx(s, t, m), TxPlaces(s, w, t, m))
  {
    var x := s.txers[t].x;
    assert TxerShape(s, w, t) && MessageShape(s, w, x);
    if m.Disarm? { DisarmWaiters(s, w, t, x); } else { HoldWaiters(s, w, ApplyTx(s, t, m), t, x); }
  }

  lemma RequeueWaiters(s: State, w: map<Sendable, Place>, t: nat, k: nat)
    requires Inv(s, w) && WaiterInv(s, w) && Enabled(s, Tx(t, Requeue(k)))
    ensures WaiterInv(ApplyTx(s, t, Requeue(k)), TxPlaces(s, w, t, Requeue(k)))
  {
    var x := s.txers[t].x;
    assert TxerShape(s, w, t) && MessageShape(s, w, x);
    RestWaiters(s, w, ApplyTx(s, t, Requeue(k)), t, x, InQueue(s.cfg.retry[k]));
  }

  lemma TxWaiters(s: State, w: map<Sendable, Place>, t: nat, m: TxMove)
    requires Inv(s, w) && WaiterInv(s, w) && Enabled(s, Tx(t, m)) && !m.Exit?
    ensures WaiterInv(ApplyTx(s, t, m), TxPlaces(s, w, t, m))
  {
    if m.Begin? {
      BeginWaiters(s, w, t);
    } else if m.WriteOk? || m.WriteFails? || m.GiveUp? || m.Disarm? {
      MoveWaiters(s, w, t, m);
    } else if m.Requeue? {
      RequeueWaiters(s, w, t, m.k);
    } else {
      EndWaiters(s, w, t, m);
    }
  }

  lemma QueueWaiters(s: State, w: map<Sendable, Place>, st: Step)
    requires Inv(s, w) && WaiterInv(s, w) && Enabled(s, st) && (st.Enqueue? || st.Dequeue?)
    ensures WaiterInv(Next(s, st), Places(s, w, st))
  {
    var s', w' := Next(s, st), Places(s, w, st);
    if st.Dequeue? {
      assert QueueShape(s, w, st.q) && s.queues[st.q][0] in s.queues[st.q];
      assert MessageShape(s, w, s.queues[st.q][0]);
    } else {
      assert MessageShape(s, w, s.numbered[st.n]) && MessageShape(s, w, Sendable(st.n, true, true));
    }
    forall n ensures WaiterShape(s', w', n) { assert WaiterShape(s, w, n); }
    forall y ensures ArmedShape(s', w', y) { assert ArmedShape(s, w, y); }
    forall r ensures RegShape(s', r) { assert RegShape(s, r); }
  }

  lemma WaiterFrame(s: State, w: map<Sendable, Place>, s': State)
    requires WaiterInv(s, w) && s'.desk == s.desk && s'.accepted == s.accepted
    requires forall t | t in s.txers && Held(s.txers[t]).Some? :: t in s'.txers && s'.txers[t] == s.txers[t]
    requires forall t | t in s'.txers && Held(s'.txers[t]).Some? :: t in s.txers && s'.txers[t] == s.txers[t]
    ensures WaiterInv(s', w)
  {
    forall n ensures WaiterShape(s', w, n) { assert WaiterShape(s, w, n); }
    forall y ensures ArmedShape(s', w, y) { assert ArmedShape(s, w, y); }
    forall r ensures RegShape(s', r) { assert RegShape(s, r); }
  }

  lemma StepKeepsWaiters(s: State, w: map<Sendable, Place>, st: Step)
    requires Inv(s, w) && WaiterInv(s, w) && Enabled(s, st)
    ensures WaiterInv(Next(s, st), Places(s, w, st))
  {
    if st.Enqueue? || st.Dequeue? {
      QueueWaiters(s, w, st);
    } else if st.Tx? && !st.move.Exit? {
      TxWaiters(s, w, st.t, st.move);
    } else if st.Reply? || st.Reap? || st.CloseChannel? {
      TakeStep(s, w, st);
    } else {
      WaiterFrame(s, w, Next(s, st));
    }
  }

  /** Because a failed txer removes the waiter before it requeues, a later attempt's waiter is never lost to
      an earlier failure: when any write succeeds, the waiter of that message is registered, unless a
      reply, the reaper or Close has taken it since this attempt added it. */
  lemma WaiterSurvivesRetry(states: seq<State>, steps: seq<Step>, i: nat, t: nat)
    requires IsRun(states, steps) && i < |steps| && steps[i] == Tx(t, WriteOk) && states[i].txers[t].x.wantsReply
    ensures var n := states[i + 1].txers[t].x.sq; n in states[i + 1].desk.waiters || n in states[i + 1].desk.taken
  {
    var s := states[i];
    var w := RunInv(states, steps, i);
    assert TxerShape(s, w, t) && ArmedShape(s, w, s.txers[t].x);
  }

  /** A message waiting in a queue, even one being retried, has no waiter that a stray reply could take. */
  lemma QueuedMessageHasNoWaiter(states: seq<State>, steps: seq<Step>, i: nat, q: nat, x: Sendable)
    requires IsRun(states, steps) && i < |states| && q < |states[i].queues| && x in states[i].queues[q]
    ensures x.sq !in states[i].desk.waiters
  {
    var w := RunInv(states, steps, i);
    assert QueueShape(states[i], w, q) && MessageShape(states[i], w, x) && WaiterShape(states[i], w, x.sq);
  }

  /** A registered waiter is handed at most one reply, and only one that answers its own message. */
  lemma AtMostOneMatchingReply(states: seq<State>, steps: seq<Step>, i: nat, r: nat)
    requires IsRun(states, steps) && i < |states| && r in states[i].desk.replies
    ensures r in states[i].desk.regSeq
    ensures states[i].desk.replies[r] == [] || states[i].desk.replies[r] == [states[i].desk.regSeq[r]]
  {
    var w := RunInv(states, steps, i);
    assert RegShape(states[i], r);
  }
}
