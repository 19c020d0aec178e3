/**
 Sending (senders.go, message_source.go), writing and retrying (impl.go tx and txer) and matching
 replies (impl.go rx and the waiter map) as a transition system over any number of txers.

 A sequence number is handed out once, so it identifies the message that carries it.  An
 unbuffered queue is given one slot, which stands for the hand-over to a waiting txer.
 */
module SendPath {
  import opened Wrappers

  /** `tracer` is a Sendable with a nil message. */
  datatype Sendable = Sendable(sq: nat, wantsReply: bool, tracer: bool)

  datatype Outcome =
    | Written
    | Expired          // the write context had ended
    | Traced
    | TimeoutRefused   // SetWriteTimeout failed
    | Failed           // written unsuccessfully and not requeued

  /** What WaitForWire returns, and where it has it from. */
  datatype Verdict = Nil | Failure | ClosedError | TimedOut | Refused

  datatype Source = ErrC | CloseNotify | ContextDone

  datatype TxPc =
    | Idle
    | Got(x: Sendable)
    | Writing(x: Sendable)        // the waiter has been added
    | Wrote(x: Sendable)
    | WriteFailed(x: Sendable)
    | Disarmed(x: Sendable)       // the waiter has been removed
    | ErrNotified(x: Sendable)
    | Exited

  /** Queue capacities, and the queues a failed write is retried on, in order. */
  datatype Config = Config(caps: seq<nat>, retry: seq<nat>)

  /** The waiters for replies. */
  datatype Desk = Desk(
    waiters: map<nat, nat>,             // sequence to registration
    nextReg: nat,
    regSeq: map<nat, nat>,              // the sequence each registration was made for
    replies: map<nat, seq<int>>,        // the ReplyFor of every reply a registration was handed
    taken: set<nat>)                    // sequences whose latest waiter a reply, the reaper or Close took

  datatype State = State(
    cfg: Config,
    nextSeq: nat,
    numbered: map<nat, Sendable>,       // in Send, with their sequence and not yet in a queue
    accepted: map<nat, Sendable>,       // by sequence
    queues: seq<seq<Sendable>>,
    entered: seq<seq<Sendable>>,        // what each queue accepted from Send, in that order
    txers: map<nat, TxPc>,
    outcomes: map<Sendable, Outcome>,
    wire: seq<Sendable>,                // successful underlay writes, in order
    errs: multiset<Sendable>,           // NotifyErr calls
    afters: multiset<Sendable>,         // NotifyAfterWrite calls
    closed: bool,
    got: map<Sendable, Verdict>,        // what WaitForWire returned
    desk: Desk)

  datatype TxMove =
    | Expire
    | Begin              // a message: the waiter is added
    | Trace              // no message
    | RefuseTimeout
    | WriteOk
    | AfterWrite
    | WriteFails
    | Disarm
    | Requeue(k: nat)
    | GiveUp
    | GiveUpDone
    | Exit

  datatype Step =
    | Number(wantsReply: bool, tracer: bool)
    | Enqueue(n: nat, q: nat)
    | SendFails(n: nat)
    | StartTxer(t: nat)
    | Dequeue(t: nat, q: nat)
    | Tx(t: nat, move: TxMove)
    | WaitReturns(x: Sendable, from: Source)
    | Reply(replyFor: int)
    | Reap(sq: nat)
    | CloseChannel

  function Held(pc: TxPc): Option<Sendable> {
    if pc.Idle? || pc.Exited? then None else Some(pc.x)
  }

  predicate HasRoom(s: State, q: nat) {
    q < |s.queues| && q < |s.cfg.caps| && |s.queues[q]| < (if s.cfg.caps[q] == 0 then 1 else s.cfg.caps[q])
  }

  predicate CanMove(s: State, pc: TxPc, m: TxMove) {
    match m
    case Expire => pc.Got?
    case Begin => pc.Got? && !pc.x.tracer
    case Trace => pc.Got? && pc.x.tracer
    case RefuseTimeout => pc.Writing?
    case WriteOk => pc.Writing?
    case AfterWrite => pc.Wrote?
    case WriteFails => pc.Writing?
    case Disarm => pc.WriteFailed?
    case Requeue(k) => pc.Disarmed? && k < |s.cfg.retry| && HasRoom(s, s.cfg.retry[k])
    case GiveUp => pc.Disarmed?    // each queue refused when it was tried
    case GiveUpDone => pc.ErrNotified?
    case Exit => pc.Idle?
  }

  predicate Accepted(s: State, x: Sendable) {
    x.sq in s.accepted && s.accepted[x.sq] == x
  }

  predicate Enabled(s: State, st: Step) {
    match st
    case Number(_, _) => true
    case Enqueue(n, q) => n in s.numbered && HasRoom(s, q) && q < |s.entered|
    case SendFails(n) => n in s.numbered
    case StartTxer(t) => t !in s.txers
    case Dequeue(t, q) => t in s.txers && s.txers[t].Idle? && q < |s.queues| && s.queues[q] != []
    case Tx(t, m) => t in s.txers && CanMove(s, s.txers[t], m)
    case WaitReturns(x, from) => Accepted(s, x) && x !in s.got && Offers(s, x, from)
    case Reply(n) => true
    case Reap(n) => n in s.desk.waiters
    case CloseChannel => true
  }

  /** Which branches of WaitForWire's select are ready. */
  predicate Offers(s: State, x: Sendable, from: Source) {
    match from
    case ErrC => s.errs[x] > 0 || s.afters[x] > 0
    case CloseNotify => s.closed
    case ContextDone => true
  }

  /** An error in the channel comes before its close, which reads as nil. */
  function Answer(s: State, x: Sendable, from: Source): Verdict {
    match from
    case ErrC => if s.errs[x] > 0 then Failure else Nil
    case CloseNotify => ClosedError
    case ContextDone => TimedOut
  }

  function SetTxer(s: State, t: nat, pc: TxPc): State {
    s.(txers := s.txers[t := pc])
  }

  function End(s: State, t: nat, pc: TxPc, x: Sendable, o: Outcome): State {
    SetTxer(s, t, pc).(outcomes := s.outcomes[x := o])
  }

  /** waiterMap.AddWaiter. */
  function AddWaiter(d: Desk, x: Sendable): Desk {
    if x.wantsReply then
      Desk(d.waiters[x.sq := d.nextReg], d.nextReg + 1, d.regSeq[d.nextReg := x.sq], d.replies[d.nextReg := []],
           d.taken - {x.sq})
    else d
  }

  /** waiterMap.RemoveWaiter on behalf of a reply, which goes to the registration it finds. */
  function TakeReply(d: Desk, n: int): Desk {
    if n in d.waiters then
      var r := d.waiters[n];
      d.(waiters := d.waiters - {n}, taken := d.taken + {n},
         replies := d.replies[r := (if r in d.replies then d.replies[r] else []) + [n]])
    else d
  }

  function ApplyTx(s: State, t: nat, m: TxMove): State
    requires t in s.txers && CanMove(s, s.txers[t], m)
  {
    match m
    case Expire => End(s, t, Idle, s.txers[t].x, Expired).(errs := s.errs + multiset{s.txers[t].x})
    case Begin => SetTxer(s, t, Writing(s.txers[t].x)).(desk := AddWaiter(s.desk, s.txers[t].x))
    case Trace => End(s, t, Idle, s.txers[t].x, Traced)
    case RefuseTimeout => End(s, t, Exited, s.txers[t].x, TimeoutRefused).(errs := s.errs + multiset{s.txers[t].x})
    case WriteOk => SetTxer(s, t, Wrote(s.txers[t].x)).(wire := s.wire + [s.txers[t].x])
    case AfterWrite => End(s, t, Idle, s.txers[t].x, Written).(afters := s.afters + multiset{s.txers[t].x})
    case WriteFails => SetTxer(s, t, WriteFailed(s.txers[t].x))
    case Disarm =>
      SetTxer(s, t, Disarmed(s.txers[t].x)).(desk := s.desk.(waiters := s.desk.waiters - {s.txers[t].x.sq}))
    case Requeue(k) =>
      var q := s.cfg.retry[k];
      SetTxer(s, t, Exited).(queues := s.queues[q := s.queues[q] + [s.txers[t].x]])
    case GiveUp => SetTxer(s, t, ErrNotified(s.txers[t].x)).(errs := s.errs + multiset{s.txers[t].x})
    case GiveUpDone => End(s, t, Exited, s.txers[t].x, Failed).(afters := s.afters + multiset{s.txers[t].x})
    case Exit => SetTxer(s, t, Exited)
  }

  function Next(s: State, st: Step): State
    requires Enabled(s, st)
  {
    match st
    case Number(wantsReply, tracer) =>
      s.(nextSeq := s.nextSeq + 1, numbered := s.numbered[s.nextSeq := Sendable(s.nextSeq, wantsReply, tracer)])
    case Enqueue(n, q) =>
      var x := s.numbered[n];
      s.(numbered := s.numbered - {n}, accepted := s.accepted[n := x],
         queues := s.queues[q := s.queues[q] + [x]], entered := s.entered[q := s.entered[q] + [x]])
    case SendFails(n) => s.(numbered := s.numbered - {n}, got := s.got[s.numbered[n] := Refused])
    case StartTxer(t) => SetTxer(s, t, Idle)
    case Dequeue(t, q) => SetTxer(s, t, Got(s.queues[q][0])).(queues := s.queues[q := s.queues[q][1..]])
    case Tx(t, m) => ApplyTx(s, t, m)
    case WaitReturns(x, from) => s.(got := s.got[x := Answer(s, x, from)])
    case Reply(n) => s.(desk := TakeReply(s.desk, n))
    case Reap(n) => s.(desk := s.desk.(waiters := s.desk.waiters - {n}, taken := s.desk.taken + {n}))
    case CloseChannel =>
      s.(closed := true, desk := s.desk.(waiters := map[], taken := s.desk.taken + s.desk.waiters.Keys))
  }

  function Initial(cfg: Config): State {
    var empty := seq(|cfg.caps|, _ => []);
    State(cfg, 0, map[], map[], empty, empty, map[], map[], [], multiset{}, multiset{}, false, map[],
          Desk(map[], 0, map[], map[], {}))
  }

  ghost predicate IsRun(states: seq<State>, steps: seq<Step>) {
    && |states| == |steps| + 1
    && states[0] == Initial(states[0].cfg)
    && forall i | 0 <= i < |steps| :: Enabled(states[i], steps[i]) && states[i + 1] == Next(states[i], steps[i])
  }

  // ---------- Where a message can be ----------

  datatype Place = InQueue(q: nat) | AtTxer(t: nat) | Ended(o: Outcome)

  /** Whether `x` is in place `p`, judged from the queues, the txers and the outcomes alone. */
  predicate Is(s: State, x: Sendable, p: Place) {
    match p
    case InQueue(q) => q < |s.queues| && x in s.queues[q]
    case AtTxer(t) => t in s.txers && Held(s.txers[t]) == Some(x)
    case Ended(o) => x in s.outcomes && s.outcomes[x] == o
  }
}
