/** The order of writes: a queue drained by one txer whose writes do not fail is written in order. */
module SendOrder {
  import opened Wrappers
  import opened SendPath
  import opened SendConservation

  /** Only `t` takes from queue `q`, and no write fails. */
  ghost predicate Orderly(steps: seq<Step>, q: nat, t: nat) {
    forall i | 0 <= i < |steps| :: Allowed(steps[i], q, t)
  }

  predicate Allowed(st: Step, q: nat, t: nat) {
    (st.Dequeue? && st.q == q ==> st.t == t) && !(st.Tx? && st.move.WriteFails?)
  }

  /** What is on the wire from `es` is there in the order of `es`. */
  predicate InOrder(wire: seq<Sendable>, es: seq<Sendable>) {
    forall i, j, a, b | 0 <= i < j < |wire| && 0 <= a < |es| && 0 <= b < |es| && es[a] == wire[i]
        && es[b] == wire[j] :: a < b
  }

  /** Nothing on the wire from `es` comes at or after position `g`. */
  predicate Before(wire: seq<Sendable>, es: seq<Sendable>, g: int) {
    forall i, a | 0 <= i < |wire| && 0 <= a < |es| && es[a] == wire[i] :: a < g
  }

  predicate Unfailed(pc: TxPc) {
    !pc.WriteFailed? && !pc.Disarmed? && !pc.ErrNotified?
  }

  /** How many messages have been taken from the queue. */
  function Gone(s: State, q: nat): int
    requires q < |s.queues| && q < |s.entered|
  {
    |s.entered[q]| - |s.queues[q]|
  }

  /** `t` holds a message of the queue that is not written yet. */
  predicate AboutToWrite(s: State, q: nat, t: nat)
    requires q < |s.entered|
  {
    t in s.txers && (s.txers[t].Got? || s.txers[t].Writing?) && s.txers[t].x in s.entered[q]
  }

  /** What queue `q` holds is what it accepted and `t` has not taken. */
  predicate LineShape(s: State, q: nat) {
    && q < |s.queues| && q < |s.entered| && Gone(s, q) >= 0 && s.queues[q] == s.entered[q][Gone(s, q)..]
    && Distinct(s.entered[q])
    && (forall x | x in s.entered[q] :: Accepted(s, x))
    && (forall x | x in s.wire :: Accepted(s, x))
  }

  predicate HolderShape(s: State, q: nat, t: nat, u: nat)
    requires LineShape(s, q)
  {
    u in s.txers ==>
      && Unfailed(s.txers[u])
      && (Held(s.txers[u]).Some? && Held(s.txers[u]).value in s.entered[q] ==>
            u == t && Gone(s, q) > 0 && s.entered[q][Gone(s, q) - 1] == Held(s.txers[u]).value)
  }

  predicate ElsewhereShape(s: State, q: nat, k: nat)
    requires q < |s.entered|
  {
    k < |s.queues| && k != q ==> forall x | x in s.queues[k] :: x !in s.entered[q]
  }

  predicate WireShape(s: State, q: nat, t: nat)
    requires LineShape(s, q)
  {
    && InOrder(s.wire, s.entered[q])
    && Before(s.wire, s.entered[q], if AboutToWrite(s, q, t) then Gone(s, q) - 1 else Gone(s, q))
  }

  ghost predicate OrderInv(s: State, q: nat, t: nat) {
    && LineShape(s, q) && WireShape(s, q, t)
    && (forall u :: HolderShape(s, q, t, u))
    && (forall k :: ElsewhereShape(s, q, k))
  }

  lemma LongerLine(wire: seq<Sendable>, es: seq<Sendable>, x: Sendable, g: int)
    requires InOrder(wire, es) && Before(wire, es, g) && x !in wire
    ensures InOrder(wire, es + [x]) && Before(wire, es + [x], g)
  {
    var es' := es + [x];
    forall i, a | 0 <= i < |wire| && 0 <= a < |es'| && es'[a] == wire[i] ensures a < |es| && es[a] == wire[i] {
      assert wire[i] in wire;
    }
  }

  lemma EnqueueHere(s: State, w: map<Sendable, Place>, q: nat, t: nat, n: nat)
    requires Inv(s, w) && OrderInv(s, q, t) && Enabled(s, Enqueue(n, q)) && !Accepted(s, s.numbered[n])
    ensures var s' := Next(s, Enqueue(n, q)); LineShape(s', q) && WireShape(s', q, t)
  {
    var s', x := Next(s, Enqueue(n, q)), s.numbered[n];
    assert s'.entered[q] == s.entered[q] + [x] && s'.queues[q] == s.queues[q] + [x];
    LongerLine(s.wire, s.entered[q], x, if AboutToWrite(s, q, t) then Gone(s, q) - 1 else Gone(s, q));
    Appended(s.entered[q], x);
    HeldAccepted(s, w, t);
    assert MessageShape(s, w, Sendable(n, true, true));
    assert AboutToWrite(s', q, t) <==> AboutToWrite(s, q, t);
  }

  lemma EnqueueOrder(s: State, w: map<Sendable, Place>, q: nat, t: nat, n: nat, k: nat)
    requires Inv(s, w) && OrderInv(s, q, t) && Enabled(s, Enqueue(n, k))
    ensures OrderInv(Next(s, Enqueue(n, k)), q, t)
  {
    var s' := Next(s, Enqueue(n, k));
    var x := s.numbered[n];
    assert MessageShape(s, w, x) && MessageShape(s, w, Sendable(n, true, true));
    if k == q { EnqueueHere(s, w, q, t, n); }
    forall u ensures HolderShape(s', q, t, u) { assert HolderShape(s, q, t, u); HeldAccepted(s, w, u); }
    forall j: nat ensures ElsewhereShape(s', q, j) {
      assert ElsewhereShape(s, q, j);
      if j < |s.queues| { QueuedAccepted(s, w, j); }
    }
  }

  lemma HeldAccepted(s: State, w: map<Sendable, Place>, u: nat)
    requires Inv(s, w)
    ensures u in s.txers && Held(s.txers[u]).Some? ==> Accepted(s, Held(s.txers[u]).value)
  {
    if u in s.txers && Held(s.txers[u]).Some? {
      assert TxerShape(s, w, u) && MessageShape(s, w, Held(s.txers[u]).value);
    }
  }

  lemma QueuedAccepted(s: State, w: map<Sendable, Place>, k: nat)
    requires Inv(s, w) && k < |s.queues|
    ensures forall x | x in s.queues[k] :: Accepted(s, x)
  {
    forall x | x in s.queues[k] ensures Accepted(s, x) { assert QueueShape(s, w, k) && MessageShape(s, w, x); }
  }

  lemma DequeueOrder(s: State, q: nat, t: nat, u: nat, k: nat)
    requires OrderInv(s, q, t) && Enabled(s, Dequeue(u, k)) && (k == q ==> u == t)
    ensures OrderInv(Next(s, Dequeue(u, k)), q, t)
  {
    var s' := Next(s, Dequeue(u, k));
    assert HolderShape(s, q, t, t) && ElsewhereShape(s, q, k);
    forall v ensures HolderShape(s', q, t, v) { assert HolderShape(s, q, t, v); }
    forall j ensures ElsewhereShape(s', q, j) { assert ElsewhereShape(s, q, j); }
  }

  lemma LongerWire(wire: seq<Sendable>, es: seq<Sendable>, x: Sendable, g: int)
    requires InOrder(wire, es) && Distinct(es)
    requires if x in es then 0 < g <= |es| && es[g - 1] == x && Before(wire, es, g - 1) else Before(wire, es, g)
    ensures InOrder(wire + [x], es) && Before(wire + [x], es, g)
  {
    var wire' := wire + [x];
    forall i, a | 0 <= i < |wire'| && 0 <= a < |es| && es[a] == wire'[i] ensures a < g && (i == |wire| ==> a == g - 1) {
      if i < |wire| { assert wire[i] == es[a]; }
    }
  }

  lemma WriteLine(s: State, w: map<Sendable, Place>, s': State, q: nat, t: nat, u: nat)
    requires Inv(s, w) && OrderInv(s, q, t) && u in s.txers && s.txers[u].Writing?
    requires s'.queues == s.queues && s'.entered == s.entered && s'.accepted == s.accepted
    requires s'.wire == s.wire + [s.txers[u].x] && s'.txers == s.txers[u := Wrote(s.txers[u].x)]
    ensures LineShape(s', q) && WireShape(s', q, t)
  {
    HeldAccepted(s, w, u);
    assert HolderShape(s, q, t, u) && HolderShape(s, q, t, t);
    LongerWire(s.wire, s.entered[q], s.txers[u].x, if u != t
        && AboutToWrite(s, q, t) then Gone(s, q) - 1 else Gone(s, q));
    assert AboutToWrite(s', q, t) <==> u != t && AboutToWrite(s, q, t);
  }

  lemma WriteOrder(s: State, w: map<Sendable, Place>, q: nat, t: nat, u: nat)
    requires Inv(s, w) && OrderInv(s, q, t) && Enabled(s, Tx(u, WriteOk))
    ensures OrderInv(ApplyTx(s, u, WriteOk), q, t)
  {
    var s' := ApplyTx(s, u, WriteOk);
    WriteLine(s, w, s', q, t, u);
    forall v ensures HolderShape(s', q, t, v) { assert HolderShape(s, q, t, v); }
    forall j ensures ElsewhereShape(s', q, j) { assert ElsewhereShape(s, q, j); }
  }

  /** Txers put messages to rest or move on with them; queues and wire stay as they are. */
  lemma OrderFrame(s: State, s': State, q: nat, t: nat)
    requires OrderInv(s, q, t)
    requires s'.queues == s.queues && s'.entered == s.entered && s'.wire == s.wire && s'.accepted == s.accepted
    requires forall u | u in s'.txers ::
               && Unfailed(s'.txers[u])
               && (Held(s'.txers[u]).Some? ==> u in s.txers && Held(s'.txers[u]) == Held(s.txers[u]))
    requires AboutToWrite(s', q, t) ==> AboutToWrite(s, q, t)
    ensures OrderInv(s', q, t)
  {
    forall v ensures HolderShape(s', q, t, v) { assert HolderShape(s, q, t, v); }
    forall j ensures ElsewhereShape(s', q, j) { assert ElsewhereShape(s, q, j); }
  }

  /** Short of a write, and of a failure, a txer comes to rest or goes on to write. */
  ghost predicate JustMoves(s: State, s': State, u: nat, pc: TxPc) {
    && s'.queues == s.queues && s'.entered == s.entered && s'.wire == s.wire && s'.accepted == s.accepted
    && u in s.txers && s'.txers == s.txers[u := pc]
    && (pc.Idle? || pc.Exited? || (s.txers[u].Got? && pc == Writing(s.txers[u].x)))
  }

  /** One txer goes from `s.txers[u]` to `pc`. */
  lemma TxerOrder(s: State, s': State, q: nat, t: nat, u: nat, pc: TxPc)
    requires OrderInv(s, q, t) && JustMoves(s, s', u, pc)
    ensures OrderInv(s', q, t)
  {
    forall v | v in s.txers ensures Unfailed(s.txers[v]) { assert HolderShape(s, q, t, v); }
    OrderFrame(s, s', q, t);
  }

  lemma RestChanges(s: State, u: nat, m: TxMove) returns (pc: TxPc)
    requires Enabled(s, Tx(u, m))
    requires m.Expire? || m.Begin? || m.Trace? || m.RefuseTimeout? || m.AfterWrite? || m.Exit?
    ensures JustMoves(s, ApplyTx(s, u, m), u, pc)
  {
    match m
    case Expire => pc := Idle;
    case Begin => pc := Writing(s.txers[u].x);
    case Trace => pc := Idle;
    case AfterWrite => pc := Idle;
    case RefuseTimeout => pc := Exited;
    case Exit => pc := Exited;
  }

  lemma QuietOrder(s: State, q: nat, t: nat, st: Step)
    requires OrderInv(s, q, t) && Enabled(s, st) && !st.Enqueue? && !st.Dequeue? && !st.Tx?
    ensures OrderInv(Next(s, st), q, t)
  {
    forall v | v in s.txers ensures Unfailed(s.txers[v]) { assert HolderShape(s, q, t, v); }
    OrderFrame(s, Next(s, st), q, t);
  }

  lemma {:induction false} RunOrder(states: seq<State>, steps: seq<Step>, q: nat, t: nat, i: nat)
    requires IsRun(states, steps) && Orderly(steps, q, t) && i < |states| && q < |states[0].cfg.caps|
    ensures OrderInv(states[i], q, t)
  {
    if i == 0 {
      forall v ensures HolderShape(states[0], q, t, v) {}
      forall j ensures ElsewhereShape(states[0], q, j) {}
    } else {
      RunOrder(states, steps, q, t, i - 1);
      var s, st := states[i - 1], steps[i - 1];
      var w := RunInv(states, steps, i - 1);
      assert Allowed(st, q, t);
      if st.Enqueue? {
        EnqueueOrder(s, w, q, t, st.n, st.q);
      } else if st.Dequeue? {
        DequeueOrder(s, q, t, st.t, st.q);
      } else if st.Tx? && st.move.WriteOk? {
        WriteOrder(s, w, q, t, st.t);
      } else if st.Tx? {
        assert HolderShape(s, q, t, st.t);
        var pc := RestChanges(s, st.t, st.move);
        TxerOrder(s, states[i], q, t, st.t, pc);
      } else {
        QuietOrder(s, q, t, st);
      }
    }
  }

  /** With one txer on a queue and no failed write, whatever else goes on in the channel, the messages that
      queue accepted reach the wire in the order in which it accepted them. */
  lemma WritesFollowAcceptance(states: seq<State>, steps: seq<Step>, q: nat, t: nat, i: nat)
    requires IsRun(states, steps) && Orderly(steps, q, t) && i < |states| && q < |states[0].cfg.caps|
    ensures q < |states[i].entered| && InOrder(states[i].wire, states[i].entered[q])
  {
    RunOrder(states, steps, q, t, i);
  }
}
