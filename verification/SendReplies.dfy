/** Replies and their waiters: who is registered, by what a waiter is taken, and that a reply reaches it. */
module SendReplies {
  import opened Wrappers
  import opened SendPath
  import opened SendConservation

  /** Every attempt at a message that wants a reply registers a waiter of its own for it, and touches no other. */
  lemma AttemptRegisters(states: seq<State>, steps: seq<Step>, i: nat, t: nat)
    requires IsRun(states, steps) && i < |steps| && steps[i] == Tx(t, Begin)
    ensures var d, d', x := states[i].desk, states[i + 1].desk, states[i].txers[t].x;
            if x.wantsReply then
              && x.sq in d'.waiters && d'.waiters[x.sq] !in d.replies
              && d'.waiters[x.sq] in d'.replies && d'.replies[d'.waiters[x.sq]] == []
              && d'.waiters == d.waiters[x.sq := d'.waiters[x.sq]]
            else d' == d
  {
    var w := RunInv(states, steps, i);
    assert RegShape(states[i], states[i].desk.nextReg);
  }

  /** A reply goes to the waiter registered for what it answers, which is then done; nobody else hears of it. */
  lemma ReplyIsDelivered(states: seq<State>, steps: seq<Step>, i: nat, n: int)
    requires IsRun(states, steps) && i < |steps| && steps[i] == Reply(n) && n in states[i].desk.waiters
    ensures var d, d' := states[i].desk, states[i + 1].desk;
            var r := d.waiters[n];
            && r in d'.replies && d'.replies[r] == [n]
            && d'.waiters == d.waiters - {n}
            && (forall q | q in d.replies && q != r :: q in d'.replies && d'.replies[q] == d.replies[q])
  {
    var w := RunInv(states, steps, i);
    assert WaiterShape(states[i], w, n);
  }

  /** A reply nobody waits for changes nothing. */
  lemma StrayReplyIsIgnored(states: seq<State>, steps: seq<Step>, i: nat, n: int)
    requires IsRun(states, steps) && i < |steps| && steps[i] == Reply(n) && n !in states[i].desk.waiters
    ensures states[i + 1] == states[i]
  {
  }

  /** An expired waiter is gone, and Close leaves nobody waiting; neither counts as a reply. */
  lemma ExpiryAndCloseTake(states: seq<State>, steps: seq<Step>, i: nat)
    requires IsRun(states, steps) && i < |steps| && (steps[i].Reap? || steps[i].CloseChannel?)
    ensures var d, d' := states[i].desk, states[i + 1].desk;
            && d'.replies == d.replies && d'.regSeq == d.regSeq
            && (steps[i].Reap? ==> d'.waiters == d.waiters - {steps[i].sq} && d'.taken == d.taken + {steps[i].sq})
            && (steps[i].CloseChannel? ==> d'.waiters == map[] && d'.taken == d.taken + d.waiters.Keys)
  {
    assert states[i + 1] == Next(states[i], steps[i]);
  }

  /** What takes a waiter: its reply, its expiry, or the close of the channel. */
  predicate Takes(st: Step, n: nat) {
    st == Reply(n) || st == Reap(n) || st == CloseChannel
  }

  lemma QuietDesk(s: State, st: Step)
    requires Enabled(s, st) && !st.Tx? && !st.Reply? && !st.Reap? && !st.CloseChannel?
    ensures Next(s, st).desk == s.desk
  {
  }

  lemma TakenStep(s: State, st: Step, n: nat)
    requires Enabled(s, st) && (st.Reply? || st.Reap? || st.CloseChannel?)
    ensures n in s.desk.waiters && n !in Next(s, st).desk.waiters ==> Takes(st, n)
    ensures n !in s.desk.taken && n in Next(s, st).desk.taken ==> Takes(st, n) && n in s.desk.waiters
  {
  }

  lemma WaiterLeavesByTx(s: State, t: nat, m: TxMove, n: nat)
    requires Enabled(s, Tx(t, m)) && n in s.desk.waiters && n !in ApplyTx(s, t, m).desk.waiters
    ensures m.Disarm? && s.txers[t].x.sq == n
  {
  }

  /** A waiter leaves by one of these, or because the write of its own message has failed. */
  lemma WaiterLeavesOnlyBy(states: seq<State>, steps: seq<Step>, i: nat, n: nat)
    requires IsRun(states, steps) && i < |steps|
    requires n in states[i].desk.waiters && n !in states[i + 1].desk.waiters
    ensures || Takes(steps[i], n)
            || (steps[i].Tx? && steps[i].move.Disarm? && states[i].txers[steps[i].t].x.sq == n)
  {
    var s, st := states[i], steps[i];
    if st.Tx? {
      WaiterLeavesByTx(s, st.t, st.move, n);
    } else if st.Reply? || st.Reap? || st.CloseChannel? {
      TakenStep(s, st, n);
    } else {
      QuietDesk(s, st);
    }
  }

  lemma TxTakesNobody(s: State, t: nat, m: TxMove)
    requires Enabled(s, Tx(t, m))
    ensures ApplyTx(s, t, m).desk.taken <= s.desk.taken
  {
  }

  /** And it counts as taken only by one of them, while it was registered. */
  lemma TakenOnlyBy(states: seq<State>, steps: seq<Step>, i: nat, n: nat)
    requires IsRun(states, steps) && i < |steps|
    requires n !in states[i].desk.taken && n in states[i + 1].desk.taken
    ensures Takes(steps[i], n) && n in states[i].desk.waiters
  {
    var s, st := states[i], steps[i];
    if st.Tx? {
      TxTakesNobody(s, st.t, st.move);
    } else if st.Reply? || st.Reap? || st.CloseChannel? {
      TakenStep(s, st, n);
    } else {
      QuietDesk(s, st);
    }
  }

  // ---------- The first reply to a written message ----------

  /** `x` is written, by txer `t`, which may still have to say so. */
  predicate IsWritten(s: State, t: nat, x: Sendable) {
    (t in s.txers && s.txers[t] == Wrote(x)) || (x in s.outcomes && s.outcomes[x] == Written)
  }

  /** `x` is written and its waiter is registered as `r`. */
  predicate Awaits(s: State, t: nat, x: Sendable, r: nat) {
    IsWritten(s, t, x) && x.sq in s.desk.waiters && s.desk.waiters[x.sq] == r
  }

  lemma OtherTxersHoldOthers(s: State, w: map<Sendable, Place>, t: nat, x: Sendable, u: nat)
    requires Inv(s, w) && IsWritten(s, t, x) && u in s.txers && Held(s.txers[u]).Some?
    ensures Held(s.txers[u]).value.sq == x.sq ==> u == t && s.txers[u] == Wrote(x)
  {
    var y := Held(s.txers[u]).value;
    assert TxerShape(s, w, u) && TxerShape(s, w, t) && MessageShape(s, w, x) && MessageShape(s, w, y);
  }

  lemma TxKeepsAwaiting(s: State, w: map<Sendable, Place>, t: nat, x: Sendable, r: nat, u: nat, m: TxMove)
    requires Inv(s, w) && Awaits(s, t, x, r) && Enabled(s, Tx(u, m))
    ensures Awaits(ApplyTx(s, u, m), t, x, r)
  {
    if !m.Exit? { OtherTxersHoldOthers(s, w, t, x, u); }
  }

  lemma StepKeepsAwaiting(s: State, w: map<Sendable, Place>, t: nat, x: Sendable, r: nat, st: Step)
    requires Inv(s, w) && Awaits(s, t, x, r) && Enabled(s, st) && !Takes(st, x.sq)
    ensures Awaits(Next(s, st), t, x, r)
  {
    if st.Tx? { TxKeepsAwaiting(s, w, t, x, r, st.t, st.move); }
  }

  lemma {:induction false} StillAwaits(
      states: seq<State>, steps: seq<Step>, i: nat, j: nat, t: nat, x: Sendable, r: nat)
    requires IsRun(states, steps) && i <= j < |states| && Awaits(states[i], t, x, r)
    requires forall m | i <= m < j :: !Takes(steps[m], x.sq)
    ensures Awaits(states[j], t, x, r)
    decreases j
  {
    if i < j {
      StillAwaits(states, steps, i, j - 1, t, x, r);
      var w := RunInv(states, steps, j - 1);
      StepKeepsAwaiting(states[j - 1], w, t, x, r, steps[j - 1]);
    }
  }

  /** Once a message that wants a reply is written, the first reply to it is handed to the waiter of that very
      attempt, unless the waiter was taken before the write was over, or has expired, or the channel was closed. */
  lemma FirstReplyIsDelivered(states: seq<State>, steps: seq<Step>, i: nat, j: nat, t: nat)
    requires IsRun(states, steps) && i < j < |steps| && steps[i] == Tx(t, WriteOk)
    requires states[i].txers[t].x.wantsReply && states[i].txers[t].x.sq !in states[i + 1].desk.taken
    requires steps[j] == Reply(states[i].txers[t].x.sq)
    requires forall m | i < m < j :: !Takes(steps[m], states[i].txers[t].x.sq)
    ensures var n := states[i].txers[t].x.sq;
            && n in states[i + 1].desk.waiters
            && var r := states[i + 1].desk.waiters[n];
               r in states[j + 1].desk.replies && states[j + 1].desk.replies[r] == [n]
  {
    var x := states[i].txers[t].x;
    WaiterSurvivesRetry(states, steps, i, t);
    var r := states[i + 1].desk.waiters[x.sq];
    assert Awaits(states[i + 1], t, x, r);
    StillAwaits(states, steps, i + 1, j, t, x, r);
    ReplyIsDelivered(states, steps, j, x.sq);
  }
}
