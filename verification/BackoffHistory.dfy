/** What the failure count and its reset mean over whole runs of a policy (dial_policy.go, impl.go). */
module BackoffHistory {
  import opened Wrappers
  import opened Bytes
  import opened BackoffDelay
  import opened BackoffPolicy

  /** An underlay this policy dialed: made before its dial was recorded as a success. */
  datatype Dialed = Dialed(createdAt: nat, succeededAt: nat)

  datatype State = State(policy: Policy, now: nat, dialed: seq<Dialed>)

  datatype Step =
    | Tick(elapsed: nat)
    | Succeed(createdAt: nat)      // recordSuccess
    | Fail                         // recordFailure
    | Close(u: nat)                // the underlay of the u-th successful dial is measured and reported
    | CloseOther(lifetime: int)    // so is an underlay the policy did not dial
    | CheckStale                   // resetStaleFailures
    | MarkDial
    | NextId(isFirst: bool)

  function Lifetime(s: State, u: nat): int
    requires u < |s.dialed|
  {
    s.now - s.dialed[u].createdAt
  }

  predicate Enabled(s: State, st: Step) {
    match st
    case Succeed(createdAt) => createdAt <= s.now
    case Close(u) => u < |s.dialed|
    case _ => true
  }

  /** What the step does to the policy, if anything. */
  function EventOf(s: State, st: Step): Option<Event>
    requires Enabled(s, st)
  {
    match st
    case Tick(_) => None
    case Succeed(_) => Some(DialSucceeded(s.now))
    case Fail => Some(DialFailed(s.now))
    case Close(u) => Some(UnderlayClosed(Lifetime(s, u), s.now))
    case CloseOther(lifetime) => Some(UnderlayClosed(lifetime, s.now))
    case CheckStale => Some(StaleChecked(s.now))
    case MarkDial => Some(DialMarked(s.now))
    case NextId(isFirst) => Some(Numbered(isFirst))
  }

  function Next(s: State, c: Config, st: Step): State
    requires Enabled(s, st)
  {
    var policy := match EventOf(s, st)
                  case None => s.policy
                  case Some(e) => After(s.policy, c, e);
    State(policy,
          if st.Tick? then s.now + st.elapsed else s.now,
          if st.Succeed? then s.dialed + [Dialed(st.createdAt, s.now)] else s.dialed)
  }

  ghost predicate IsRun(c: Config, states: seq<State>, steps: seq<Step>) {
    && |states| == |steps| + 1
    && states[0].policy == FRESH && states[0].dialed == []
    && forall i | 0 <= i < |steps| :: Enabled(states[i], steps[i]) && states[i + 1] == Next(states[i], c, steps[i])
  }

  // ---------- The failure count ----------

  /** A dial failed, or an underlay that lived too short a time was reported. */
  predicate Negative(s: State, c: Config, st: Step)
    requires Enabled(s, st)
  {
    match st
    case Fail => true
    case Close(u) => s.now - s.dialed[u].createdAt < c.minStable
    case CloseOther(lifetime) => lifetime < c.minStable
    case _ => false
  }

  /** An underlay was reported after a stable life, or the stale check found that the latest dial succeeded after the
      last negative event and at least the stable time ago. */
  predicate Resets(s: State, c: Config, st: Step)
    requires Enabled(s, st)
  {
    match st
    case Close(u) => s.now - s.dialed[u].createdAt >= c.minStable
    case CloseOther(lifetime) => lifetime >= c.minStable
    case CheckStale =>
      && s.policy.lastSuccess.Some? && s.now - s.policy.lastSuccess.value >= c.minStable
      && (s.policy.lastNegative.Some? ==> s.policy.lastSuccess.value > s.policy.lastNegative.value)
    case _ => false
  }

  ghost function Negatives(c: Config, states: seq<State>, steps: seq<Step>, i: nat, n: nat): set<nat>
    requires IsRun(c, states, steps) && i <= n <= |steps|
  {
    set j: nat | i <= j < n && Negative(states[j], c, steps[j])
  }

  lemma StepCounts(s: State, c: Config, st: Step)
    requires Enabled(s, st)
    ensures Next(s, c, st).policy.failures ==
              if Resets(s, c, st) then 0
              else if Negative(s, c, st) then Wrap32(s.policy.failures + 1)
              else s.policy.failures
  {
  }

  lemma WrapAdds(a: nat, n: nat)
    ensures Wrap32(Wrap32(a + n) + 1) == Wrap32(a + n + 1)
  {
    WrapSucc(Wrap32(a + n), a + n);
  }

  /** Along any part of a run without a reset, every negative event adds one to the failure count, modulo 2^32, and
      nothing else changes it. */
  lemma {:induction false} NegativesAddUp(c: Config, states: seq<State>, steps: seq<Step>, i: nat, n: nat)
    requires IsRun(c, states, steps) && i <= n <= |steps|
    requires forall j | i <= j < n :: !Resets(states[j], c, steps[j])
    ensures states[n].policy.failures == Wrap32(states[i].policy.failures + |Negatives(c, states, steps, i, n)|)
  {
    if i == n {
      assert Negatives(c, states, steps, i, n) == {};
    } else {
      StepCounts(states[n - 1], c, steps[n - 1]);
      NegativesAddUp(c, states, steps, i, n - 1);
      var before := Negatives(c, states, steps, i, n - 1);
      if Negative(states[n - 1], c, steps[n - 1]) {
        assert Negatives(c, states, steps, i, n) == before + {n - 1};
        WrapAdds(states[i].policy.failures, |before|);
      } else {
        assert Negatives(c, states, steps, i, n) == before;
      }
    }
  }

  /** In every run, the failure count is the number of negative events since the start or since any point
      just after a reset with no reset later, modulo 2^32. */
  lemma FailuresAreNegativesSinceReset(c: Config, states: seq<State>, steps: seq<Step>, i: nat, n: nat)
    requires IsRun(c, states, steps) && i <= n <= |steps|
    requires i == 0 || Resets(states[i - 1], c, steps[i - 1])
    requires forall j | i <= j < n :: !Resets(states[j], c, steps[j])
    ensures states[n].policy.failures == Wrap32(|Negatives(c, states, steps, i, n)|)
  {
    if i > 0 { StepCounts(states[i - 1], c, steps[i - 1]); }
    NegativesAddUp(c, states, steps, i, n);
  }

  /** While failures and short lives are reported and nothing resets the count, the backoff does not shrink: for a
      base delay in bound it is at least that before them, as long as the 32-bit count has room. */
  lemma BackoffHoldsWithoutReset(c: Config, states: seq<State>, steps: seq<Step>, i: nat, n: nat)
    requires Sensible(c) && c.baseDelay <= MAX_INT64 / 0x4000_0000
    requires IsRun(c, states, steps) && i <= n <= |steps|
    requires forall j | i <= j < n :: !Resets(states[j], c, steps[j])
    requires states[i].policy.failures + |Negatives(c, states, steps, i, n)| < TWO_32
    ensures PlainDelay(c, states[i].policy.failures) <= PlainDelay(c, states[n].policy.failures)
  {
    NegativesAddUp(c, states, steps, i, n);
    WrapSmall(states[i].policy.failures + |Negatives(c, states, steps, i, n)|);
    SmallBaseNeverWraps(c);
    DelayStep(c, states[i].policy.failures, states[n].policy.failures);
  }

  /** An underlay was reported that lived for less than the stable time. */
  predicate ShortClose(s: State, c: Config, st: Step)
    requires Enabled(s, st)
  {
    || (st.Close? && s.now - s.dialed[st.u].createdAt < c.minStable)
    || (st.CloseOther? && st.lifetime < c.minStable)
  }

  /** k reports of short lives, whatever time passes between them, add k to the count, so the delay that follows is at
      least that before them. */
  lemma ShortLivesRaiseTheDelay(c: Config, states: seq<State>, steps: seq<Step>, i: nat, n: nat, k: nat)
    requires Sensible(c) && c.baseDelay <= MAX_INT64 / 0x4000_0000
    requires IsRun(c, states, steps) && i <= n <= |steps|
    requires forall j | i <= j < n :: steps[j].Tick? || ShortClose(states[j], c, steps[j])
    requires k == |set j: nat | i <= j < n && ShortClose(states[j], c, steps[j])|
    requires states[i].policy.failures + k < TWO_32
    ensures states[n].policy.failures == states[i].policy.failures + k
    ensures PlainDelay(c, states[i].policy.failures) <= PlainDelay(c, states[n].policy.failures)
  {
    assert (set j: nat | i <= j < n && ShortClose(states[j], c, steps[j])) == Negatives(c, states, steps, i, n);
    NegativesAddUp(c, states, steps, i, n);
    BackoffHoldsWithoutReset(c, states, steps, i, n);
    WrapSmall(states[i].policy.failures + k);
  }

  /** The time of the last negative event is that of the latest one in the run, and unset if there was none. */
  lemma {:induction false} LastNegativeIsLatest(c: Config, states: seq<State>, steps: seq<Step>, i: nat, n: nat)
    requires IsRun(c, states, steps) && i <= n <= |steps|
    requires i == 0 || Negative(states[i - 1], c, steps[i - 1])
    requires forall j | i <= j < n :: !Negative(states[j], c, steps[j])
    ensures states[n].policy.lastNegative == if i == 0 then None else Some(states[i - 1].now)
  {
    if i < n {
      LastNegativeIsLatest(c, states, steps, i, n - 1);
      assert states[n] == Next(states[n - 1], c, steps[n - 1]);
    } else if i > 0 {
      assert states[i] == Next(states[i - 1], c, steps[i - 1]);
    }
  }

  // ---------- What a stale reset proves ----------

  /** The recorded times are those of the past, and the last success is that of the latest dial. */
  predicate TimesFit(s: State) {
    && (s.policy.lastNegative.Some? ==> s.policy.lastNegative.value <= s.now)
    && (s.policy.lastSuccess == if s.dialed == [] then None else Some(s.dialed[|s.dialed| - 1].succeededAt))
    && forall u | 0 <= u < |s.dialed| :: s.dialed[u].createdAt <= s.dialed[u].succeededAt <= s.now
  }

  lemma {:induction false} RunTimesFit(c: Config, states: seq<State>, steps: seq<Step>, n: nat)
    requires IsRun(c, states, steps) && n <= |steps|
    ensures TimesFit(states[n])
  {
    if n > 0 {
      RunTimesFit(c, states, steps, n - 1);
      assert states[n] == Next(states[n - 1], c, steps[n - 1]);
    }
  }

  function When(t: Time): int {
    match t
    case None => -1
    case Some(v) => v
  }

  /** The clock, the last negative event and the record of dials only move forward. */
  lemma {:induction false} RunMovesForward(c: Config, states: seq<State>, steps: seq<Step>, i: nat, n: nat)
    requires IsRun(c, states, steps) && i <= n <= |steps|
    ensures states[i].now <= states[n].now
    ensures When(states[i].policy.lastNegative) <= When(states[n].policy.lastNegative)
    ensures states[i].dialed <= states[n].dialed
  {
    if i < n {
      RunMovesForward(c, states, steps, i, n - 1);
      RunTimesFit(c, states, steps, n - 1);
      assert states[n] == Next(states[n - 1], c, steps[n - 1]);
    }
  }

  /** Whenever the stale check clears the failures, the underlay of the latest successful dial has already lived for
      the stable time by every report of it in the whole run, before or after. */
  lemma StaleResetIsVindicated(c: Config, states: seq<State>, steps: seq<Step>, i: nat, j: nat, u: nat)
    requires IsRun(c, states, steps) && i < |steps| && j < |steps|
    requires steps[i] == CheckStale && states[i].policy.failures != 0 && states[i + 1].policy.failures == 0
    requires u == |states[i].dialed| - 1 && steps[j] == Close(u)
    ensures states[j].now - states[j].dialed[u].createdAt >= c.minStable
  {
    RunTimesFit(c, states, steps, i);
    StepCounts(states[i], c, steps[i]);
    if j < i {
      RunMovesForward(c, states, steps, j, i);
      RunMovesForward(c, states, steps, j + 1, i);
      RunTimesFit(c, states, steps, j);
      if states[j].now - states[j].dialed[u].createdAt < c.minStable {
        LastNegativeIsLatest(c, states, steps, j + 1, j + 1);
      }
    } else {
      RunMovesForward(c, states, steps, i, j);
    }
  }
}
