/**
 The waiter map of impl.go and its counter, as a transition system over any number of goroutines.

 The map and the counter are updated one after the other, never together: an operation has a map half and a
 counter half, and anything may happen in between.  `clear` zeroes the counter first and wipes the map second.
 The state keeps the accounts by which the two drift apart.  "Early" means: with the map half before the wipe.
 */
module WaiterCounter {
  import opened Wrappers
  import opened MapOrder

  datatype Waiter = Waiter(receiver: nat, ttl: int)

  /** Close clears the map once. */
  datatype Phase = Open | Clearing | Cleared

  /** A reapExpired in progress: what it has visited, what it is about to delete, and its two counts. */
  datatype Reaper = Reaper(now: int, visited: set<nat>, found: Option<nat>, early: nat, late: nat)

  datatype State = State(
    m: map<nat, Waiter>,
    size: int,
    phase: Phase,
    addsEarly: set<nat>, addsLate: set<nat>,     // goroutines that have stored and not yet counted
    takesEarly: set<nat>, takesLate: set<nat>,   // goroutines that have taken and not yet counted
    reapers: map<nat, Reaper>,
    overEarly: nat, overLate: nat,               // stores onto a waiting sequence
    missEarly: nat, missLate: nat,               // reaper deletions of a sequence already gone
    adds: nat, takes: nat, reaps: nat)           // early operations counted after the counter was zeroed

  datatype Step =
    | Store(t: nat, sq: nat, w: Waiter)
    | CountAdd(t: nat)
    | LoadAndDelete(t: nat, sq: nat)
    | CountTake(t: nat)
    | StartReap(t: nat, now: int)
    | Find(t: nat, sq: nat)
    | Delete(t: nat)
    | EndReap(t: nat)
    | Zero
    | Wipe

  predicate Busy(s: State, t: nat) {
    t in s.addsEarly || t in s.addsLate || t in s.takesEarly || t in s.takesLate || t in s.reapers
  }

  predicate Enabled(s: State, st: Step) {
    match st
    case Store(t, _, _) => !Busy(s, t)
    case CountAdd(t) => t in s.addsEarly || t in s.addsLate
    case LoadAndDelete(t, _) => !Busy(s, t)
    case CountTake(t) => t in s.takesEarly || t in s.takesLate
    case StartReap(t, _) => !Busy(s, t)
    case Find(t, sq) =>
      && t in s.reapers && s.reapers[t].found.None? && sq !in s.reapers[t].visited
      && sq in s.m && s.m[sq].ttl < s.reapers[t].now
    case Delete(t) => t in s.reapers && s.reapers[t].found.Some?
    case EndReap(t) => t in s.reapers && s.reapers[t].found.None?
    case Zero => s.phase.Open?
    case Wipe => s.phase.Clearing?
  }

  function One(b: bool): nat { if b then 1 else 0 }

  function ApplyStore(s: State, t: nat, sq: nat, w: Waiter): State {
    var stored := s.(m := s.m[sq := w]);
    if s.phase.Cleared? then
      stored.(addsLate := s.addsLate + {t}, overLate := s.overLate + One(sq in s.m))
    else
      stored.(addsEarly := s.addsEarly + {t}, overEarly := s.overEarly + One(sq in s.m))
  }

  function ApplyCountAdd(s: State, t: nat): State {
    var counted := s.(size := s.size + 1);
    if t in s.addsLate then counted.(addsLate := s.addsLate - {t})
    else counted.(addsEarly := s.addsEarly - {t}, adds := s.adds + One(!s.phase.Open?))
  }

  function ApplyTake(s: State, t: nat, sq: nat): State {
    if sq !in s.m then s
    else if s.phase.Cleared? then s.(m := s.m - {sq}, takesLate := s.takesLate + {t})
    else s.(m := s.m - {sq}, takesEarly := s.takesEarly + {t})
  }

  function ApplyCountTake(s: State, t: nat): State {
    var counted := s.(size := s.size - 1);
    if t in s.takesLate then counted.(takesLate := s.takesLate - {t})
    else counted.(takesEarly := s.takesEarly - {t}, takes := s.takes + One(!s.phase.Open?))
  }

  function ApplyDelete(s: State, t: nat): State
    requires Enabled(s, Delete(t))
  {
    var r := s.reapers[t];
    var sq := r.found.value;
    var deleted := s.(m := s.m - {sq});
    if s.phase.Cleared? then
      deleted.(reapers := s.reapers[t := r.(found := None, late := r.late + 1)],
          missLate := s.missLate + One(sq !in s.m))
    else
      deleted.(reapers := s.reapers[t := r.(found := None, early := r.early + 1)],
               missEarly := s.missEarly + One(sq !in s.m))
  }

  function ApplyEndReap(s: State, t: nat): State
    requires t in s.reapers
  {
    var r := s.reapers[t];
    s.(size := s.size - r.early - r.late, reapers := s.reapers - {t},
       reaps := s.reaps + if s.phase.Open? then 0 else r.early)
  }

  function Next(s: State, st: Step): State
    requires Enabled(s, st)
  {
    match st
    case Store(t, sq, w) => ApplyStore(s, t, sq, w)
    case CountAdd(t) => ApplyCountAdd(s, t)
    case LoadAndDelete(t, sq) => ApplyTake(s, t, sq)
    case CountTake(t) => ApplyCountTake(s, t)
    case StartReap(t, now) => s.(reapers := s.reapers[t := Reaper(now, {}, None, 0, 0)])
    case Find(t, sq) =>
      var r := s.reapers[t];
      s.(reapers := s.reapers[t := r.(visited := r.visited + {sq}, found := Some(sq))])
    case Delete(t) => ApplyDelete(s, t)
    case EndReap(t) => ApplyEndReap(s, t)
    case Zero => s.(size := 0, phase := Clearing)
    case Wipe => s.(m := map[], phase := Cleared)
  }

  const INITIAL: State := State(map[], 0, Open, {}, {}, {}, {}, map[], 0, 0, 0, 0, 0, 0, 0)

  ghost predicate IsRun(states: seq<State>, steps: seq<Step>) {
    && |states| == |steps| + 1 && states[0] == INITIAL
    && forall i | 0 <= i < |steps| :: Enabled(states[i], steps[i]) && states[i + 1] == Next(states[i], steps[i])
  }

  // ---------- The accounts ----------

  function Early(reapers: map<nat, Reaper>): map<nat, nat> { map t | t in reapers :: reapers[t].early }
  function Late(reapers: map<nat, Reaper>): map<nat, nat> { map t | t in reapers :: reapers[t].late }

  /** What the reapers in progress have deleted and not yet subtracted. */
  ghost function EarlyReaps(s: State): nat { Sum(Early(s.reapers), s.reapers.Keys) }
  ghost function LateReaps(s: State): nat { Sum(Late(s.reapers), s.reapers.Keys) }

  /** Nothing is late before the wipe, and nothing straddles before the counter is zeroed. */
  ghost predicate Tidy(s: State) {
    && (!s.phase.Cleared? ==>
          s.addsLate == {} && s.takesLate == {} && LateReaps(s) == 0 && s.overLate == 0 && s.missLate == 0)
    && (s.phase.Open? ==> s.adds == 0 && s.takes == 0 && s.reaps == 0)
    && s.addsEarly !! s.addsLate && s.takesEarly !! s.takesLate
  }

  /** By how much the counter exceeds the map, from the accounts alone. */
  ghost function Drift(s: State): int {
    match s.phase
    case Open => s.overEarly - s.missEarly - |s.addsEarly| + |s.takesEarly| + EarlyReaps(s)
    case Clearing => s.adds - s.takes - s.reaps - |s.m|
    case Cleared =>
      s.overLate - s.missLate - |s.addsLate| + |s.takesLate| + LateReaps(s) + s.adds - s.takes - s.reaps
  }

  ghost predicate Accounted(s: State) {
    Tidy(s) && s.size - |s.m| == Drift(s)
  }

  lemma SumPut(a: map<nat, nat>, b: map<nat, nat>, t: nat, n: nat)
    requires b == a[t := n]
    ensures Sum(b, b.Keys) == Sum(a, a.Keys) + n - (if t in a then a[t] else 0)
  {
    SumAny(b, b.Keys, t);
    SumSame(a, b, a.Keys - {t});
    assert b.Keys - {t} == a.Keys - {t};
    if t in a { SumAny(a, a.Keys, t); } else { assert a.Keys - {t} == a.Keys; }
  }

  lemma PutReaper(reapers: map<nat, Reaper>, t: nat, r: Reaper)
    ensures var u := reapers[t := r];
            && Sum(Early(u), u.Keys) ==
                 Sum(Early(reapers), reapers.Keys) + r.early - (if t in reapers then reapers[t].early else 0)
            && Sum(Late(u), u.Keys) ==
                 Sum(Late(reapers), reapers.Keys) + r.late - (if t in reapers then reapers[t].late else 0)
  {
    var u := reapers[t := r];
    SumPut(Early(reapers), Early(u), t, r.early);
    SumPut(Late(reapers), Late(u), t, r.late);
    assert Early(u).Keys == u.Keys == Late(u).Keys;
    assert Early(reapers).Keys == reapers.Keys == Late(reapers).Keys;
  }

  lemma DropReaper(reapers: map<nat, Reaper>, t: nat)
    requires t in reapers
    ensures var u := reapers - {t};
            && Sum(Early(u), u.Keys) == Sum(Early(reapers), reapers.Keys) - reapers[t].early
            && Sum(Late(u), u.Keys) == Sum(Late(reapers), reapers.Keys) - reapers[t].late
  {
    var u := reapers - {t};
    SumAny(Early(reapers), reapers.Keys, t);
    SumAny(Late(reapers), reapers.Keys, t);
    assert u.Keys == reapers.Keys - {t};
    SumSame(Early(reapers), Early(u), u.Keys);
    SumSame(Late(reapers), Late(u), u.Keys);
  }

  lemma MapSize(m: map<nat, Waiter>, sq: nat, w: Waiter)
    ensures |m[sq := w]| == |m| + One(sq !in m)
    ensures |m - {sq}| == |m| - One(sq in m)
  {
    assert m[sq := w].Keys == m.Keys + {sq};
    assert (m - {sq}).Keys == m.Keys - {sq};
  }

  lemma StoreAccounts(s: State, t: nat, sq: nat, w: Waiter)
    requires Accounted(s) && Enabled(s, Store(t, sq, w))
    ensures Accounted(ApplyStore(s, t, sq, w))
  {
    MapSize(s.m, sq, w);
  }

  lemma TakeAccounts(s: State, t: nat, sq: nat)
    requires Accounted(s) && Enabled(s, LoadAndDelete(t, sq))
    ensures Accounted(ApplyTake(s, t, sq))
  {
    if sq in s.m { MapSize(s.m, sq, s.m[sq]); }
  }

  lemma CountAddAccounts(s: State, t: nat)
    requires Accounted(s) && Enabled(s, CountAdd(t))
    ensures Accounted(ApplyCountAdd(s, t))
  {
  }

  lemma CountTakeAccounts(s: State, t: nat)
    requires Accounted(s) && Enabled(s, CountTake(t))
    ensures Accounted(ApplyCountTake(s, t))
  {
  }

  lemma DeleteAccounts(s: State, t: nat)
    requires Accounted(s) && Enabled(s, Delete(t))
    ensures Accounted(ApplyDelete(s, t))
  {
    var s' := ApplyDelete(s, t);
    MapSize(s.m, s.reapers[t].found.value, Waiter(0, 0));
    PutReaper(s.reapers, t, s'.reapers[t]);
    assert s'.reapers == s.reapers[t := s'.reapers[t]];
  }

  lemma StepAccounts(s: State, st: Step)
    requires Accounted(s) && Enabled(s, st)
    ensures Accounted(Next(s, st))
  {
    match st
    case Store(t, sq, w) => StoreAccounts(s, t, sq, w);
    case CountAdd(t) => CountAddAccounts(s, t);
    case LoadAndDelete(t, sq) => TakeAccounts(s, t, sq);
    case CountTake(t) => CountTakeAccounts(s, t);
    case StartReap(t, now) => PutReaper(s.reapers, t, Reaper(now, {}, None, 0, 0));
    case Find(t, sq) =>
      PutReaper(s.reapers, t, s.reapers[t].(visited := s.reapers[t].visited + {sq}, found := Some(sq)));
    case Delete(t) => DeleteAccounts(s, t);
    case EndReap(t) => DropReaper(s.reapers, t);
    case Zero =>
    case Wipe =>
  }

  /** In every run, at every moment, the counter exceeds the map by exactly what the accounts say. */
  lemma {:induction false} CounterIsAccountedFor(states: seq<State>, steps: seq<Step>, i: nat)
    requires IsRun(states, steps) && i < |states|
    ensures Tidy(states[i]) && states[i].size - |states[i].m| == Drift(states[i])
  {
    if i > 0 {
      CounterIsAccountedFor(states, steps, i - 1);
      StepAccounts(states[i - 1], steps[i - 1]);
    }
  }

  // ---------- Who leaves, and why ----------

  /** A waiter leaves the map by being taken, by a reaper that found it, or with everybody when the map is wiped. */
  lemma WaiterLeavesOnlyBy(states: seq<State>, steps: seq<Step>, i: nat, sq: nat)
    requires IsRun(states, steps) && i < |steps| && sq in states[i].m && sq !in states[i + 1].m
    ensures var st := steps[i];
            || (st.LoadAndDelete? && st.sq == sq)
            || (st.Delete? && states[i].reapers[st.t].found == Some(sq))
            || st.Wipe?
  {
    assert states[i + 1] == Next(states[i], steps[i]);
  }

  lemma FoundHow(s: State, st: Step, t: nat)
    requires Enabled(s, st) && t in Next(s, st).reapers && Next(s, st).reapers[t].found.Some?
    ensures var r := Next(s, st).reapers[t];
            || (t in s.reapers && s.reapers[t] == r)
            || (st == Find(t, r.found.value) && r.found.value in s.m && s.m[r.found.value].ttl < r.now)
  {
  }

  /** What a reaper is about to delete had expired by its clock when it looked. */
  lemma {:induction false} OnlyExpiredAreReaped(states: seq<State>, steps: seq<Step>, i: nat, t: nat) returns (j: nat)
    requires IsRun(states, steps) && i < |states| && t in states[i].reapers && states[i].reapers[t].found.Some?
    ensures var r := states[i].reapers[t];
            && j < i && steps[j] == Find(t, r.found.value)
            && r.found.value in states[j].m && states[j].m[r.found.value].ttl < r.now
  {
    if i == 0 {
      assert false;
    } else {
      FoundHow(states[i - 1], steps[i - 1], t);
      if t in states[i - 1].reapers && states[i - 1].reapers[t] == states[i].reapers[t] {
        j := OnlyExpiredAreReaped(states, steps, i - 1, t);
      } else {
        j := i - 1;
      }
    }
  }

  // ---------- At rest ----------

  /** No operation is under way. */
  predicate AtRest(s: State) {
    && s.addsEarly == {} && s.addsLate == {} && s.takesEarly == {} && s.takesLate == {} && s.reapers == map[]
    && !s.phase.Clearing?
  }

  /** Between operations the counter is exact if and only if as many stores hit a waiting sequence as reaper
      deletions came too late; and after a clear, if and only if the stores since the wipe that did, plus the
      additions the clear cut in two, balance the deletions since that came too late, plus the removals and
      reaper deletions it cut in two. */
  lemma ExactAtRestIff(states: seq<State>, steps: seq<Step>, i: nat)
    requires IsRun(states, steps) && i < |states| && AtRest(states[i])
    ensures var s := states[i];
            s.size == |s.m| <==>
              if s.phase.Open? then s.overEarly == s.missEarly
              else s.overLate + s.adds == s.missLate + s.takes + s.reaps
  {
    CounterIsAccountedFor(states, steps, i);
  }

  // ---------- How the counter goes wrong ----------

  lemma Push(states: seq<State>, steps: seq<Step>, st: Step) returns (states': seq<State>, steps': seq<Step>)
    requires IsRun(states, steps) && Enabled(states[|steps|], st)
    ensures IsRun(states', steps') && states'[|steps'|] == Next(states[|steps|], st)
    ensures states <= states' && steps <= steps'
  {
    states', steps' := states + [Next(states[|steps|], st)], steps + [st];
  }

  /** A run at rest, before any clear, in which `sq` is waiting and has expired. */
  ghost predicate Ripe(states: seq<State>, steps: seq<Step>, sq: nat, now: int) {
    && IsRun(states, steps) && AtRest(states[|steps|]) && states[|steps|].phase.Open?
    && sq in states[|steps|].m && states[|steps|].m[sq].ttl < now
  }

  /** There are such runs, with the counter exact. */
  lemma OneWaiter(sq: nat, w: Waiter) returns (states: seq<State>, steps: seq<Step>)
    ensures Ripe(states, steps, sq, w.ttl + 1) && states[|steps|] == INITIAL.(m := map[sq := w], size := 1)
  {
    states, steps := [INITIAL], [];
    states, steps := Push(states, steps, Store(0, sq, w));
    states, steps := Push(states, steps, CountAdd(0));
  }

  /** The run goes on, and comes to rest again. */
  ghost predicate Extends(states: seq<State>, steps: seq<Step>, states': seq<State>, steps': seq<Step>) {
    IsRun(states', steps') && states <= states' && steps <= steps' && AtRest(states'[|steps'|])
  }

  /** A sequence registered again is counted again. */
  lemma TwiceRegistered(states: seq<State>, steps: seq<Step>, sq: nat, now: int)
    returns (states': seq<State>, steps': seq<Step>)
    requires Ripe(states, steps, sq, now)
    ensures Extends(states, steps, states', steps')
    ensures var s, s' := states[|steps|], states'[|steps'|]; s'.size == s.size + 1 && s'.m.Keys == s.m.Keys
  {
    states', steps' := Push(states, steps, Store(1, sq, Waiter(0, 0)));
    states', steps' := Push(states', steps', CountAdd(1));
  }

  /** A reply that comes between the reaper's look and its deletion is counted by both. */
  lemma ReplyDuringReap(states: seq<State>, steps: seq<Step>, sq: nat, now: int)
    returns (states': seq<State>, steps': seq<Step>)
    requires Ripe(states, steps, sq, now)
    ensures Extends(states, steps, states', steps')
    ensures var s, s' := states[|steps|], states'[|steps'|]; s'.size == s.size - 2 && s'.m == s.m - {sq}
  {
    states', steps' := Push(states, steps, StartReap(1, now));
    states', steps' := Push(states', steps', Find(1, sq));
    states', steps' := Push(states', steps', LoadAndDelete(2, sq));
    states', steps' := Push(states', steps', CountTake(2));
    states', steps' := Push(states', steps', Delete(1));
    states', steps' := Push(states', steps', EndReap(1));
  }

  /** So is a waiter that two reapers find, each called for by the receiver of another underlay. */
  lemma TwoReapers(states: seq<State>, steps: seq<Step>, sq: nat, now: int)
    returns (states': seq<State>, steps': seq<Step>)
    requires Ripe(states, steps, sq, now)
    ensures Extends(states, steps, states', steps')
    ensures var s, s' := states[|steps|], states'[|steps'|]; s'.size == s.size - 2 && s'.m == s.m - {sq}
  {
    states', steps' := Push(states, steps, StartReap(1, now));
    states', steps' := Push(states', steps', StartReap(2, now));
    states', steps' := Push(states', steps', Find(1, sq));
    states', steps' := Push(states', steps', Find(2, sq));
    states', steps' := Push(states', steps', Delete(1));
    states', steps' := Push(states', steps', Delete(2));
    states', steps' := Push(states', steps', EndReap(1));
    states', steps' := Push(states', steps', EndReap(2));
  }

  /** A removal that falls into a clear is subtracted from zero. */
  lemma RemovalDuringClear(states: seq<State>, steps: seq<Step>, sq: nat, now: int)
    returns (states': seq<State>, steps': seq<Step>)
    requires Ripe(states, steps, sq, now)
    ensures Extends(states, steps, states', steps')
    ensures states'[|steps'|].size == -1 && states'[|steps'|].m == map[]
  {
    states', steps' := Push(states, steps, Zero);
    states', steps' := Push(states', steps', LoadAndDelete(1, sq));
    states', steps' := Push(states', steps', CountTake(1));
    states', steps' := Push(states', steps', Wipe);
  }

  /** An addition that does is wiped and still counted. */
  lemma AdditionDuringClear(states: seq<State>, steps: seq<Step>, sq: nat)
    returns (states': seq<State>, steps': seq<Step>)
    requires IsRun(states, steps) && AtRest(states[|steps|]) && states[|steps|].phase.Open?
    ensures Extends(states, steps, states', steps')
    ensures states'[|steps'|].size == 1 && states'[|steps'|].m == map[]
  {
    states', steps' := Push(states, steps, Zero);
    states', steps' := Push(states', steps', Store(1, sq, Waiter(0, 0)));
    states', steps' := Push(states', steps', CountAdd(1));
    states', steps' := Push(states', steps', Wipe);
  }
}
