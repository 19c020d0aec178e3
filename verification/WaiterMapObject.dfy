/** The waiter map as an object: its methods as impl.go writes them, with other goroutines acting in between. */
module WaiterMapObject {
  import opened Wrappers
  import opened WaiterCounter

  /** The goroutine that takes a step; None for the one call of clear. */
  function Thread(st: Step): Option<nat> {
    if st.Zero? || st.Wipe? then None else Some(st.t)
  }

  /** How far `t` has got is the same in both. */
  predicate SameFor(t: nat, s: State, s': State) {
    && (t in s.addsEarly <==> t in s'.addsEarly) && (t in s.addsLate <==> t in s'.addsLate)
    && (t in s.takesEarly <==> t in s'.takesEarly) && (t in s.takesLate <==> t in s'.takesLate)
    && (t in s.reapers <==> t in s'.reapers) && (t in s.reapers ==> s'.reapers[t] == s.reapers[t])
  }

  predicate Same(me: Option<nat>, s: State, s': State) {
    match me
    case None => s'.phase == s.phase
    case Some(t) => SameFor(t, s, s')
  }

  lemma OthersLeaveMe(s: State, st: Step, me: Option<nat>)
    requires Enabled(s, st) && Thread(st) != me
    ensures Same(me, s, Next(s, st))
  {
  }

  /** `t` is between two keys of its Range, and in no other operation. */
  predicate Reaping(s: State, t: nat) {
    && t in s.reapers && s.reapers[t].found.None?
    && t !in s.addsEarly && t !in s.addsLate && t !in s.takesEarly && t !in s.takesLate
  }

  /** Nobody else does anything. */
  ghost predicate Quiet(world: nat -> seq<Step>) {
    forall i :: world(i) == []
  }

  /** What is left once the expired ones among `keys` are gone. */
  function Kept(m: map<nat, Waiter>, now: int, keys: set<nat>): map<nat, Waiter> {
    map sq | sq in m && (sq in keys ==> m[sq].ttl >= now) :: m[sq]
  }

  lemma KeptMore(m: map<nat, Waiter>, now: int, keys: set<nat>, sq: nat)
    ensures Kept(m, now, keys + {sq}) == Kept(Kept(m, now, keys), now, {sq})
  {
  }

  class WaiterMap {
    var s: State                  // the map, the counter and the operations under way
    ghost var states: seq<State>
    ghost var steps: seq<Step>

    ghost predicate Valid()
      reads this
    {
      IsRun(states, steps) && s == states[|steps|]
    }

    constructor ()
      ensures Valid() && s == INITIAL && steps == []
    {
      s, states, steps := INITIAL, [INITIAL], [];
    }

    method Do(st: Step)
      requires Valid() && Enabled(s, st)
      modifies this
      ensures Valid() && s == Next(old(s), st) && steps == old(steps) + [st]
    {
      s := Next(s, st);
      states, steps := states + [s], steps + [st];
    }

    /** Other goroutines take these steps, as far as they can. */
    method Others(me: Option<nat>, world: seq<Step>)
      requires Valid()
      modifies this
      ensures Valid() && old(steps) <= steps && Same(me, old(s), s)
      ensures world == [] ==> s == old(s)
    {
      for i := 0 to |world|
        invariant Valid() && old(steps) <= steps && Same(me, old(s), s)
        invariant i == 0 ==> s == old(s)
      {
        if Thread(world[i]) != me && Enabled(s, world[i]) {
          OthersLeaveMe(s, world[i], me);
          Do(world[i]);
        }
      }
    }

    /** Undisturbed, a waiter is stored and counted; the count stays exact if the sequence was not waiting. */
    method AddWaiter(t: nat, sq: nat, w: Option<Waiter>, world: seq<Step>)
      requires Valid() && !Busy(s, t)
      modifies this
      ensures Valid() && !Busy(s, t) && old(steps) <= steps
      ensures w.None? ==> s == old(s)
      ensures w.Some? ==> |steps| >= |old(steps)| + 2 && steps[|old(steps)|] == Store(t, sq, w.value)
                          && steps[|steps| - 1] == CountAdd(t)
      ensures w.Some? && world == [] ==> s.m == old(s.m)[sq := w.value] && s.size == old(s.size) + 1
    {
      if w.Some? {
        Do(Store(t, sq, w.value));
        Others(Some(t), world);
        Do(CountAdd(t));
      }
    }

    /** Of any number of callers, the one whose deletion finds the waiter gets its receiver. */
    method RemoveWaiter(t: nat, sq: nat, world: seq<Step>) returns (receiver: Option<nat>)
      requires Valid() && !Busy(s, t)
      modifies this
      ensures Valid() && !Busy(s, t) && old(steps) < steps && steps[|old(steps)|] == LoadAndDelete(t, sq)
      ensures receiver == if sq in old(s.m) then Some(old(s.m)[sq].receiver) else None
      ensures world == [] ==> s.m == old(s.m) - {sq} && s.size == old(s.size) - One(sq in old(s.m))
    {
      receiver := if sq in s.m then Some(s.m[sq].receiver) else None;
      Do(LoadAndDelete(t, sq));
      if receiver.Some? {
        Others(Some(t), world);
        Do(CountTake(t));
      } else {
        assert s.m - {sq} == s.m;
      }
    }

    /** One key of Range: if it is waiting and expired it is deleted, whoever was faster, and counted. */
    method ReapOne(t: nat, sq: nat, before: seq<Step>, between: seq<Step>)
      requires Valid() && Reaping(s, t) && sq !in s.reapers[t].visited
      modifies this
      ensures Valid() && old(steps) <= steps && Reaping(s, t)
      ensures s.reapers[t].now == old(s.reapers[t].now) && s.reapers[t].visited <= old(s.reapers[t].visited) + {sq}
      ensures before == between == [] ==>
                && s.size == old(s.size) && s.m == Kept(old(s.m), old(s.reapers[t].now), {sq})
                && |s.m| + s.reapers[t].early + s.reapers[t].late
                     == |old(s.m)| + old(s.reapers[t].early) + old(s.reapers[t].late)
    {
      Others(Some(t), before);
      if sq in s.m && s.m[sq].ttl < s.reapers[t].now {
        Do(Find(t, sq));
        Others(Some(t), between);
        MapSize(s.m, sq, Waiter(0, 0));
        Do(Delete(t));
      }
    }

    /** The Range of reapExpired over distinct keys. */
    method ReapKeys(t: nat, keys: seq<nat>, world: nat -> seq<Step>) returns (ghost done: set<nat>)
      requires Valid() && Reaping(s, t) && s.reapers[t].visited == {}
      requires forall i, j | 0 <= i < j < |keys| :: keys[i] != keys[j]
      modifies this
      ensures Valid() && old(steps) <= steps && Reaping(s, t) && forall k :: k in done <==> k in keys
      ensures Quiet(world) ==>
                && s.size == old(s.size) && s.m == Kept(old(s.m), old(s.reapers[t].now), done)
                && |s.m| + s.reapers[t].early + s.reapers[t].late
                     == |old(s.m)| + old(s.reapers[t].early) + old(s.reapers[t].late)
    {
      done := {};
      ghost var now := s.reapers[t].now;
      for i := 0 to |keys|
        invariant Valid() && old(steps) <= steps && Reaping(s, t) && s.reapers[t].now == now
        invariant s.reapers[t].visited <= done && forall k :: k in done <==> k in keys[..i]
        invariant Quiet(world) ==> s.size == old(s.size) && s.m == Kept(old(s.m), now, done)
        invariant Quiet(world) ==> |s.m| + s.reapers[t].early + s.reapers[t].late
                                     == |old(s.m)| + old(s.reapers[t].early) + old(s.reapers[t].late)
      {
        assert keys[..i + 1] == keys[..i] + [keys[i]] && keys[i] !in keys[..i];
        KeptMore(old(s.m), now, done, keys[i]);
        ReapOne(t, keys[i], world(2 * i), world(2 * i + 1));
        done := done + {keys[i]};
      }
      assert keys[..|keys|] == keys;
    }

    /** reapExpired over the keys that Range yields.  Undisturbed, it drops exactly the expired waiters and
        subtracts their number. */
    method ReapExpired(t: nat, now: int, keys: seq<nat>, world: nat -> seq<Step>)
      requires Valid() && !Busy(s, t) && forall i, j | 0 <= i < j < |keys| :: keys[i] != keys[j]
      modifies this
      ensures Valid() && !Busy(s, t) && old(steps) <= steps
      ensures Quiet(world) && (forall sq | sq in old(s.m) :: sq in keys) ==>
                && s.m == (map sq | sq in old(s.m) && old(s.m)[sq].ttl >= now :: old(s.m)[sq])
                && s.size - |s.m| == old(s.size) - |old(s.m)|
    {
      Do(StartReap(t, now));
      ghost var done := ReapKeys(t, keys, world);
      Others(Some(t), world(2 * |keys|));
      Do(EndReap(t));
    }

    /** clear: the counter first, the map second.  Undisturbed, both are empty. */
    method Clear(world: seq<Step>)
      requires Valid() && s.phase.Open?
      modifies this
      ensures Valid() && s.phase.Cleared? && s.m == map[] && old(steps) <= steps
      ensures s.size == s.adds - s.takes - s.reaps
      ensures world == [] ==> s.size == 0
    {
      Do(Zero);
      Others(None, world);
      CounterIsAccountedFor(states, steps, |steps|);
      Do(Wipe);
    }
  }
}
