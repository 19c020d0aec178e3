/** The Underlays collection (underlays.go) and the counts-based checks of impl.go, in imperative form. */
module UnderlayCollection {
  import opened Wrappers
  import opened MapOrder
  import opened ChannelLife
  import opened ChannelMembership
  import opened ChannelFill
  import opened ChannelCauses

  type Counts = map<string, nat>

  function Lookup(counts: Counts, kind: string): nat {
    if kind in counts then counts[kind] else 0
  }

  /** Counting one more underlay of `kind` raises the total by one. */
  lemma SumBump(a: Counts, kind: string)
    ensures var b := a[kind := Lookup(a, kind) + 1]; Sum(b, b.Keys) == Sum(a, a.Keys) + 1
  {
    var b := a[kind := Lookup(a, kind) + 1];
    SumAny(b, b.Keys, kind);
    SumSame(a, b, a.Keys - {kind});
    assert b.Keys - {kind} == a.Keys - {kind};
    if kind in a { SumAny(a, a.Keys, kind); } else { assert a.Keys - {kind} == a.Keys; }
  }

  datatype Event = UnderlayAdded(u: Underlay) | UnderlayRemoved(u: Underlay)

  /** Every listener hears of the event once, in the order of registration. */
  function Notices(listeners: seq<nat>, e: Event): seq<(nat, Event)> {
    seq(|listeners|, i requires 0 <= i < |listeners| => (listeners[i], e))
  }

  class Underlays {
    var entries: seq<Underlay>
    var listeners: seq<nat>
    var told: seq<(nat, Event)>     // the calls made to listeners

    constructor ()
      ensures entries == [] && listeners == [] && told == []
    {
      entries, listeners, told := [], [], [];
    }

    method AddListener(l: nat)
      modifies this`listeners
      ensures listeners == old(listeners) + [l]
    {
      listeners := listeners + [l];
    }

    method Notify(e: Event)
      modifies this`told
      ensures told == old(told) + Notices(listeners, e)
    {
      for i := 0 to |listeners|
        invariant told == old(told) + Notices(listeners, e)[..i]
      {
        told := told + [(listeners[i], e)];
      }
    }

    method Add(u: Underlay)
      modifies this
      ensures entries == old(entries) + [u] && listeners == old(listeners)
      ensures told == old(told) + Notices(listeners, UnderlayAdded(u))
    {
      entries := entries + [u];
      Notify(UnderlayAdded(u));
    }

    /** Splices out the first match, and reports it to every listener if there was one. */
    method Remove(u: Underlay) returns (removed: bool)
      modifies this
      ensures entries == Without(old(entries), u) && listeners == old(listeners)
      ensures removed == (u in old(entries))
      ensures removed ==> exists i: nat :: Spliced(old(entries), u, entries, i)
      ensures told == if removed then old(told) + Notices(listeners, UnderlayRemoved(u)) else old(told)
    {
      if u in entries { WithoutSplices(entries, u); }
      removed := Splice(u);
      if removed { Notify(UnderlayRemoved(u)); }
    }

    method Splice(u: Underlay) returns (removed: bool)
      modifies this`entries
      ensures entries == Without(old(entries), u)
      ensures removed == (u in old(entries))
    {
      for i := 0 to |entries|
        invariant entries == old(entries) && u !in entries[..i]
      {
        if entries[i] == u {
          WithoutAt(entries, u, i);
          entries := entries[..i] + entries[i + 1..];
          return true;
        }
      }
      assert entries[..|entries|] == entries;
      WithoutAbsent(entries, u);
      removed := false;
    }

    method First() returns (r: Option<Underlay>)
      ensures r == if entries == [] then None else Some(entries[0])
    {
      if |entries| > 0 { return Some(entries[0]); }
      return None;
    }
  }

  lemma {:induction false} WithoutAt(es: seq<Underlay>, u: Underlay, i: nat)
    requires i < |es| && es[i] == u && u !in es[..i]
    ensures Without(es, u) == es[..i] + es[i + 1..]
  {
    if i > 0 {
      assert es[0] in es[..i] && es[1..][..i - 1] == es[1..i];
      WithoutAt(es[1..], u, i - 1);
    }
  }

  lemma {:induction false} WithoutAbsent(es: seq<Underlay>, u: Underlay)
    requires u !in es
    ensures Without(es, u) == es
  {
    if es != [] { WithoutAbsent(es[1..], u); }
  }

  method CountsByType(entries: seq<Underlay>) returns (counts: Counts)
    ensures forall k :: Lookup(counts, k) == CountOf(entries, k)
    ensures Sum(counts, counts.Keys) == |entries|
  {
    counts := map[];
    for i := 0 to |entries|
      invariant forall k :: Lookup(counts, k) == CountOf(entries[..i], k)
      invariant Sum(counts, counts.Keys) == i
    {
      var kind := entries[i].kind;
      SumBump(counts, kind);
      ghost var before := counts;
      counts := counts[kind := Lookup(counts, kind) + 1];
      assert entries[..i + 1] == entries[..i] + [entries[i]];
      forall k ensures Lookup(counts, k) == CountOf(entries[..i + 1], k) {
        CountAdd(entries[..i], entries[i], k);
        assert Lookup(before, k) == CountOf(entries[..i], k);
      }
    }
    assert entries[..|entries|] == entries;
  }

  /** countsShowValidState, without its call to Close: it decides exactly whether the minimums are met. */
  method CountsShowValidState(cfg: Config, counts: Counts, ghost entries: seq<Underlay>) returns (valid: bool)
    requires forall k :: Lookup(counts, k) == CountOf(entries, k)
    requires Sum(counts, counts.Keys) == |entries|
    ensures valid <==>
              && (forall k | k in cfg.constraints :: CountOf(entries, k) >= cfg.constraints[k].min)
              && |entries| >= cfg.minTotal
  {
    var todo := cfg.constraints.Keys;
    while todo != {}
      invariant todo <= cfg.constraints.Keys
      invariant forall k | k in cfg.constraints && k !in todo :: cfg.constraints[k].min <= CountOf(entries, k)
      decreases todo
    {
      var k :| k in todo;
      if cfg.constraints[k].min > Lookup(counts, k) { return false; }
      todo := todo - {k};
    }
    var totalCount := 0;
    var kinds := counts.Keys;
    while kinds != {}
      invariant kinds <= counts.Keys && totalCount + Sum(counts, kinds) == |entries|
      decreases kinds
    {
      var k :| k in kinds;
      SumAny(counts, kinds, k);
      totalCount := totalCount + counts[k];
      kinds := kinds - {k};
    }
    return totalCount >= cfg.minTotal;
  }

  method AreConstraintDesiresSatisfied(cfg: Config, counts: Counts, ghost entries: seq<Underlay>) returns (ok: bool)
    requires forall k :: Lookup(counts, k) == CountOf(entries, k)
    ensures ok <==> forall k | k in cfg.constraints :: CountOf(entries, k) >= cfg.constraints[k].desired
  {
    var todo := cfg.constraints.Keys;
    while todo != {}
      invariant todo <= cfg.constraints.Keys
      invariant forall k | k in cfg.constraints && k !in todo :: CountOf(entries, k) >= cfg.constraints[k].desired
      decreases todo
    {
      var k :| k in todo;
      if cfg.constraints[k].desired > Lookup(counts, k) {
        return false;
      }
      todo := todo - {k};
    }
    return true;
  }

  /** The kinds the fill loop dials: in any iteration order, those short of their desired count. */
  method KindsShort(cfg: Config, counts: Counts, ghost entries: seq<Underlay>) returns (short: set<string>)
    requires forall k :: Lookup(counts, k) == CountOf(entries, k)
    ensures forall k :: k in short <==> k in cfg.constraints && CountOf(entries, k) < cfg.constraints[k].desired
  {
    short := {};
    var todo := cfg.constraints.Keys;
    while todo != {}
      invariant todo <= cfg.constraints.Keys
      invariant forall k :: k in short <==>
                  k in cfg.constraints && k !in todo && CountOf(entries, k) < cfg.constraints[k].desired
      decreases todo
    {
      var k :| k in todo;
      if cfg.constraints[k].desired > Lookup(counts, k) { short := short + {k}; }
      todo := todo - {k};
    }
  }
}
