/** The bounded slot clock: a map from slots to block times that forgets the oldest slots. */
module SlotClock {
  import opened Domain

  /** Slot numbers are unsigned 64-bit values. */
  newtype Slot = x: int | 0 <= x < 0x1_0000_0000_0000_0000

  const CLOCK_CAP: nat := 32_768

  /** `inner` holds exactly the `CLOCK_CAP` largest slots of `full` (all of them, if there are
      fewer), with their stamps. */
  ghost predicate Newest(inner: map<Slot, int>, full: map<Slot, int>) {
    && TopOf(inner, full)
    && |inner| == if |full| < CLOCK_CAP then |full| else CLOCK_CAP
  }

  /** `inner` is `full` without some slots that are all smaller than the ones it keeps. */
  ghost predicate TopOf(inner: map<Slot, int>, full: map<Slot, int>) {
    && (forall k :: k in inner ==> k in full && inner[k] == full[k])
    && (forall k, j :: k in full && k !in inner && j in inner ==> k < j)
  }

  lemma {:induction false} MinExists(keys: set<Slot>) returns (least: Slot)
    requires keys != {}
    ensures least in keys && forall j: Slot | j in keys :: least <= j
    decreases |keys|
  {
    least :| least in keys;
    if other :| other in keys && other < least {
      assert |keys - {least}| < |keys|;
      var r := MinExists(keys - {least});
      assert forall j: Slot | j in keys :: j == least || j in keys - {least};
      least := r;
    }
  }

  lemma SubsetCard(a: set<Slot>, b: set<Slot>)
    requires a <= b
    ensures |a| <= |b|
    ensures |a| == |b| ==> a == b
  {
    assert b == a + (b - a);
    if |a| == |b| {
      assert |b - a| == 0;
    }
  }

  class Clock {
    var inner: map<Slot, int>
    /** Every slot ever inserted, with its last stamp. */
    ghost var full: map<Slot, int>

    ghost predicate Valid()
      reads this
    {
      Newest(inner, full)
    }

    constructor ()
      ensures Valid() && full == map[]
    {
      inner, full := map[], map[];
    }

    /** Record a stamp, then evict the smallest slots while there are too many. */
    method Insert(slot: Slot, atMs: int)
      requires Valid()
      modifies this
      ensures Valid() && full == old(full)[slot := atMs]
    {
      SubsetCard(inner.Keys, full.Keys);
      CardUpdate(inner, slot, atMs);
      CardUpdate(full, slot, atMs);
      full := full[slot := atMs];
      inner := inner[slot := atMs];
      while |inner| > CLOCK_CAP
        invariant full == old(full)[slot := atMs]
        invariant if |inner| <= CLOCK_CAP then Newest(inner, full)
          else inner == old(inner)[slot := atMs] && slot !in old(inner) && |inner| == CLOCK_CAP + 1
        decreases |inner|
      {
        ghost var least := MinExists(inner.Keys);
        var oldest :| oldest in inner && forall j: Slot | j in inner :: oldest <= j;
        assert (inner - {oldest}).Keys == inner.Keys - {oldest};
        EvictionKeepsNewest(old(inner), old(full), slot, atMs, inner, oldest);
        inner := inner - {oldest};
      }
    }

    /** The stamp of the newest slot at or below `slot`. */
    method Lookup(slot: Slot) returns (stamp: Option<int>)
      requires Valid()
      ensures stamp == LatestAt(inner, slot)
    {
      if k :| k in inner && k <= slot {
        ghost var j := LatestExists(inner, slot, k);
        var latest :| IsLatest(inner, slot, latest);
        LatestIs(inner, slot, latest);
        return Some(inner[latest]);
      }
      return None;
    }
  }

  lemma EvictionKeepsNewest(inner: map<Slot, int>, full: map<Slot, int>, slot: Slot, atMs: int,
      grown: map<Slot, int>, oldest: Slot)
    requires Newest(inner, full) && |inner| == CLOCK_CAP && slot !in inner && grown == inner[slot := atMs]
    requires oldest in grown && forall j: Slot | j in grown :: oldest <= j
    ensures Newest(grown - {oldest}, full[slot := atMs])
  {
    assert (grown - {oldest}).Keys == grown.Keys - {oldest};
    CardUpdate(inner, slot, atMs);
    SubsetCard(inner.Keys, full.Keys);
    CardUpdate(full, slot, atMs);
  }

  lemma CardUpdate(m: map<Slot, int>, k: Slot, v: int)
    ensures |m[k := v]| == if k in m then |m| else |m| + 1
  {
    assert m[k := v].Keys == m.Keys + {k};
  }

  lemma {:induction false} MaxExists(keys: set<Slot>) returns (most: Slot)
    requires keys != {}
    ensures most in keys && forall j: Slot | j in keys :: j <= most
    decreases |keys|
  {
    most :| most in keys;
    if other :| other in keys && other > most {
      assert |keys - {most}| < |keys|;
      var r := MaxExists(keys - {most});
      assert forall j: Slot | j in keys :: j == most || j in keys - {most};
      most := r;
    }
  }

  /** `k` is the largest slot of `m` that is not above `slot`. */
  predicate IsLatest(m: map<Slot, int>, slot: Slot, k: Slot) {
    && k in m && k <= slot
    && forall j: Slot | j in m :: !(k < j <= slot)
  }

  /** The stamp of the largest slot not above `slot`, if there is one. */
  ghost function LatestAt(m: map<Slot, int>, slot: Slot): Option<int> {
    if k :| IsLatest(m, slot, k) then Some(m[k]) else None
  }

  lemma LatestIs(m: map<Slot, int>, slot: Slot, k: Slot)
    requires IsLatest(m, slot, k)
    ensures LatestAt(m, slot) == Some(m[k])
  {
    var j :| IsLatest(m, slot, j) && LatestAt(m, slot) == Some(m[j]);
    assert IsLatest(m, slot, j);
    assert j in m && k in m;
  }

  lemma LatestExists(m: map<Slot, int>, slot: Slot, k: Slot) returns (j: Slot)
    requires k in m && k <= slot
    ensures IsLatest(m, slot, j)
  {
    var known := set i: Slot | i in m && i <= slot;
    assert k in known;
    j := MaxExists(known);
    forall i: Slot | i in m ensures !(j < i <= slot) {
      assert i <= slot ==> i in known;
    }
  }

  lemma NoSwap(a: map<Slot, int>, b: map<Slot, int>, full: map<Slot, int>, k: Slot)
    requires TopOf(a, full) && TopOf(b, full) && k in a && k !in b
    ensures b.Keys <= a.Keys
  {
    forall j | j in b ensures j in a {
      assert k < j;
    }
  }

  /** The bounded map is a function of everything inserted: there is only one map of the newest
      slots, whatever the order in which they arrived. */
  lemma NewestIsUnique(a: map<Slot, int>, b: map<Slot, int>, full: map<Slot, int>)
    requires Newest(a, full) && Newest(b, full)
    ensures a == b
  {
    forall k | k in a ensures k in b {
      if k !in b && b.Keys <= a.Keys {
        SubsetCard(b.Keys, a.Keys);
      } else if k !in b {
        NoSwap(a, b, full, k);
      }
    }
    assert a.Keys <= b.Keys;
    SubsetCard(a.Keys, b.Keys);
  }

  /** The bounded clock refines the unbounded one. A lookup agrees with a clock that never forgets
      exactly if a slot at or below the one asked for is still held, or none was ever inserted;
      otherwise it answers nothing. It never answers with the stamp of a later slot. */
  lemma BoundedLookupRefines(inner: map<Slot, int>, full: map<Slot, int>, slot: Slot)
    requires Newest(inner, full)
    ensures LatestAt(inner, slot) == LatestAt(full, slot) <==>
      (exists k :: k in inner && k <= slot) || (forall k :: k in full ==> k > slot)
    ensures LatestAt(inner, slot) == LatestAt(full, slot) || LatestAt(inner, slot) == None
    ensures LatestAt(inner, slot).Some? ==>
      exists k :: IsLatest(inner, slot, k) && IsLatest(full, slot, k) && LatestAt(inner, slot) == Some(full[k])
  {
    if k :| k in inner && k <= slot {
      var j := LatestExists(inner, slot, k);
      LatestIs(inner, slot, j);
      assert IsLatest(full, slot, j);
      LatestIs(full, slot, j);
    } else {
      assert LatestAt(inner, slot) == None;
      if k :| k in full && k <= slot {
        var j := LatestExists(full, slot, k);
        LatestIs(full, slot, j);
      }
    }
  }
}
