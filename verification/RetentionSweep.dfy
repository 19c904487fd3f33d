/** The dispatcher's memory of retention sweeps: a map of sweep times, pruned by age once per interval. */
module RetentionSweep {
  import opened Text

  type Scope = string
  type Time = int

  /** `retentionSweptAt` and `retentionPrunedAt`. */
  datatype Memory = Memory(sweptAt: map<Scope, Time>, prunedAt: Option<Time>)

  const NOTHING_SWEPT := Memory(map[], None)

  predicate Due(sweptAt: map<Scope, Time>, interval: int, scope: Scope, now: Time) {
    scope !in sweptAt || now - sweptAt[scope] >= interval
  }

  function Young(sweptAt: map<Scope, Time>, interval: int, now: Time): map<Scope, Time> {
    map scope | scope in sweptAt && now - sweptAt[scope] < interval :: sweptAt[scope]
  }

  /** The memory after a granted sweep. */
  function Granted(m: Memory, interval: int, scope: Scope, now: Time): Memory {
    if m.prunedAt.None? || now - m.prunedAt.value >= interval
    then Memory(Young(m.sweptAt, interval, now)[scope := now], Some(now))
    else m.(sweptAt := m.sweptAt[scope := now])
  }

  class Dispatcher {
    const interval: int
    var memory: Memory

    constructor (interval: int)
      ensures this.interval == interval && memory == NOTHING_SWEPT
    {
      this.interval := interval;
      memory := NOTHING_SWEPT;
    }

    /** `claimRetentionSweep`. */
    method ClaimRetentionSweep(scope: Scope, now: Time) returns (granted: bool)
      modifies this
      ensures granted <==> Due(old(memory).sweptAt, interval, scope, now)
      ensures memory == if granted then Granted(old(memory), interval, scope, now) else old(memory)
    {
      if scope in memory.sweptAt && now - memory.sweptAt[scope] < interval {
        return false;
      }
      if memory.prunedAt.None? || now - memory.prunedAt.value >= interval {
        var kept, left := memory.sweptAt, memory.sweptAt.Keys;
        while left != {}
          invariant left <= memory.sweptAt.Keys && memory == old(memory)
          invariant kept == map s | s in memory.sweptAt && (s in left || now - memory.sweptAt[s] < interval) :: memory.sweptAt[s]
          decreases left
        {
          var swept :| swept in left;
          left := left - {swept};
          if now - memory.sweptAt[swept] >= interval {
            kept := kept - {swept};
          }
        }
        memory := Memory(kept, Some(now));
      }
      memory := memory.(sweptAt := memory.sweptAt[scope := now]);
      granted := true;
    }
  }

  // ---------- the pruned memory and a full one ----------

  datatype Claim = Claim(scope: Scope, now: Time)

  predicate NonDecreasing(claims: seq<Claim>) {
    forall i, j | 0 <= i < j < |claims| :: claims[i].now <= claims[j].now
  }

  function After(claims: seq<Claim>, interval: int): Memory {
    if claims == [] then NOTHING_SWEPT
    else
      var n := |claims| - 1;
      var m, c := After(claims[..n], interval), claims[n];
      if Due(m.sweptAt, interval, c.scope, c.now) then Granted(m, interval, c.scope, c.now) else m
  }

  /** The reference: every sweep ever granted, nothing forgotten. */
  function History(claims: seq<Claim>, interval: int): map<Scope, Time> {
    if claims == [] then map[]
    else
      var n := |claims| - 1;
      var h, c := History(claims[..n], interval), claims[n];
      if Due(h, interval, c.scope, c.now) then h[c.scope := c.now] else h
  }

  /** What pruning forgets is too old to matter, and what it keeps is right. */
  predicate Agrees(m: Memory, h: map<Scope, Time>, interval: int, now: Time) {
    && (forall s | s in m.sweptAt :: s in h && h[s] == m.sweptAt[s])
    && (forall s | s in h :: h[s] <= now && (s !in m.sweptAt ==> now - h[s] >= interval))
    && (m.prunedAt.None? ==> m.sweptAt == map[])
    && (m.prunedAt.Some? ==> m.prunedAt.value <= now && forall s | s in m.sweptAt :: m.sweptAt[s] > m.prunedAt.value - interval)
  }

  lemma AgreesLater(m: Memory, h: map<Scope, Time>, interval: int, now: Time, later: Time)
    requires Agrees(m, h, interval, now) && now <= later
    ensures Agrees(m, h, interval, later)
    ensures forall s: Scope :: Due(m.sweptAt, interval, s, later) <==> Due(h, interval, s, later)
  {
  }

  lemma AgreesAfterGrant(m: Memory, h: map<Scope, Time>, interval: int, scope: Scope, now: Time)
    requires interval > 0 && Agrees(m, h, interval, now)
    ensures Agrees(Granted(m, interval, scope, now), h[scope := now], interval, now)
    ensures forall s | s in Granted(m, interval, scope, now).sweptAt :: now - Granted(m, interval, scope, now).sweptAt[s] < 2 * interval
  {
  }

  lemma {:induction false} MemoryAgrees(claims: seq<Claim>, interval: int, now: Time)
    requires interval > 0 && NonDecreasing(claims) && (claims != [] ==> claims[|claims| - 1].now <= now)
    ensures Agrees(After(claims, interval), History(claims, interval), interval, now)
  {
    hide Agrees, Granted, Due;
    if claims == [] {
      StartAgrees(interval, now);
    } else {
      var n := |claims| - 1;
      var c := claims[n];
      MemoryAgrees(claims[..n], interval, c.now);
      var m, h := After(claims[..n], interval), History(claims[..n], interval);
      AgreesLater(m, h, interval, c.now, c.now);
      AgreesAfterGrant(m, h, interval, c.scope, c.now);
      AgreesLater(After(claims, interval), History(claims, interval), interval, c.now, now);
    }
  }

  lemma StartAgrees(interval: int, now: Time)
    ensures Agrees(NOTHING_SWEPT, map[], interval, now)
  {
  }

  /** Under a clock that never runs back, the pruned memory answers every claim as the full history would. */
  lemma PrunedAnswersAsFull(claims: seq<Claim>, interval: int, next: Claim)
    requires interval > 0 && NonDecreasing(claims + [next])
    ensures Due(After(claims, interval).sweptAt, interval, next.scope, next.now)
      <==> Due(History(claims, interval), interval, next.scope, next.now)
  {
    assert forall i | 0 <= i < |claims| :: (claims + [next])[i] == claims[i];
    assert (claims + [next])[|claims|] == next;
    MemoryAgrees(claims, interval, next.now);
    AgreesLater(After(claims, interval), History(claims, interval), interval, next.now, next.now);
  }

  /** The memory is pruned at most once per interval, and between two prunings it forgets no scope. */
  lemma PrunesAreSpaced(claims: seq<Claim>, interval: int)
    requires claims != []
    ensures var n := |claims| - 1;
            var before, after := After(claims[..n], interval), After(claims, interval);
            && (after.prunedAt != before.prunedAt ==>
                  after.prunedAt == Some(claims[n].now) && (before.prunedAt.Some? ==> claims[n].now - before.prunedAt.value >= interval))
            && (after.prunedAt == before.prunedAt && before.prunedAt != Some(claims[n].now) ==> before.sweptAt.Keys <= after.sweptAt.Keys)
  {
  }

  /** The claim at `i` was granted. */
  predicate GrantedAt(claims: seq<Claim>, interval: int, i: nat)
    requires i < |claims|
  {
    Due(After(claims[..i], interval).sweptAt, interval, claims[i].scope, claims[i].now)
  }

  /** Right after a grant, every remembered sweep is younger than two intervals. */
  lemma MemoryStaysSmall(claims: seq<Claim>, interval: int)
    requires interval > 0 && NonDecreasing(claims) && claims != [] && GrantedAt(claims, interval, |claims| - 1)
    ensures var now := claims[|claims| - 1].now;
            forall s | s in After(claims, interval).sweptAt :: now - After(claims, interval).sweptAt[s] < 2 * interval
  {
    hide Agrees, Granted, Due;
    var n := |claims| - 1;
    MemoryAgrees(claims[..n], interval, claims[n].now);
    AgreesAfterGrant(After(claims[..n], interval), History(claims[..n], interval), interval, claims[n].scope, claims[n].now);
  }

  /** The history remembers a scope's latest grant. */
  lemma {:induction false} HistoryRemembers(claims: seq<Claim>, interval: int, i: nat)
    requires interval > 0 && NonDecreasing(claims) && i < |claims| && GrantedAt(claims, interval, i)
    ensures claims[i].scope in History(claims, interval) && claims[i].now <= History(claims, interval)[claims[i].scope]
    decreases |claims|
  {
    var n := |claims| - 1;
    PrunedAnswersAsFull(claims[..n], interval, claims[n]) by { assert claims[..n] + [claims[n]] == claims; }
    if i < n {
      assert claims[..n][..i] == claims[..i];
      HistoryRemembers(claims[..n], interval, i);
    }
  }

  /** Two granted sweeps of one scope are at least one interval apart. */
  lemma SweepsAreSpaced(claims: seq<Claim>, interval: int, i: nat, j: nat)
    requires interval > 0 && NonDecreasing(claims) && i < j < |claims|
    requires claims[i].scope == claims[j].scope && GrantedAt(claims, interval, i) && GrantedAt(claims, interval, j)
    ensures claims[j].now - claims[i].now >= interval
  {
    var before := claims[..j];
    assert before[..i] == claims[..i];
    HistoryRemembers(before, interval, i);
    assert NonDecreasing(before + [claims[j]]) by { assert before + [claims[j]] == claims[..j + 1]; }
    PrunedAnswersAsFull(before, interval, claims[j]);
  }

  /** The history's time for a scope is that of one of its grants. */
  lemma {:induction false} HistoryWasGranted(claims: seq<Claim>, interval: int, scope: Scope)
    requires interval > 0 && NonDecreasing(claims) && scope in History(claims, interval)
    ensures exists i | 0 <= i < |claims| ::
              claims[i].scope == scope && claims[i].now == History(claims, interval)[scope] && GrantedAt(claims, interval, i)
  {
    var n := |claims| - 1;
    PrunedAnswersAsFull(claims[..n], interval, claims[n]) by { assert claims[..n] + [claims[n]] == claims; }
    if claims[n].scope == scope && Due(History(claims[..n], interval), interval, scope, claims[n].now) {
      assert GrantedAt(claims, interval, n);
    } else {
      HistoryWasGranted(claims[..n], interval, scope);
      var i :| 0 <= i < n && claims[..n][i].scope == scope && claims[..n][i].now == History(claims[..n], interval)[scope]
               && GrantedAt(claims[..n], interval, i);
      assert claims[..n][..i] == claims[..i];
      assert GrantedAt(claims, interval, i);
    }
  }

  /** A claim is granted exactly when no sweep of its scope was granted less than an interval before it. */
  lemma GrantedExactly(claims: seq<Claim>, interval: int, j: nat)
    requires interval > 0 && NonDecreasing(claims) && j < |claims|
    ensures GrantedAt(claims, interval, j) <==>
              forall i | 0 <= i < j && claims[i].scope == claims[j].scope && GrantedAt(claims, interval, i) ::
                claims[j].now - claims[i].now >= interval
  {
    hide Due, After;
    if GrantedAt(claims, interval, j) {
      forall i | 0 <= i < j && claims[i].scope == claims[j].scope && GrantedAt(claims, interval, i)
        ensures claims[j].now - claims[i].now >= interval
      {
        SweepsAreSpaced(claims, interval, i, j);
      }
    } else {
      RefusedForARecentGrant(claims, interval, j);
    }
  }

  lemma RefusedForARecentGrant(claims: seq<Claim>, interval: int, j: nat)
    requires interval > 0 && NonDecreasing(claims) && j < |claims| && !GrantedAt(claims, interval, j)
    ensures exists i | 0 <= i < j ::
              claims[i].scope == claims[j].scope && GrantedAt(claims, interval, i) && claims[j].now - claims[i].now < interval
  {
    var before, c := claims[..j], claims[j];
    assert NonDecreasing(before + [c]) by { assert before + [c] == claims[..j + 1]; }
    PrunedAnswersAsFull(before, interval, c);
    HistoryWasGranted(before, interval, c.scope);
    var i :| 0 <= i < j && before[i].scope == c.scope && before[i].now == History(before, interval)[c.scope] && GrantedAt(before, interval, i);
    assert before[..i] == claims[..i];
    assert GrantedAt(claims, interval, i);
  }
}
