/** Pruning a dead-letter list: what `PruneExhaustedMessages` does, and what it keeps. */
module DlqPrune {
  import opened Text
  import opened DlqKeys
  import opened DlqStore
  import opened DlqPoll

  /** What one pass of the loop meets: Redis failed on the pop, and whether a push back succeeded. */
  datatype Pass = Pass(popFails: bool, pushed: bool)

  datatype PruneRun = PruneRun(state: State, pruned: nat, ended: bool, failed: bool)

  /** The head of the list is discarded when it is spent and put back otherwise. */
  function PruneHead(c: Setup, ctx: string, source: string, before: PruneRun, pushed: bool): PruneRun {
    var q := before.state.Queue(Key(c.cfg.prefix, ctx, source));
    if q == [] then before.(ended := true)
    else
      var popped := ApplyPop(c.cfg, before.state, c.worker, ctx, source);
      if Spent(q[0]) then PruneRun(Settle(popped, c.worker, Pruned), before.pruned + 1, false, false)
      else PruneRun(Requeue(c.cfg, popped, c.worker, popped.held[c.worker].msg, 0, pushed), before.pruned, !pushed, !pushed)
  }

  /** The first `n` passes. */
  function PruneTo(c: Setup, ctx: string, source: string, passes: nat -> Pass, s: State, n: nat): PruneRun {
    if n == 0 then PruneRun(s, 0, !SourceOk(source), !SourceOk(source))
    else
      var before := PruneTo(c, ctx, source, passes, s, n - 1);
      if before.ended then before
      else if passes(n - 1).popFails || !SegmentOk(ctx) then before.(ended := true, failed := true)
      else PruneHead(c, ctx, source, before, passes(n - 1).pushed)
  }

  lemma {:induction false} EndedStays(c: Setup, ctx: string, source: string, passes: nat -> Pass, s: State, n: nat, m: nat)
    requires n <= m && PruneTo(c, ctx, source, passes, s, n).ended
    ensures PruneTo(c, ctx, source, passes, s, m) == PruneTo(c, ctx, source, passes, s, n)
    decreases m
  {
    hide PruneHead;
    if n < m {
      EndedStays(c, ctx, source, passes, s, n, m - 1);
    }
  }

  /** Pruning fails only at a bad source or tenant, a pop or a push that failed. */
  lemma {:induction false} CalmPruneSucceeds(c: Setup, ctx: string, source: string, passes: nat -> Pass, s: State, n: nat)
    requires SourceOk(source) && SegmentOk(ctx) && forall i | 0 <= i < n :: !passes(i).popFails && passes(i).pushed
    ensures !PruneTo(c, ctx, source, passes, s, n).failed
  {
    hide Key, SegmentOk, Requeue, ApplyPop;
    if n > 0 {
      CalmPruneSucceeds(c, ctx, source, passes, s, n - 1);
    }
  }

  function Survivors(q: seq<Message>): seq<Message> {
    if q == [] then [] else (if Spent(q[0]) then [] else [q[0]]) + Survivors(q[1..])
  }

  lemma {:induction false} SurvivorsAppend(p: seq<Message>, q: seq<Message>)
    ensures Survivors(p + q) == Survivors(p) + Survivors(q)
  {
    if p == [] {
      assert p + q == q;
    } else {
      assert (p + q)[1..] == p[1..] + q;
      SurvivorsAppend(p[1..], q);
    }
  }

  /** A list without spent messages is its own survivors. */
  lemma {:induction false} AllSurvive(q: seq<Message>)
    requires forall m | m in q :: !Spent(m)
    ensures Survivors(q) == q
  {
    if q != [] {
      AllSurvive(q[1..]);
    }
  }

  lemma {:induction false} SurvivorsNotSpent(q: seq<Message>)
    ensures forall m | m in Survivors(q) :: !Spent(m)
    ensures |Survivors(q)| <= |q|
  {
    if q != [] {
      SurvivorsNotSpent(q[1..]);
    }
  }

  /** A list part-way through pruning: `seen` messages examined, the survivors among them at the back. */
  ghost predicate Pruning(q: seq<Message>, now: seq<Message>, seen: nat, pruned: nat) {
    && multiset(Survivors(now)) == multiset(Survivors(q)) && pruned == |q| - |now|
    && if seen <= |q| then now == q[seen..] + Survivors(q[..seen]) else Survivors(now) == now
  }

  /** The list after its head has been examined. */
  function Examined(now: seq<Message>): seq<Message>
    requires now != []
  {
    if Spent(now[0]) then now[1..] else now[1..] + [now[0]]
  }

  lemma SingleSurvivor(m: Message)
    ensures Survivors([m]) == if Spent(m) then [] else [m]
  {
  }

  lemma ExaminedKeepsSurvivors(now: seq<Message>)
    requires now != []
    ensures multiset(Survivors(Examined(now))) == multiset(Survivors(now))
  {
    hide Survivors;
    assert now == [now[0]] + now[1..];
    SurvivorsAppend([now[0]], now[1..]);
    SurvivorsAppend(now[1..], [now[0]]);
    SingleSurvivor(now[0]);
  }

  /** The first pass: the head is one of the messages the list held at the start. */
  lemma PruneFirstPass(q: seq<Message>, now: seq<Message>, seen: nat)
    requires seen < |q| && now == q[seen..] + Survivors(q[..seen])
    ensures now[0] == q[seen] && Examined(now) == q[seen + 1..] + Survivors(q[..seen + 1])
  {
    hide Survivors, Spent;
    assert now[1..] == q[seen + 1..] + Survivors(q[..seen]);
    assert q[..seen + 1] == q[..seen] + [q[seen]];
    SurvivorsAppend(q[..seen], [q[seen]]);
    SingleSurvivor(q[seen]);
  }

  lemma PruneOne(q: seq<Message>, now: seq<Message>, seen: nat, pruned: nat)
    requires Pruning(q, now, seen, pruned) && now != []
    ensures Pruning(q, Examined(now), seen + 1, if Spent(now[0]) then pruned + 1 else pruned)
  {
    hide Survivors;
    ExaminedKeepsSurvivors(now);
    if seen < |q| {
      PruneFirstPass(q, now, seen);
    } else {
      SurvivorsNotSpent(if seen == |q| then q[..seen] else now);
      assert forall m | m in now :: !Spent(m);
      AllSurvive(Examined(now));
    }
  }

  lemma PruneStart(q: seq<Message>)
    ensures Pruning(q, q, 0, 0)
  {
    assert q[0..] + Survivors(q[..0]) == q;
  }

  lemma PruneEmpty(q: seq<Message>, seen: nat, pruned: nat)
    requires Pruning(q, [], seen, pruned)
    ensures multiset(Survivors([])) == multiset(Survivors(q)) && pruned == |q| && Survivors([]) == []
  {
  }

  lemma PruneEnd(q: seq<Message>, now: seq<Message>, seen: nat, pruned: nat)
    requires Pruning(q, now, seen, pruned)
    ensures multiset(Survivors(now)) == multiset(Survivors(q)) && pruned == |q| - |now|
    ensures seen >= |q| ==> Survivors(now) == now
  {
    if seen == |q| {
      assert now == Survivors(q[..seen]);
      SurvivorsNotSpent(q[..seen]);
      AllSurvive(now);
    }
  }
}
