/**
 The consumer's loops over the dead-letter queue, proved against `DlqPoll` and `DlqPrune`. Each method also drives the
 step system, so everything proved of its runs holds of these methods.
 */
module DlqConsumer {
  import opened Numbers
  import opened Text
  import opened Backoff
  import opened DlqKeys
  import opened DlqStore
  import opened DlqSafety
  import opened DlqPoll
  import opened DlqPrune

  lemma {:induction false} RunAppend(cfg: Config, s: State, a: seq<Step>, t: State, b: seq<Step>, u: State)
    requires Run(cfg, s, a, t) && Run(cfg, t, b, u)
    ensures Run(cfg, s, a + b, u)
    decreases |a|
  {
    hide Apply, Enabled;
    if a == [] {
      assert a + b == b;
    } else {
      assert (a + b)[0] == a[0] && (a + b)[1..] == a[1..] + b;
      RunAppend(cfg, Apply(cfg, s, a[0]), a[1..], t, b, u);
    }
  }

  lemma RunStep(cfg: Config, s: State, a: seq<Step>, t: State, step: Step)
    requires Run(cfg, s, a, t) && Enabled(t, step)
    ensures Run(cfg, s, a + [step], Apply(cfg, t, step))
  {
    hide Apply, Enabled;
    assert Run(cfg, t, [step], Apply(cfg, t, step)) by {
      assert [step][1..] == [];
      assert Run(cfg, Apply(cfg, t, step), [], Apply(cfg, t, step));
    }
    RunAppend(cfg, s, a, t, [step], Apply(cfg, t, step));
  }

  /** Clock, then the one step that `Work` chooses. */
  function Chosen(s: State, w: Worker, t: Turn): Step
    requires w in s.held
  {
    var clock, m := s.clock + t.elapsed, s.held[w].msg;
    if !Ready(m, clock) then PutBack(w, t.pushed)
    else if Spent(m) then Exhaust(w)
    else Retry(w, t.succeeds, clock + t.working, Draw(t.draw, m.retryCount + 1), t.pushed)
  }

  lemma WorkIsChosen(cfg: Config, s: State, w: Worker, t: Turn)
    requires w in s.held
    ensures var now := s.(clock := s.clock + t.elapsed);
            Enabled(now, Chosen(s, w, t)) && Apply(cfg, now, Chosen(s, w, t)) == Work(cfg, s, w, t)
  {
    hide Requeue, ApplyRetry, Exponential;
  }

  lemma FirstHaltIs(r: Round, q: seq<Message>, clock: int, cap: nat, h: nat)
    requires h <= cap <= |q| && (h < cap ==> Halts(r, q, clock, h)) && forall j | 0 <= j < h :: !Halts(r, q, clock, j)
    ensures FirstHalt(r, q, clock, cap) == h
  {
    var f := FirstHalt(r, q, clock, cap);
    assert f == cap || Halts(r, q, clock, f);
  }

  /** A message that is not ready turns the list by one. */
  lemma RotationNext(c: Setup, ctx: string, source: string, r: Round, s: State, n: nat)
    requires var key := Key(c.cfg.prefix, ctx, source);
             && n < |s.Queue(key)| && !Halts(r, s.Queue(key), s.clock, n)
             && Inv(c.cfg, Rotation(s, key, r, n)) && c.worker !in s.held && SourceOk(source) && SegmentOk(ctx)
             && Inv(c.cfg, ApplyPop(c.cfg, Rotation(s, key, r, n), c.worker, ctx, source))
    ensures var key := Key(c.cfg.prefix, ctx, source);
            var popped := ApplyPop(c.cfg, Rotation(s, key, r, n), c.worker, ctx, source);
            c.worker in popped.held && Work(c.cfg, popped, c.worker, r.turn(n)) == Rotation(s, key, r, n + 1)
  {
    hide Inv, Key, Work, SegmentOk, Deferred;
    var key := Key(c.cfg.prefix, ctx, source);
    var at := Rotation(s, key, r, n);
    var popped := ApplyPop(c.cfg, at, c.worker, ctx, source);
    PopKeeps(c.cfg, at, c.worker, ctx, source);
    HeadIsQueued(c.cfg, at, key);
    WorkPutsBack(c.cfg, popped, c.worker, r.turn(n));
    assert popped.held - {c.worker} == s.held;
    PopThenPush(s, key, r, n, Held(c.worker));
  }

  lemma WorkPutsBack(cfg: Config, s: State, w: Worker, t: Turn)
    requires Inv(cfg, s) && w in s.held && !Ready(s.held[w].msg, s.clock + t.elapsed) && t.pushed
    ensures var m := s.held[w].msg;
            Work(cfg, s, w, t) == Push(s.(clock := s.clock + t.elapsed, held := s.held - {w}), Key(cfg.prefix, m.tenant, m.source), m)
  {
    hide Inv, Key, Work, Deferred;
    WorkOutcome(cfg, s, w, t);
  }

  /** The list loses its head and gains it at the back; the place of the message is as before. */
  lemma PopThenPush(s: State, key: string, r: Round, n: nat, held: Place)
    requires n < |s.Queue(key)|
    requires var at := Rotation(s, key, r, n); At(at, at.Queue(key)[0].id, Queued(key))
    ensures
      var at, next := Rotation(s, key, r, n), Rotation(s, key, r, n + 1);
      var m := s.Queue(key)[n];
      && at.Queue(key) != [] && at.Queue(key)[0] == m
      && at.queues[key := at.Queue(key)[1..]][key := at.Queue(key)[1..] + [m]] == next.queues
      && at.where[m.id := held][m.id := Queued(key)] == next.where
  {
    hide Rotated;
    var q := s.Queue(key);
    RotatedStep(q, n);
    var at := Rotation(s, key, r, n);
    assert at.Queue(key) == Rotated(q, n);
    assert at.queues[key := Rotated(q, n + 1)] == s.queues[key := Rotated(q, n + 1)];
  }

  lemma RotatedStep(q: seq<Message>, n: nat)
    requires n < |q|
    ensures Rotated(q, 0) == q && Rotated(q, n) != [] && Rotated(q, n)[0] == q[n]
    ensures Rotated(q, n)[1..] + [q[n]] == Rotated(q, n + 1)
  {
  }

  lemma NoRotation(s: State, key: string, r: Round)
    ensures Rotation(s, key, r, 0) == s
  {
  }

  lemma RotationHead(s: State, key: string, r: Round, n: nat)
    requires n < |s.Queue(key)|
    ensures var at := Rotation(s, key, r, n);
            at.Queue(key) != [] && at.Queue(key)[0] == s.Queue(key)[n] && at.clock == Clock(r, s.clock, n) && at.held == s.held
  {
  }

  lemma HaltsMeans(r: Round, q: seq<Message>, clock: int, k: nat)
    requires k < |q|
    ensures Halts(r, q, clock, k)
      <==> r.turn(k).interrupted || r.turn(k).popFails || Works(q[k], Clock(r, clock, k), r.turn(k))
  {
  }

  lemma HeadIsQueued(cfg: Config, s: State, key: string)
    requires Inv(cfg, s) && s.Queue(key) != []
    ensures At(s, s.Queue(key)[0].id, Queued(key))
  {
    hide MessageOk, Key;
    assert QueueOk(cfg, s, key);
    HeadOfQueue(cfg, s, key);
  }

  method FindTenants(prefix: string, keys: seq<string>, source: string) returns (tenants: seq<string>)
    ensures tenants == TenantsOf(prefix, keys, source)
  {
    hide ExtractTenant;
    tenants := [];
    for i := 0 to |keys|
      invariant tenants == TenantsIn(prefix, keys[..i], source)
    {
      assert keys[..i + 1][..i] == keys[..i];
      var tenant := ExtractTenant(prefix, keys[i], source);
      if tenant != "" {
        tenants := tenants + [tenant];
      }
    }
    assert keys[..|keys|] == keys;
    if tenants == [] {
      tenants := [""];
    }
  }

  class Consumer {
    const c: Setup
    var state: State
    ghost var trace: seq<Step>
    ghost const start: State

    /** The state is one that the recorded steps lead to. */
    ghost predicate Running()
      reads this
    {
      c.Valid() && Inv(c.cfg, start) && Run(c.cfg, start, trace, state) && Inv(c.cfg, state)
    }

    /** Between messages the consumer's hand is empty. */
    ghost predicate Valid()
      reads this
    {
      Running() && c.worker !in state.held
    }

    constructor (c: Setup, state: State)
      requires c.Valid() && Inv(c.cfg, state) && c.worker !in state.held
      ensures Valid() && this.state == state && this.c == c
    {
      this.c, this.state := c, state;
      trace, start := [], state;
    }

    /** Take one step of the system. */
    method Take(step: Step)
      requires Running() && Enabled(state, step)
      modifies this
      ensures Running() && state == Apply(c.cfg, old(state), step) && trace == old(trace) + [step]
    {
      hide Apply, Enabled, Inv;
      RunStep(c.cfg, start, trace, state, step);
      state := Apply(c.cfg, state, step);
      trace := trace + [step];
      RunKeeps(c.cfg, start, trace, state);
    }

    /** `Dequeue` under a tenant's context: the head of the list, now in the worker's hand; a bad source or tenant is refused. */
    method Dequeue(ctx: string, source: string, fails: bool) returns (r: Result<Option<Message>, ()>)
      requires Valid()
      modifies this
      ensures Running()
      ensures r.Success? <==> SourceOk(source) && SegmentOk(ctx) && !fails
      ensures
        var q := old(state).Queue(Key(c.cfg.prefix, ctx, source));
        if r.Failure? || q == [] then state == old(state) && (r.Success? ==> r.value == None)
        else && r.value == Some(q[0]) && q[0].tenant == ctx && q[0].source == source
             && state == ApplyPop(c.cfg, old(state), c.worker, ctx, source)
             && state.held == old(state).held[c.worker := Hand(q[0], ctx)] && state.clock == old(state).clock
    {
      hide Inv, Run, Key, SegmentOk;
      if !SourceOk(source) || !SegmentOk(ctx) || fails {
        return Failure(());
      }
      PopKeeps(c.cfg, state, c.worker, ctx, source);
      var q := state.Queue(Key(c.cfg.prefix, ctx, source));
      Take(Pop(c.worker, ctx, source));
      r := Success(if q == [] then None else Some(q[0]));
    }

    /**
     `processMessage` on the message in hand: false when it was only moved to the back of its list because
     it is not ready, true when it was retried, discarded or lost.
     */
    method ProcessMessage(t: Turn) returns (worked: bool)
      requires Running() && c.worker in state.held
      modifies this
      ensures Valid() && state == Work(c.cfg, old(state), c.worker, t)
      ensures worked == Works(old(state).held[c.worker].msg, old(state).clock, t)
    {
      hide Inv, Run, Apply, Key, Work, Exponential, Deferred;
      WorkIsChosen(c.cfg, state, c.worker, t);
      WorkOutcome(c.cfg, state, c.worker, t);
      var m := state.held[c.worker].msg;
      ghost var chosen := Chosen(state, c.worker, t);
      PassTime(t.elapsed);
      if !Ready(m, state.clock) {
        Take(PutBack(c.worker, t.pushed));
        return !t.pushed;
      }
      if m.retryCount >= m.maxRetries {
        Take(Exhaust(c.worker));
        return true;
      }
      Take(Retry(c.worker, t.succeeds, state.clock + t.working, Draw(t.draw, m.retryCount + 1), t.pushed));
      worked := true;
    }

    method PassTime(elapsed: nat)
      requires Running()
      modifies this
      ensures Running() && state == old(state).(clock := old(state).clock + elapsed)
    {
      hide Inv, Run;
      Take(Tick(state.clock + elapsed));
    }

    /** One round of `drainSource`: rotate past messages that are not ready until one is, or the cap is reached. */
    method DrainOnce(ctx: string, source: string, r: Round) returns (worked: bool, faulted: bool, dequeues: nat)
      requires Valid()
      modifies this
      ensures Valid() && Drained(state, worked, faulted, dequeues) == Drain(c, ctx, source, r, old(state))
    {
      hide Inv, Run, Key, SegmentOk, Halts, FirstHalt, Work, ApplyPop, Rotation;
      ghost var s := state;
      if r.cancelled || r.lengthFails || !SourceOk(source) || !SegmentOk(ctx) {
        return false, true, 0;
      }
      var key := Key(c.cfg.prefix, ctx, source);
      ghost var q := state.Queue(key);
      var cap := Min(|state.Queue(key)|, c.batchSize);
      dequeues := 0;
      NoRotation(s, key, r);
      while dequeues < cap
        invariant Valid() && 0 <= dequeues <= cap <= |q| && state == Rotation(s, key, r, dequeues)
        invariant forall j | 0 <= j < dequeues :: !Halts(r, q, s.clock, j)
      {
        ghost var n, at := dequeues, state;
        RotationHead(s, key, r, n);
        HaltsMeans(r, q, s.clock, n);
        if r.turn(dequeues).interrupted {
          FirstHaltIs(r, q, s.clock, cap, n);
          return false, true, dequeues;
        }
        var clock := state.clock;
        var m := Dequeue(ctx, source, r.turn(dequeues).popFails);
        if m.Failure? {
          FirstHaltIs(r, q, s.clock, cap, n);
          return false, true, dequeues;
        }
        dequeues := dequeues + 1;
        worked := ProcessMessage(r.turn(dequeues - 1));
        if worked {
          FirstHaltIs(r, q, s.clock, cap, n);
          return true, Loses(m.value.value, clock, r.turn(dequeues - 1)), dequeues;
        }
        RotationNext(c, ctx, source, r, s, n);
      }
      FirstHaltIs(r, q, s.clock, cap, cap);
      worked, faulted := false, false;
    }

    /** `drainSource`. */
    method DrainSource(ctx: string, source: string, limit: nat, rounds: nat -> Round)
      returns (processed: nat, dequeues: nat)
      requires Valid()
      modifies this
      ensures Valid()
      ensures var d := DrainRounds(c, ctx, source, rounds, old(state), limit);
              state == d.state && processed == d.processed && dequeues == d.dequeues
    {
      hide Inv, Run, Drain;
      ghost var s := state;
      processed, dequeues := 0, 0;
      for i := 0 to limit
        invariant Valid() && Rounds(state, processed, dequeues, false) == DrainRounds(c, ctx, source, rounds, s, i)
      {
        var worked, faulted, popped := DrainOnce(ctx, source, rounds(i));
        dequeues := dequeues + popped;
        if worked {
          processed := processed + 1;
        } else if faulted || popped == 0 {
          RoundsEnd(c, ctx, source, rounds, s, i + 1, limit);
          return;
        }
      }
    }

    /**
     `processSource`: drains the tenants whose keys a SCAN returned strictly in turn, one message at a time, and
     stops only at `batchSize` drains, after a whole turn without work or when the context has ended.
     */
    method ProcessSource(source: string, scanned: Option<seq<string>>, world: nat -> Round) returns (drains: nat)
      requires Valid()
      modifies this
      ensures Valid()
      ensures scanned.None? ==> drains == 0 && state == old(state)
      ensures scanned.Some? ==>
                var p := Poll(c, source, TenantsOf(c.cfg.prefix, scanned.value, source), world, old(state));
                p.Makes(drains) && state == p.At(drains)
    {
      hide Inv, Run, Key, ExtractTenant, Drain, TenantsOf, Poll.IdleTurn, Poll.Busy, Poll.At, Poll.DrainAt;
      drains := 0;
      ghost var s := state;
      if scanned.None? {
        return;
      }
      var tenants := FindTenants(c.cfg.prefix, scanned.value, source);
      ghost var p, turns := Poll(c, source, tenants, world, s), 0;
      PollStarts(p);
      while drains < c.batchSize
        invariant Valid() && drains <= c.batchSize && state == p.At(drains)
        invariant forall k | 0 <= k < drains :: !world(k).expired && !p.IdleTurn(k)
        invariant drains < c.batchSize ==> drains == |tenants| * turns && !p.IdleTurn(drains)
        decreases c.batchSize - drains
      {
        var progressed := false;
        ghost var before := drains;
        BusyStarts(p, before);
        for i := 0 to |tenants|
          invariant Valid() && before <= drains <= c.batchSize && state == p.At(drains)
          invariant forall k | 0 <= k < drains :: !world(k).expired && !p.IdleTurn(k)
          invariant (drains == before + i || drains == c.batchSize) && (i > 0 ==> before < drains)
          invariant i < |tenants| && drains < c.batchSize ==> !p.IdleTurn(drains)
          invariant progressed <==> p.Busy(before, drains)
        {
          if drains >= c.batchSize {
            break;
          }
          var round := world(drains);
          if round.expired {
            return;
          }
          PollStep(p, turns, i);
          BusyGrows(p, before, drains);
          OneRound(c, tenants[i], source, (j: nat) => round, p.At(drains));
          var n, _ := DrainSource(tenants[i], source, 1, (j: nat) => round);
          progressed := progressed || n > 0;
          drains := drains + 1;
        }
        TurnEnds(p, turns);
        turns := turns + 1;
        if !progressed {
          return;
        }
      }
    }

    /** `PruneExhaustedMessages`: discards only spent messages, keeps every other one, and leaves no spent message behind
        when the limit covers the list. */
    method PruneExhaustedMessages(ctx: string, source: string, limit: int, passes: nat -> Pass) returns (pruned: nat, failed: bool)
      requires Valid()
      modifies this
      ensures Valid()
      ensures var r := PruneTo(c, ctx, source, passes, old(state), if limit > 0 then limit else 0);
              state == r.state && pruned == r.pruned && failed == r.failed
      ensures pruned <= if limit > 0 then limit else 0
      ensures !failed && limit > 0 ==>
                var q, q' := old(state).Queue(Key(c.cfg.prefix, ctx, source)), state.Queue(Key(c.cfg.prefix, ctx, source));
                && multiset(Survivors(q')) == multiset(Survivors(q)) && pruned == |q| - |q'|
                && (limit >= |q| ==> Survivors(q') == q')
    {
      hide Inv, Run, Pruning, SegmentOk, Key, Survivors, PruneHead;
      ghost var s := state;
      pruned, failed := 0, false;
      ghost var q := state.Queue(Key(c.cfg.prefix, ctx, source));
      if !SourceOk(source) {
        EndedStays(c, ctx, source, passes, s, 0, if limit > 0 then limit else 0);
        return 0, true;
      }
      PruneStart(q);
      var i := 0;
      while i < limit
        invariant Valid() && !failed && 0 <= i && (i > 0 ==> i <= limit)
        invariant PruneRun(state, pruned, false, false) == PruneTo(c, ctx, source, passes, s, i)
        invariant pruned <= i && Pruning(q, state.Queue(Key(c.cfg.prefix, ctx, source)), i, pruned)
      {
        ghost var now := state.Queue(Key(c.cfg.prefix, ctx, source));
        ghost var seen := pruned;
        var ended;
        pruned, ended, failed := PruneOnce(ctx, source, passes(i), pruned);
        i := i + 1;
        if ended {
          EndedStays(c, ctx, source, passes, s, i, limit);
          if !failed {
            PruneEmpty(q, i - 1, seen);
          }
          return;
        }
        PruneOne(q, now, i - 1, seen);
      }
      if limit > 0 {
        PruneEnd(q, state.Queue(Key(c.cfg.prefix, ctx, source)), limit, pruned);
      }
    }

    /** One pass of the pruning loop. */
    method PruneOnce(ctx: string, source: string, pass: Pass, pruned: nat) returns (now: nat, ended: bool, failed: bool)
      requires Valid() && SourceOk(source)
      modifies this
      ensures Valid()
      ensures PruneRun(state, now, ended, failed)
           == if pass.popFails || !SegmentOk(ctx) then PruneRun(old(state), pruned, true, true)
              else PruneHead(c, ctx, source, PruneRun(old(state), pruned, false, false), pass.pushed)
      ensures
        var q, q' := old(state).Queue(Key(c.cfg.prefix, ctx, source)), state.Queue(Key(c.cfg.prefix, ctx, source));
        && (failed ==> ended && now == pruned)
        && (ended && !failed ==> q == q' == [] && now == pruned)
        && (!ended ==> q != [] && q' == Examined(q) && now == if Spent(q[0]) then pruned + 1 else pruned)
    {
      hide Inv, Run, SegmentOk, Key, Requeue;
      now, ended, failed := pruned, true, true;
      var m := Dequeue(ctx, source, pass.popFails);
      if m.Failure? {
        return;
      }
      if m.value.None? {
        return now, true, false;
      }
      if Spent(m.value.value) {
        Take(Prune(c.worker));
        return pruned + 1, false, false;
      }
      PutBackOutcome(c.cfg, state, c.worker, pass.pushed);
      Take(PutBack(c.worker, pass.pushed));
      ended, failed := !pass.pushed, !pass.pushed;
    }
  }

  lemma PollStarts(p: Poll)
    requires p.Valid()
    ensures p.At(0) == p.start && !p.IdleTurn(0)
  {
  }

  /** The `i`-th drain of a turn serves the `i`-th tenant, and only its last can end an idle turn. */
  lemma PollStep(p: Poll, turns: nat, i: nat)
    requires p.Valid() && i < |p.tenants|
    ensures var k := |p.tenants| * turns + i;
            && p.DrainAt(k) == Drain(p.c, p.tenants[i], p.source, p.world(k), p.At(k))
            && p.At(k + 1) == p.DrainAt(k).state
            && (i + 1 < |p.tenants| ==> !p.IdleTurn(k + 1))
  {
    hide Drain;
    RemainderUnique(|p.tenants| * turns + i, |p.tenants|, turns, i);
    if i + 1 < |p.tenants| {
      RemainderUnique(|p.tenants| * turns + i + 1, |p.tenants|, turns, i + 1);
    }
  }

  lemma BusyStarts(p: Poll, from: nat)
    requires p.Valid()
    ensures !p.Busy(from, from)
  {
  }

  lemma BusyGrows(p: Poll, from: nat, to: nat)
    requires p.Valid() && from <= to
    ensures p.Busy(from, to + 1) <==> p.Busy(from, to) || p.DrainAt(to).worked
  {
    hide Drain;
  }

  lemma TurnEnds(p: Poll, turns: nat)
    requires p.Valid()
    ensures var before, n := |p.tenants| * turns, |p.tenants| * (turns + 1);
            n == before + |p.tenants| && (p.IdleTurn(n) <==> !p.Busy(before, n))
  {
    hide Poll.Busy;
    var n := |p.tenants| * (turns + 1);
    assert n == |p.tenants| * turns + |p.tenants| && |p.tenants| * turns >= 0;
    RemainderUnique(n, |p.tenants|, turns + 1, 0);
  }

  lemma {:induction false} RoundsEnd(c: Setup, ctx: string, source: string, rounds: nat -> Round, s: State, n: nat, m: nat)
    requires n <= m && DrainRounds(c, ctx, source, rounds, s, n).ended
    ensures DrainRounds(c, ctx, source, rounds, s, m) == DrainRounds(c, ctx, source, rounds, s, n)
    decreases m
  {
    hide Drain;
    if n < m {
      RoundsEnd(c, ctx, source, rounds, s, n, m - 1);
    }
  }

  /** With a limit of one, `drainSource` is one round. */
  lemma OneRound(c: Setup, ctx: string, source: string, rounds: nat -> Round, s: State)
    ensures var d, r := Drain(c, ctx, source, rounds(0), s), DrainRounds(c, ctx, source, rounds, s, 1);
            r.state == d.state && r.dequeues == d.dequeues && r.processed == if d.worked then 1 else 0
  {
    hide Drain;
    assert DrainRounds(c, ctx, source, rounds, s, 0) == Rounds(s, 0, 0, false);
  }
}
