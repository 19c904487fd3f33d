/**
 What one poll of the dead-letter queue does, as a function of everything it meets: cancellation, Redis
 failures, clock readings, the outcome of `RetryFunc` and the jitter drawn. Nobody else touches the lists
 while a poll runs.
 */
module DlqPoll {
  import opened Numbers
  import opened Text
  import opened Backoff
  import opened DlqKeys
  import opened DlqStore
  import opened DlqSafety

  datatype Setup = Setup(cfg: Config, batchSize: nat, worker: Worker) {
    predicate Valid() { cfg.Valid() && batchSize > 0 }
  }

  /** What a message meets: the context ended or Redis failed before its pop, the time that passed until the clock was
      read, the retry's outcome and duration, the random number drawn, and whether its push succeeded. */
  datatype Turn = Turn(interrupted: bool, popFails: bool, elapsed: nat, succeeds: bool, working: nat, draw: nat, pushed: bool) {
    predicate Calm() { !interrupted && !popFails && pushed }
  }

  /** What a round meets: its context ended before the round or at its start, the length query failed, and its turns. */
  datatype Round = Round(expired: bool, cancelled: bool, lengthFails: bool, turn: nat -> Turn) {
    ghost predicate Calm() { !cancelled && !lengthFails && forall k: nat :: turn(k).Calm() }
  }

  // ---------- one message ----------

  predicate Spent(m: Message) { m.retryCount >= m.maxRetries }

  /** `FullJitter` of the exponential delay, from a random number. */
  function Draw(x: nat, n: int): (j: int)
    ensures Jitter(Exponential(RETRY_BASE, n), j)
  {
    var delay := Exponential(RETRY_BASE, n);
    if delay <= 0 then 0 else x % delay
  }

  /** `processMessage` on the message in hand: back to its list, discarded, retried or lost. */
  function Work(cfg: Config, s: State, w: Worker, t: Turn): State
    requires w in s.held
  {
    var now, m := s.(clock := s.clock + t.elapsed), s.held[w].msg;
    if !Ready(m, now.clock) then Requeue(cfg, now, w, m, 0, t.pushed)
    else if Spent(m) then Settle(now, w, Exhausted)
    else ApplyRetry(cfg, now, w, t.succeeds, now.clock + t.working, Draw(t.draw, m.retryCount + 1), t.pushed)
  }

  /** The message was retried, discarded or lost, not merely moved to the back of its list. */
  predicate Works(m: Message, clock: int, t: Turn) { Ready(m, clock + t.elapsed) || !t.pushed }

  predicate Loses(m: Message, clock: int, t: Turn) {
    !t.pushed && (!Ready(m, clock + t.elapsed) || (!Spent(m) && !t.succeeds))
  }

  /** A failed retry goes to the back of its own list, counted, and not to be touched for the backoff. */
  ghost predicate Deferred(cfg: Config, s: State, u: State, m: Message, failedAt: int) {
    var key := Key(cfg.prefix, m.tenant, m.source);
    exists again: Message ::
      && u.Queue(key) == s.Queue(key) + [again]
      && again == m.(retryCount := m.retryCount + 1, nextRetryAt := again.nextRetryAt) && again.nextRetryAt.Some?
      && failedAt + MIN_RETRY <= again.nextRetryAt.value <= failedAt + DelayCap(m.retryCount + 1)
  }

  lemma RetryDefers(cfg: Config, s: State, w: Worker, now: int, jitter: int)
    requires Inv(cfg, s) && w in s.held && Jitter(Exponential(RETRY_BASE, s.held[w].msg.retryCount + 1), jitter)
    ensures var u := ApplyRetry(cfg, s, w, false, now, jitter, true);
            && u.held == s.held - {w} && Deferred(cfg, s, u, s.held[w].msg, now)
            && At(u, s.held[w].msg.id, Queued(Key(cfg.prefix, s.held[w].msg.tenant, s.held[w].msg.source)))
  {
    hide Inv, Key, Admit, Exponential, RetryCap;
    var m := s.held[w].msg;
    HeldMessageOk(cfg, s, w);
    MessageReadmissible(s, m);
    BackoffRange(m.retryCount + 1, jitter);
    var again := m.(retryCount := m.retryCount + 1, nextRetryAt := Some(now + BackoffDuration(jitter)));
    ReadmitsAsIs(cfg, now, m.tenant, again, jitter);
  }

  lemma RetrySettles(cfg: Config, s: State, w: Worker, succeeds: bool, now: int, jitter: int)
    requires w in s.held
    ensures var u := ApplyRetry(cfg, s, w, succeeds, now, jitter, false);
            u.held == s.held - {w} && At(u, s.held[w].msg.id, Settled(if succeeds then Retried else Lost))
    ensures succeeds ==> ApplyRetry(cfg, s, w, true, now, jitter, true) == ApplyRetry(cfg, s, w, true, now, jitter, false)
  {
    hide Admit;
  }

  lemma PutBackOutcome(cfg: Config, s: State, w: Worker, pushed: bool)
    requires Inv(cfg, s) && w in s.held
    ensures var m := s.held[w].msg;
            Requeue(cfg, s, w, m, 0, pushed) == if pushed then Push(s.(held := s.held - {w}), Key(cfg.prefix, m.tenant, m.source), m)
                                                else Settle(s, w, Lost)
  {
    hide Inv, Key, Admit;
    if pushed {
      PutBackKeeps(cfg, s, w, pushed);
    }
  }

  /** Where the message of one turn ends up: every case, and lost exactly when a push it needed failed. */
  lemma WorkOutcome(cfg: Config, s: State, w: Worker, t: Turn)
    requires Inv(cfg, s) && w in s.held
    ensures
      var m, u, now := s.held[w].msg, Work(cfg, s, w, t), s.clock + t.elapsed;
      var key := Key(cfg.prefix, m.tenant, m.source);
      && u.held == s.held - {w}
      && (Loses(m, s.clock, t) ==> At(u, m.id, Settled(Lost)))
      && (Ready(m, now) && Spent(m) ==> At(u, m.id, Settled(Exhausted)))
      && (Ready(m, now) && !Spent(m) && t.succeeds ==> At(u, m.id, Settled(Retried)))
      && (!Ready(m, now) && t.pushed ==> u == Push(s.(clock := now, held := s.held - {w}), key, m))
      && (Ready(m, now) && !Spent(m) && !t.succeeds && t.pushed ==>
            At(u, m.id, Queued(key)) && Deferred(cfg, s, u, m, now + t.working))
  {
    hide Inv, Key, Deferred, Requeue, ApplyRetry;
    var m := s.held[w].msg;
    var now := s.(clock := s.clock + t.elapsed);
    ClockKeeps(cfg, s, now.clock);
    PutBackOutcome(cfg, now, w, t.pushed);
    RetrySettles(cfg, now, w, t.succeeds, now.clock + t.working, Draw(t.draw, m.retryCount + 1));
    if Ready(m, now.clock) && !Spent(m) && !t.succeeds && t.pushed {
      RetryDefers(cfg, now, w, now.clock + t.working, Draw(t.draw, m.retryCount + 1));
      DeferredFrom(cfg, s, now, Work(cfg, s, w, t), m, now.clock + t.working);
    }
  }

  /** A message goes back untouched exactly when its time is still ahead when the clock is read, and the push succeeds. */
  lemma PutBackExactly(cfg: Config, s: State, w: Worker, t: Turn)
    requires Inv(cfg, s) && w in s.held
    ensures
      var m, u := s.held[w].msg, Work(cfg, s, w, t);
      var key := Key(cfg.prefix, m.tenant, m.source);
      u.Queue(key) == s.Queue(key) + [m] <==> t.pushed && m.nextRetryAt.Some? && m.nextRetryAt.value > s.clock + t.elapsed
  {
    hide Inv, Key, Requeue, ApplyRetry;
    WorkOutcome(cfg, s, w, t);
    var m, u := s.held[w].msg, Work(cfg, s, w, t);
    var key := Key(cfg.prefix, m.tenant, m.source);
    if Ready(m, s.clock + t.elapsed) || !t.pushed {
      WorkWithoutPutBack(cfg, s, w, t);
    }
  }

  /** Any other outcome leaves the list alone or appends the counted message. */
  lemma WorkWithoutPutBack(cfg: Config, s: State, w: Worker, t: Turn)
    requires Inv(cfg, s) && w in s.held && (Ready(s.held[w].msg, s.clock + t.elapsed) || !t.pushed)
    ensures
      var m := s.held[w].msg;
      var key := Key(cfg.prefix, m.tenant, m.source);
      Work(cfg, s, w, t).Queue(key) != s.Queue(key) + [m]
  {
    hide Inv, Key, Admit;
    var m, u := s.held[w].msg, Work(cfg, s, w, t);
    var key := Key(cfg.prefix, m.tenant, m.source);
    WorkOutcome(cfg, s, w, t);
    if Ready(m, s.clock + t.elapsed) && !Spent(m) && !t.succeeds && t.pushed {
      var again: Message :| u.Queue(key) == s.Queue(key) + [again] && again.retryCount == m.retryCount + 1;
      assert (s.Queue(key) + [again])[|s.Queue(key)|] == again && (s.Queue(key) + [m])[|s.Queue(key)|] == m;
    } else {
      assert u.Queue(key) == s.Queue(key);
    }
  }

  lemma DeferredFrom(cfg: Config, s: State, now: State, u: State, m: Message, failedAt: int)
    requires Deferred(cfg, now, u, m, failedAt) && now.queues == s.queues
    ensures Deferred(cfg, s, u, m, failedAt)
  {
    hide Key;
  }

  // ---------- one round over a list ----------

  /** The list after its first `r` messages have moved to the back. */
  function Rotated(q: seq<Message>, r: nat): seq<Message>
    requires r <= |q|
  {
    q[r..] + q[..r]
  }

  /** The clock after `k` readings. */
  function Clock(r: Round, clock: int, k: nat): (c: int)
    ensures clock <= c
  {
    if k == 0 then clock else Clock(r, clock, k - 1) + r.turn(k - 1).elapsed
  }

  /** The round does not go on past the `k`-th message. */
  predicate Halts(r: Round, q: seq<Message>, clock: int, k: nat)
    requires k < |q|
  {
    r.turn(k).interrupted || r.turn(k).popFails || Works(q[k], Clock(r, clock, k), r.turn(k))
  }

  function FirstHalt(r: Round, q: seq<Message>, clock: int, cap: nat, from: nat := 0): (h: nat)
    requires from <= cap <= |q|
    ensures from <= h <= cap && (h < cap ==> Halts(r, q, clock, h))
    ensures forall j | from <= j < h :: !Halts(r, q, clock, j)
    decreases cap - from
  {
    if from == cap || Halts(r, q, clock, from) then from else FirstHalt(r, q, clock, cap, from + 1)
  }

  /** Nothing but the first `n` messages moved to the back of their list, and the clock. */
  function Rotation(s: State, key: string, r: Round, n: nat): State
    requires n <= |s.Queue(key)|
  {
    if n == 0 then s
    else s.(queues := s.queues[key := Rotated(s.Queue(key), n)], clock := Clock(r, s.clock, n))
  }

  datatype Drained = Drained(state: State, worked: bool, faulted: bool, dequeues: nat)

  /** One round of `drainSource`: past messages that are not ready until one is, or the cap is reached. */
  function Drain(c: Setup, ctx: string, source: string, r: Round, s: State): Drained {
    if r.cancelled || r.lengthFails || !SourceOk(source) || !SegmentOk(ctx) then Drained(s, false, true, 0)
    else
      var key := Key(c.cfg.prefix, ctx, source);
      var q := s.Queue(key);
      var cap := Min(|q|, c.batchSize);
      var h := FirstHalt(r, q, s.clock, cap);
      var at := Rotation(s, key, r, h);
      if h == cap then Drained(at, false, false, cap)
      else if r.turn(h).interrupted || r.turn(h).popFails then Drained(at, false, true, h)
      else Drained(Work(c.cfg, ApplyPop(c.cfg, at, c.worker, ctx, source), c.worker, r.turn(h)), true,
                   Loses(q[h], at.clock, r.turn(h)), h + 1)
  }

  /** A message ready at the start and preceded by fewer than the cap is not passed by; without work the list only turns. */
  lemma DrainReachesReady(c: Setup, ctx: string, source: string, r: Round, s: State)
    ensures
      var key := Key(c.cfg.prefix, ctx, source);
      var q, d, cap := s.Queue(key), Drain(c, ctx, source, r, s), Min(|s.Queue(key)|, c.batchSize);
      && d.dequeues <= cap
      && (!d.worked ==> exists n | 0 <= n <= cap :: d.state == Rotation(s, key, r, n))
      && (!d.worked && !d.faulted ==> d.state == Rotation(s, key, r, cap) && d.dequeues == cap)
      && (!d.faulted && (exists j | 0 <= j < cap :: Ready(q[j], s.clock)) ==> d.worked)
  {
    hide Work, ApplyPop, Key, SegmentOk;
    var key := Key(c.cfg.prefix, ctx, source);
    var q, cap := s.Queue(key), Min(|s.Queue(key)|, c.batchSize);
    var h := FirstHalt(r, q, s.clock, cap);
    assert s == Rotation(s, key, r, 0);
    forall j | 0 <= j < cap && Ready(q[j], s.clock) ensures h <= j {
      assert Halts(r, q, s.clock, j);
    }
  }

  /** Without faults a round works exactly when a message within the cap is ready when the clock is read for it. */
  lemma CalmDrain(c: Setup, ctx: string, source: string, r: Round, s: State)
    requires r.Calm() && SourceOk(source) && SegmentOk(ctx)
    ensures
      var q := s.Queue(Key(c.cfg.prefix, ctx, source));
      var d, cap := Drain(c, ctx, source, r, s), Min(|q|, c.batchSize);
      !d.faulted && (d.worked <==> exists j | 0 <= j < cap :: Ready(q[j], Clock(r, s.clock, j + 1)))
  {
    hide Work, ApplyPop, Key, SegmentOk;
    var q := s.Queue(Key(c.cfg.prefix, ctx, source));
    var cap := Min(|q|, c.batchSize);
    var h := FirstHalt(r, q, s.clock, cap);
    forall j | 0 <= j < cap ensures Halts(r, q, s.clock, j) <==> Ready(q[j], Clock(r, s.clock, j + 1)) {
      assert r.turn(j).Calm();
    }
    if h < cap {
      assert r.turn(h).Calm();
    }
  }

  // ---------- drainSource ----------

  datatype Rounds = Rounds(state: State, processed: nat, dequeues: nat, ended: bool)

  /** `n` rounds of one call; it ends early at a failure or an empty list. */
  function DrainRounds(c: Setup, ctx: string, source: string, rounds: nat -> Round, s: State, n: nat): Rounds {
    if n == 0 then Rounds(s, 0, 0, false)
    else
      var before := DrainRounds(c, ctx, source, rounds, s, n - 1);
      if before.ended then before
      else
        var d := Drain(c, ctx, source, rounds(n - 1), before.state);
        Rounds(d.state, before.processed + (if d.worked then 1 else 0), before.dequeues + d.dequeues,
               !d.worked && (d.faulted || d.dequeues == 0))
  }

  lemma {:induction false} RoundsBounded(c: Setup, ctx: string, source: string, rounds: nat -> Round, s: State, n: nat)
    ensures var d := DrainRounds(c, ctx, source, rounds, s, n); d.processed <= n && d.dequeues <= n * c.batchSize
  {
    hide Drain;
    if n > 0 {
      RoundsBounded(c, ctx, source, rounds, s, n - 1);
      DrainReachesReady(c, ctx, source, rounds(n - 1), DrainRounds(c, ctx, source, rounds, s, n - 1).state);
      assert n * c.batchSize == (n - 1) * c.batchSize + c.batchSize;
    }
  }

  // ---------- processSource ----------

  /** The tenants named by the keys, in order; the list without a tenant when there are none. */
  function TenantsIn(prefix: string, keys: seq<string>, source: string): seq<string> {
    if keys == [] then []
    else
      var front, tenant := TenantsIn(prefix, keys[..|keys| - 1], source), ExtractTenant(prefix, keys[|keys| - 1], source);
      if tenant == "" then front else front + [tenant]
  }

  function TenantsOf(prefix: string, keys: seq<string>, source: string): (tenants: seq<string>)
    ensures tenants != []
  {
    if TenantsIn(prefix, keys, source) == [] then [""] else TenantsIn(prefix, keys, source)
  }

  /** What a poll of one source is given. */
  datatype Poll = Poll(c: Setup, source: string, tenants: seq<string>, world: nat -> Round, start: State) {
    predicate Valid() { tenants != [] }

    /** Whose turn the `k`-th drain is. */
    function Tenant(k: nat): string
      requires Valid()
    {
      tenants[k % |tenants|]
    }

    /** The state before the `k`-th drain. */
    function At(k: nat): State
      requires Valid()
      decreases k, 0
    {
      if k == 0 then start else DrainAt(k - 1).state
    }

    function DrainAt(k: nat): Drained
      requires Valid()
      decreases k, 1
    {
      Drain(c, Tenant(k), source, world(k), At(k))
    }

    /** Some drain did work. */
    predicate Busy(from: nat, to: nat)
      requires Valid()
    {
      exists k: nat | from <= k < to :: DrainAt(k).worked
    }

    /** A whole turn has just ended in which no tenant's list was worked on. */
    predicate IdleTurn(n: nat)
      requires Valid()
    {
      n >= |tenants| && n % |tenants| == 0 && !Busy(n - |tenants|, n)
    }

    /** The poll makes `n` drains: it stops at the batch size, after an idle turn or at a dead context, and not before. */
    predicate Makes(n: nat)
      requires Valid()
    {
      && n <= c.batchSize
      && (n < c.batchSize ==> world(n).expired || IdleTurn(n))
      && forall k | 0 <= k < n :: !world(k).expired && !IdleTurn(k)
    }
  }

  /** A calm poll that stops early leaves no tenant with a message that was ready, within the cap, at its last drain. */
  lemma EarlyStopMeansNothingReady(p: Poll, n: nat, i: nat)
    requires p.Valid() && p.Makes(n) && n < p.c.batchSize && !p.world(n).expired && i < |p.tenants|
    requires SourceOk(p.source) && SegmentOk(p.tenants[i])
    requires forall k: nat :: p.world(k).Calm()
    ensures n >= |p.tenants|
    ensures
      var k := n - |p.tenants| + i;
      var key := Key(p.c.cfg.prefix, p.tenants[i], p.source);
      var q, cap := p.At(k).Queue(key), Min(|p.At(k).Queue(key)|, p.c.batchSize);
      && p.Tenant(k) == p.tenants[i]
      && (forall j | 0 <= j < cap :: !Ready(q[j], Clock(p.world(k), p.At(k).clock, j + 1)))
      && p.At(k + 1) == Rotation(p.At(k), key, p.world(k), cap)
  {
    hide Drain, Key, SegmentOk;
    var size, k := |p.tenants|, n - |p.tenants| + i;
    TurnOf(n, size, i);
    var key := Key(p.c.cfg.prefix, p.tenants[i], p.source);
    CalmDrain(p.c, p.tenants[i], p.source, p.world(k), p.At(k));
    DrainReachesReady(p.c, p.tenants[i], p.source, p.world(k), p.At(k));
    assert !p.DrainAt(k).worked;
  }

  lemma TurnOf(n: nat, size: nat, i: nat)
    requires size > 0 && n >= size && n % size == 0 && i < size
    ensures (n - size + i) % size == i
  {
    var q := n / size;
    assert n == size * q;
    assert n - size + i == size * (q - 1) + i;
    RemainderUnique(n - size + i, size, q - 1, i);
  }
}
