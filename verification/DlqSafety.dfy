/**
 What every run of the dead-letter queue keeps: each message in exactly one place, under its own tenant's
 and source's key, retried within its budget and never sooner than its backoff allows.
 */
module DlqSafety {
  import opened Text
  import opened Backoff
  import opened DlqKeys
  import opened DlqStore

  // ---------- lifting a message out and putting it down ----------

  /** No list, hand or record names `id`. */
  predicate Absent(s: State, id: Id) {
    && (forall key | key in s.queues :: forall m | m in s.queues[key] :: m.id != id)
    && (forall w | w in s.held :: s.held[w].msg.id != id)
    && (forall i | 0 <= i < |s.outcomes| :: s.outcomes[i].0 != id)
  }

  /** The invariant while `id` is in transit. */
  ghost predicate InvBut(cfg: Config, s: State, id: Id) {
    && (forall key :: QueueOk(cfg, s, key))
    && (forall w | w in s.held :: HandOk(s, w))
    && OutcomesOk(s) && Absent(s, id)
    && s.initial.Keys == s.where.Keys && WithinBudget(s, id)
    && (forall other | other in s.initial && other != id :: WithinBudget(s, other) && Found(s, other))
  }

  lemma LiftFromHand(cfg: Config, s: State, w: Worker)
    requires Inv(cfg, s) && w in s.held
    ensures InvBut(cfg, s.(held := s.held - {w}), s.held[w].msg.id)
  {
    hide MessageOk, WithinBudget, QueueOk;
    var id, t := s.held[w].msg.id, s.(held := s.held - {w});
    assert HandOk(s, w);
    forall key
      ensures QueueOk(cfg, t, key) && forall m | m in s.Queue(key) :: m.id != id
    {
      QueueUntouched(cfg, s, t, key);
    }
    MessagesStay(s, t);
    forall v | v in t.held
      ensures HandOk(t, v) && t.held[v].msg.id != id
    {
      assert HandOk(s, v);
    }
    forall other | other in s.initial && other != id
      ensures Found(t, other)
    {
      assert Found(s, other);
    }
    assert forall key | key in t.queues :: t.queues[key] == s.Queue(key);
    BudgetStays(s, t);
  }

  lemma QueueUntouched(cfg: Config, s: State, t: State, key: string)
    requires QueueOk(cfg, s, key) && t.queues == s.queues && t.where == s.where
    requires s.initial == t.initial && s.calls == t.calls && s.lastCall == t.lastCall
    ensures QueueOk(cfg, t, key) && forall m | m in s.Queue(key) :: At(s, m.id, Queued(key))
  {
    hide MessageOk, Key;
    MessagesStay(s, t);
  }

  lemma MessagesStay(s: State, t: State)
    requires s.initial == t.initial && s.calls == t.calls && s.lastCall == t.lastCall
    ensures forall m :: MessageOk(s, m) <==> MessageOk(t, m)
  {
  }

  lemma BudgetStays(s: State, t: State)
    requires s.initial == t.initial && s.calls == t.calls && s.where.Keys == t.where.Keys
    ensures forall id :: WithinBudget(s, id) <==> WithinBudget(t, id)
  {
  }

  lemma HeadOfQueue(cfg: Config, s: State, key: string)
    requires QueueOk(cfg, s, key) && s.Queue(key) != []
    ensures var m := s.Queue(key)[0];
            MessageOk(s, m) && key == Key(cfg.prefix, m.tenant, m.source) && At(s, m.id, Queued(key))
  {
    hide MessageOk, Key;
    assert s.Queue(key)[0] in s.Queue(key);
  }

  lemma HandsStay(s: State, t: State)
    requires s.held == t.held && s.where == t.where
    requires s.initial == t.initial && s.calls == t.calls && s.lastCall == t.lastCall
    requires forall w | w in s.held :: HandOk(s, w)
    ensures forall w | w in t.held :: HandOk(t, w)
  {
    MessagesStay(s, t);
    forall w | w in t.held
      ensures HandOk(t, w)
    {
      assert HandOk(s, w);
    }
  }

  /** `LPop` of a non-empty list; the list's key names the message's own tenant and source. */
  lemma LiftFromQueue(cfg: Config, s: State, key: string)
    requires Inv(cfg, s) && s.Queue(key) != []
    ensures var m := s.Queue(key)[0];
            && MessageOk(s, m) && key == Key(cfg.prefix, m.tenant, m.source)
            && InvBut(cfg, s.(queues := s.queues[key := s.Queue(key)[1..]]), m.id)
  {
    hide MessageOk, WithinBudget, Key, QueueOk, Found;
    var queue := s.Queue(key);
    var m, t := queue[0], s.(queues := s.queues[key := queue[1..]]);
    HeadOfQueue(cfg, s, key);
    HandsStay(s, t);
    BudgetStays(s, t);
    forall k
      ensures QueueOk(cfg, t, k) && forall x | x in t.Queue(k) :: x.id != m.id
    {
      TailStaysOk(cfg, s, key, k);
    }
    assert forall k | k in t.queues :: t.queues[k] == t.Queue(k);
    forall other | other in s.initial && other != m.id
      ensures Found(t, other)
    {
      TailStillHolds(s, key, other);
    }
  }

  lemma TailStaysOk(cfg: Config, s: State, key: string, k: string)
    requires QueueOk(cfg, s, key) && QueueOk(cfg, s, k) && s.Queue(key) != []
    ensures var t := s.(queues := s.queues[key := s.Queue(key)[1..]]);
            QueueOk(cfg, t, k) && forall x | x in t.Queue(k) :: x.id != s.Queue(key)[0].id
  {
    hide MessageOk, Key;
    var queue, t := s.Queue(key), s.(queues := s.queues[key := s.Queue(key)[1..]]);
    MessagesStay(s, t);
    assert queue[0] in queue;
    assert forall x | x in t.Queue(k) :: x in s.Queue(k);
    if k == key {
      assert forall i | 0 <= i < |queue| - 1 :: queue[1..][i] == queue[i + 1];
    }
  }

  lemma TailStillHolds(s: State, key: string, id: Id)
    requires id in s.where && Found(s, id) && s.Queue(key) != [] && s.Queue(key)[0].id != id
    ensures Found(s.(queues := s.queues[key := s.Queue(key)[1..]]), id)
  {
    var queue := s.Queue(key);
    if s.where[id] == Queued(key) {
      var x :| x in queue && x.id == id;
      assert x in queue[1..];
    }
  }

  lemma PutInQueue(cfg: Config, s: State, key: string, m: Message)
    requires InvBut(cfg, s, m.id) && MessageOk(s, m) && key == Key(cfg.prefix, m.tenant, m.source)
    ensures Inv(cfg, Push(s, key, m))
  {
    hide MessageOk, WithinBudget, Key, QueueOk, Found;
    var t := Push(s, key, m);
    BudgetPlaces(s, m.id);
    MessagesStay(s, t);
    BudgetStays(s, t);
    forall k
      ensures QueueOk(cfg, t, k)
    {
      AbsentFromQueue(s, m.id, k);
      PushedStaysOk(cfg, s, key, m, k);
    }
    forall w | w in t.held
      ensures HandOk(t, w)
    {
      assert HandOk(s, w);
    }
    forall other | other in t.initial
      ensures Found(t, other)
    {
      FoundAfterPush(s, key, m, other);
    }
  }

  lemma FoundAfterPush(s: State, key: string, m: Message, other: Id)
    requires other in s.where && (other == m.id || Found(s, other))
    ensures Found(Push(s, key, m), other)
  {
    var t := Push(s, key, m);
    assert m in t.Queue(key);
    assert forall x | x in s.Queue(key) :: x in t.Queue(key);
  }

  lemma PushedStaysOk(cfg: Config, s: State, key: string, m: Message, k: string)
    requires QueueOk(cfg, s, k) && (forall x | x in s.Queue(k) :: x.id != m.id)
    requires MessageOk(s, m) && key == Key(cfg.prefix, m.tenant, m.source)
    ensures QueueOk(cfg, Push(s, key, m), k)
  {
    hide MessageOk, Key;
    var t := Push(s, key, m);
    MessagesStay(s, t);
    assert forall x | x in t.Queue(k) :: x in s.Queue(k) || (k == key && x == m);
  }

  lemma AbsentFromQueue(s: State, id: Id, key: string)
    requires Absent(s, id)
    ensures forall m | m in s.Queue(key) :: m.id != id
  {
  }

  lemma BudgetPlaces(s: State, id: Id)
    requires WithinBudget(s, id)
    ensures id in s.where && id in s.initial
  {
  }

  /** The lists are as they were, and only `id`, on none of them, has moved. */
  lemma QueuesStay(cfg: Config, s: State, t: State, id: Id, place: Place)
    requires InvBut(cfg, s, id) && t.queues == s.queues && t.where == s.where[id := place]
    requires s.initial == t.initial && s.calls == t.calls && s.lastCall == t.lastCall
    ensures forall key :: QueueOk(cfg, t, key)
  {
    hide MessageOk, WithinBudget, Key, Found, HandOk, OutcomesOk;
    MessagesStay(s, t);
    forall key
      ensures QueueOk(cfg, t, key)
    {
      assert QueueOk(cfg, s, key);
      AbsentFromQueue(s, id, key);
    }
  }

  lemma PutInHand(cfg: Config, s: State, w: Worker, hand: Hand)
    requires InvBut(cfg, s, hand.msg.id) && MessageOk(s, hand.msg) && hand.msg.tenant == hand.ctx && w !in s.held
    ensures Inv(cfg, s.(held := s.held[w := hand], where := s.where[hand.msg.id := Held(w)]))
  {
    hide MessageOk, WithinBudget, QueueOk;
    var id := hand.msg.id;
    var t := s.(held := s.held[w := hand], where := s.where[id := Held(w)]);
    BudgetPlaces(s, id);
    MessagesStay(s, t);
    BudgetStays(s, t);
    QueuesStay(cfg, s, t, id, Held(w));
    forall v | v in t.held
      ensures HandOk(t, v)
    {
      if v != w {
        assert HandOk(s, v);
      }
    }
    forall other | other in t.initial
      ensures Found(t, other)
    {
      if other != id {
        assert Found(s, other);
      }
    }
  }

  lemma PutInRecord(cfg: Config, s: State, id: Id, outcome: Outcome)
    requires InvBut(cfg, s, id)
    ensures Inv(cfg, s.(outcomes := s.outcomes + [(id, outcome)], where := s.where[id := Settled(outcome)]))
  {
    hide MessageOk, WithinBudget, QueueOk, Found;
    var t := s.(outcomes := s.outcomes + [(id, outcome)], where := s.where[id := Settled(outcome)]);
    BudgetPlaces(s, id);
    MessagesStay(s, t);
    BudgetStays(s, t);
    QueuesStay(cfg, s, t, id, Settled(outcome));
    forall v | v in t.held
      ensures HandOk(t, v)
    {
      assert HandOk(s, v);
    }
    forall other | other in t.initial
      ensures Found(t, other)
    {
      FoundAfterRecord(s, id, outcome, other);
    }
  }

  lemma FoundAfterRecord(s: State, id: Id, outcome: Outcome, other: Id)
    requires other in s.where && (other == id || Found(s, other))
    ensures Found(s.(outcomes := s.outcomes + [(id, outcome)], where := s.where[id := Settled(outcome)]), other)
  {
    assert (s.outcomes + [(id, outcome)])[|s.outcomes|] == (id, outcome);
  }

  function Called(s: State, id: Id, now: int): State
    requires id in s.calls
  {
    s.(clock := now, lastCall := s.lastCall[id := now], calls := s.calls[id := s.calls[id] + 1])
  }

  lemma OthersUncalled(s: State, id: Id, now: int)
    requires id in s.calls
    ensures forall m: Message | m.id != id :: MessageOk(s, m) <==> MessageOk(Called(s, id, now), m)
    ensures forall other | other != id :: WithinBudget(s, other) <==> WithinBudget(Called(s, id, now), other)
  {
  }

  lemma CalledWithinBudget(s: State, id: Id, now: int)
    requires WithinBudget(s, id) && s.initial[id].retryCount + s.calls[id] < s.initial[id].maxRetries
    ensures WithinBudget(Called(s, id, now), id)
  {
  }

  /** A call is counted, and its time noted, while the message is in transit. */
  lemma CountCall(cfg: Config, s: State, id: Id, now: int)
    requires InvBut(cfg, s, id) && id in s.calls && s.initial[id].retryCount + s.calls[id] < s.initial[id].maxRetries
    ensures InvBut(cfg, Called(s, id, now), id)
  {
    hide Key, MessageOk, WithinBudget;
    var t := Called(s, id, now);
    OthersUncalled(s, id, now);
    CalledWithinBudget(s, id, now);
    forall k
      ensures QueueOk(cfg, t, k)
    {
      assert QueueOk(cfg, s, k);
      AbsentFromQueue(s, id, k);
    }
    forall v | v in t.held
      ensures HandOk(t, v)
    {
      assert HandOk(s, v);
    }
    forall other | other in t.initial && other != id
      ensures Found(t, other)
    {
      assert Found(s, other);
    }
  }

  // ---------- every step, every run ----------

  /** A message under its own tenant is never refused, and stamping leaves it as it is. */
  lemma ReadmitsAsIs(cfg: Config, now: int, ctx: string, m: Message, jitter: int)
    requires SourceOk(m.source) && SegmentOk(m.tenant) && m.tenant == ctx && m.createdAt.Some? && m.maxRetries > 0
    ensures Admit(cfg, now, ctx, m, jitter) == Some((Key(cfg.prefix, m.tenant, m.source), m))
  {
    hide Key, SegmentOk;
  }

  lemma MessageReadmissible(s: State, m: Message)
    requires MessageOk(s, m)
    ensures SourceOk(m.source) && SegmentOk(m.tenant) && m.createdAt.Some? && m.maxRetries > 0
  {
  }

  lemma RequeueKeeps(cfg: Config, s: State, w: Worker, m: Message, jitter: int, pushed: bool)
    requires w in s.held && m.id == s.held[w].msg.id && m.tenant == s.held[w].ctx
    requires InvBut(cfg, s.(held := s.held - {w}), m.id) && MessageOk(s, m)
    ensures Inv(cfg, Requeue(cfg, s, w, m, jitter, pushed))
    ensures pushed ==> Requeue(cfg, s, w, m, jitter, pushed) == Push(s.(held := s.held - {w}), Key(cfg.prefix, m.tenant, m.source), m)
  {
    hide InvBut, Inv, MessageOk, Key, SegmentOk, Admit;
    var lifted := s.(held := s.held - {w});
    MessageReadmissible(s, m);
    ReadmitsAsIs(cfg, s.clock, m.tenant, m, jitter);
    MessagesStay(s, lifted);
    if pushed {
      PutInQueue(cfg, lifted, Key(cfg.prefix, m.tenant, m.source), m);
    } else {
      PutInRecord(cfg, lifted, m.id, Lost);
    }
  }

  lemma SettleKeeps(cfg: Config, s: State, w: Worker, outcome: Outcome)
    requires Inv(cfg, s) && w in s.held
    ensures Inv(cfg, Settle(s, w, outcome))
  {
    hide Inv, InvBut;
    LiftFromHand(cfg, s, w);
    PutInRecord(cfg, s.(held := s.held - {w}), s.held[w].msg.id, outcome);
  }

  /** A failed retry leaves a message whose count and next time agree with the call just made. */
  lemma RetriedMessageOk(cfg: Config, s: State, step: Step)
    requires Inv(cfg, s) && step.Retry? && Enabled(s, step)
    ensures var m := s.held[step.w].msg;
            var again := m.(retryCount := m.retryCount + 1, nextRetryAt := Some(step.now + BackoffDuration(step.jitter)));
            && m.id in s.calls && m.id in s.initial && m.tenant == s.held[step.w].ctx
            && s.initial[m.id].retryCount + s.calls[m.id] < s.initial[m.id].maxRetries
            && MessageOk(Called(s, m.id, step.now), again)
  {
    hide SourceOk, SegmentOk, RetryCap;
    assert HandOk(s, step.w);
    BackoffRange(s.held[step.w].msg.retryCount + 1, step.jitter);
  }

  lemma RetryKeeps(cfg: Config, s: State, step: Step)
    requires Inv(cfg, s) && step.Retry? && Enabled(s, step)
    ensures Inv(cfg, Apply(cfg, s, step))
  {
    hide Inv, InvBut, MessageOk, Key, Admit, RetryCap, Exponential;
    var w, now := step.w, step.now;
    var m := s.held[w].msg;
    RetriedMessageOk(cfg, s, step);
    var called := Called(s, m.id, now);
    LiftFromHand(cfg, s, w);
    CountCall(cfg, s.(held := s.held - {w}), m.id, now);
    assert called.(held := s.held - {w}) == Called(s.(held := s.held - {w}), m.id, now);
    if step.succeeds {
      PutInRecord(cfg, called.(held := s.held - {w}), m.id, Retried);
    } else {
      var again := m.(retryCount := m.retryCount + 1, nextRetryAt := Some(now + BackoffDuration(step.jitter)));
      RequeueKeeps(cfg, called, w, again, step.jitter, step.pushed);
    }
  }

  lemma HeldMessageOk(cfg: Config, s: State, w: Worker)
    requires Inv(cfg, s) && w in s.held
    ensures MessageOk(s, s.held[w].msg) && s.held[w].msg.tenant == s.held[w].ctx
  {
    hide MessageOk;
    assert HandOk(s, w);
  }

  lemma PutBackKeeps(cfg: Config, s: State, w: Worker, pushed: bool)
    requires Inv(cfg, s) && w in s.held
    ensures Inv(cfg, Apply(cfg, s, PutBack(w, pushed)))
    ensures pushed ==> var m := s.held[w].msg;
            Apply(cfg, s, PutBack(w, pushed)) == Push(s.(held := s.held - {w}), Key(cfg.prefix, m.tenant, m.source), m)
  {
    hide Inv, InvBut, MessageOk, Key;
    HeldMessageOk(cfg, s, w);
    LiftFromHand(cfg, s, w);
    RequeueKeeps(cfg, s, w, s.held[w].msg, 0, pushed);
  }

  /** A popped message is the head of its list, unchanged. */
  lemma PopKeeps(cfg: Config, s: State, w: Worker, ctx: string, source: string)
    requires Inv(cfg, s) && Enabled(s, Pop(w, ctx, source))
    ensures Inv(cfg, Apply(cfg, s, Pop(w, ctx, source)))
    ensures var queue := s.Queue(Key(cfg.prefix, ctx, source));
            queue != [] ==> queue[0].source == source && queue[0].tenant == ctx
  {
    var key := Key(cfg.prefix, ctx, source);
    var queue := s.Queue(key);
    if queue != [] {
      LiftFromQueue(cfg, s, key);
      var m := queue[0];
      KeyInjective(cfg.prefix, ctx, source, m.tenant, m.source);
      var lifted := s.(queues := s.queues[key := queue[1..]]);
      MessagesStay(s, lifted);
      hide Inv, InvBut, MessageOk;
      PutInHand(cfg, lifted, w, Hand(m, ctx));
    }
  }

  /** The state with a new message counted but not yet placed. */
  function Joined(s: State, key: string, m: Message): State {
    s.(initial := s.initial[m.id := m], calls := s.calls[m.id := 0], where := s.where[m.id := Queued(key)])
  }

  lemma JoinedMessageOk(s: State, key: string, m: Message)
    requires SourceOk(m.source) && SegmentOk(m.tenant) && m.createdAt.Some? && m.maxRetries > 0
    ensures MessageOk(Joined(s, key, m), m) && WithinBudget(Joined(s, key, m), m.id)
  {
    hide SourceOk, SegmentOk;
  }

  lemma QueueUndisturbed(cfg: Config, s: State, t: State, id: Id, k: string)
    requires QueueOk(cfg, s, k) && t.queues == s.queues
    requires forall m | MessageOk(s, m) :: m.id != id && MessageOk(t, m)
    requires forall other | other in s.where && other != id :: other in t.where && t.where[other] == s.where[other]
    ensures QueueOk(cfg, t, k) && forall x | x in s.Queue(k) :: x.id != id
  {
    hide MessageOk, Key;
    assert t.Queue(k) == s.Queue(k);
  }

  lemma JoinInTransit(cfg: Config, s: State, key: string, m: Message)
    requires Inv(cfg, s) && m.id !in s.initial && WithinBudget(Joined(s, key, m), m.id)
    ensures InvBut(cfg, Joined(s, key, m), m.id)
  {
    hide MessageOk, WithinBudget, Key, QueueOk, Found;
    var t := Joined(s, key, m);
    NewcomerDisturbsNobody(s, t, m.id);
    forall k
      ensures QueueOk(cfg, t, k) && forall x | x in s.Queue(k) :: x.id != m.id
    {
      QueueUndisturbed(cfg, s, t, m.id, k);
    }
    assert forall k | k in t.queues :: t.queues[k] == s.Queue(k);
    forall w | w in t.held
      ensures HandOk(t, w) && t.held[w].msg.id != m.id
    {
      assert HandOk(s, w);
    }
    assert forall i | 0 <= i < |s.outcomes| :: At(s, s.outcomes[i].0, Settled(s.outcomes[i].1));
    forall other | other in t.initial && other != m.id
      ensures WithinBudget(t, other) && Found(t, other)
    {
      assert WithinBudget(s, other) && Found(s, other);
      FoundStays(s, t, other);
    }
  }

  lemma FoundStays(s: State, t: State, id: Id)
    requires t.queues == s.queues && t.held == s.held && t.outcomes == s.outcomes
    requires id in s.where && id in t.where && t.where[id] == s.where[id] && Found(s, id)
    ensures Found(t, id)
  {
    assert forall k :: t.Queue(k) == s.Queue(k);
  }

  /** A first enqueue: the message joins the system where `Admit` says. */
  lemma AcceptKeeps(cfg: Config, s: State, key: string, m: Message)
    requires Inv(cfg, s) && m.id !in s.initial
    requires SourceOk(m.source) && SegmentOk(m.tenant) && m.createdAt.Some? && m.maxRetries > 0
    requires key == Key(cfg.prefix, m.tenant, m.source)
    ensures Inv(cfg, Push(s, key, m).(initial := s.initial[m.id := m], calls := s.calls[m.id := 0]))
  {
    hide Inv, InvBut, MessageOk, WithinBudget, Key, SegmentOk, SourceOk;
    JoinedMessageOk(s, key, m);
    JoinInTransit(cfg, s, key, m);
    PutInQueue(cfg, Joined(s, key, m), key, m);
    assert Push(Joined(s, key, m), key, m) == Push(s, key, m).(initial := s.initial[m.id := m], calls := s.calls[m.id := 0]);
  }

  lemma NewcomerDisturbsNobody(s: State, t: State, id: Id)
    requires id !in s.initial && t.lastCall == s.lastCall
    requires t.initial.Keys == s.initial.Keys + {id} && forall other | other in s.initial :: t.initial[other] == s.initial[other]
    requires t.calls.Keys == s.calls.Keys + {id} && forall other | other in s.calls && other != id :: t.calls[other] == s.calls[other]
    requires t.where.Keys == s.where.Keys + {id}
    ensures forall m | MessageOk(s, m) :: m.id != id && MessageOk(t, m)
    ensures forall other | WithinBudget(s, other) :: WithinBudget(t, other)
  {
  }

  lemma EnqueueKeeps(cfg: Config, s: State, step: Step)
    requires cfg.Valid() && Inv(cfg, s) && step.Enqueue? && Enabled(s, step)
    ensures Inv(cfg, Apply(cfg, s, step))
  {
    var admitted := Admit(cfg, s.clock, step.ctx, step.m, step.jitter);
    if admitted.Some? && step.pushed {
      hide Inv, Key;
      AcceptKeeps(cfg, s, admitted.value.0, admitted.value.1);
      var accepted := Push(s, admitted.value.0, admitted.value.1)
                      .(initial := s.initial[step.m.id := admitted.value.1], calls := s.calls[step.m.id := 0]);
      HistoryIsFree(cfg, accepted, accepted.clock, s.handed[step.m.id := step.m]);
    }
  }

  /** What `Enqueue` stores of a message: its own retry budget if it has one, its own time of creation if it has one, and
      on its first enqueue, if it may be retried at all, a first retry after the backoff. */
  predicate StoredAs(cfg: Config, now: int, m: Message, tenant: string, x: Message) {
    && x == m.(tenant := tenant, maxRetries := x.maxRetries, createdAt := x.createdAt, nextRetryAt := x.nextRetryAt)
    && (m.maxRetries > 0 ==> x.maxRetries == m.maxRetries) && (m.maxRetries <= 0 ==> x.maxRetries == cfg.maxRetries)
    && (if m.createdAt.Some? then x.createdAt == m.createdAt else x.createdAt == Some(now))
    && if m.createdAt.None? && x.retryCount < x.maxRetries
       then x.nextRetryAt.Some? && now + MIN_RETRY <= x.nextRetryAt.value <= now + DelayCap(m.retryCount)
       else x.nextRetryAt == m.nextRetryAt
  }

  lemma StampStores(cfg: Config, now: int, m: Message, jitter: int, tenant: string)
    requires Jitter(Exponential(RETRY_BASE, m.retryCount), jitter)
    ensures StoredAs(cfg, now, m, tenant, Stamp(cfg, now, m, jitter).(tenant := tenant))
  {
    hide Exponential, RetryCap;
    BackoffRange(m.retryCount, jitter);
  }

  /**
   `Enqueue` leaves no trace exactly when it refuses the source, the tenant or a tenant other than the context's, or its
   push fails; otherwise the message goes to the back of its own tenant's and source's list and nothing else moves.
   */
  lemma EnqueueArrives(cfg: Config, s: State, step: Step)
    requires step.Enqueue? && Enabled(s, step)
    ensures
      var m, t := step.m, Apply(cfg, s, step);
      var tenant := if m.tenant == "" then step.ctx else m.tenant;
      var key := Key(cfg.prefix, tenant, m.source);
      && (t == s <==> !step.pushed || !SourceOk(m.source) || !SegmentOk(tenant) || (step.ctx != "" && tenant != step.ctx))
      && (t != s ==> exists x: Message ::
            && StoredAs(cfg, s.clock, m, tenant, x)
            && t.Queue(key) == s.Queue(key) + [x] && At(t, m.id, Queued(key)) && t.initial == s.initial[m.id := x]
            && t.held == s.held && t.outcomes == s.outcomes && forall k | k != key :: t.Queue(k) == s.Queue(k))
  {
    hide Key, SegmentOk, Exponential, StoredAs, Stamp;
    var m, t := step.m, Apply(cfg, s, step);
    var admitted := Admit(cfg, s.clock, step.ctx, m, step.jitter);
    EmptySegmentOk();
    if admitted.Some? && step.pushed {
      assert m.id in t.initial && m.id !in s.initial;
      var x := admitted.value.1;
      StampStores(cfg, s.clock, m, step.jitter, if m.tenant == "" then step.ctx else m.tenant);
      StampKeepsId(cfg, s.clock, m, step.jitter);
      assert t.Queue(admitted.value.0) == s.Queue(admitted.value.0) + [x];
    }
  }

  lemma StampKeepsId(cfg: Config, now: int, m: Message, jitter: int)
    ensures Stamp(cfg, now, m, jitter).id == m.id
  {
  }

  lemma EmptySegmentOk()
    ensures SegmentOk("")
  {
  }

  lemma StepKeeps(cfg: Config, s: State, step: Step)
    requires cfg.Valid() && Inv(cfg, s) && Enabled(s, step)
    ensures Inv(cfg, Apply(cfg, s, step))
  {
    match step
    case Tick(now) => ClockKeeps(cfg, s, now);
    case Enqueue(_, _, _, _) => EnqueueKeeps(cfg, s, step);
    case Pop(w, ctx, source) => PopKeeps(cfg, s, w, ctx, source);
    case PutBack(w, pushed) => PutBackKeeps(cfg, s, w, pushed);
    case Exhaust(w) => SettleKeeps(cfg, s, w, Exhausted);
    case Prune(w) => SettleKeeps(cfg, s, w, Pruned);
    case Retry(_, _, _, _, _) => RetryKeeps(cfg, s, step);
  }

  /** Neither the clock nor the record of what was handed over bears on the invariant. */
  lemma HistoryIsFree(cfg: Config, s: State, now: int, handed: map<Id, Message>)
    requires Inv(cfg, s)
    ensures Inv(cfg, s.(clock := now, handed := handed))
  {
    var t := s.(clock := now, handed := handed);
    hide MessageOk, Key;
    MessagesStay(s, t);
    forall k
      ensures QueueOk(cfg, t, k)
    {
      assert QueueOk(cfg, s, k);
    }
    forall w | w in t.held
      ensures HandOk(t, w)
    {
      assert HandOk(s, w);
    }
    forall id | id in t.initial
      ensures WithinBudget(t, id) && Found(t, id)
    {
      assert WithinBudget(s, id) && Found(s, id);
    }
  }

  lemma ClockKeeps(cfg: Config, s: State, now: int)
    requires Inv(cfg, s)
    ensures Inv(cfg, s.(clock := now))
  {
    hide Inv;
    HistoryIsFree(cfg, s, now, s.handed);
  }

  lemma {:induction false} RunKeeps(cfg: Config, s: State, steps: seq<Step>, t: State)
    requires cfg.Valid() && Inv(cfg, s) && Run(cfg, s, steps, t)
    ensures Inv(cfg, t)
    decreases |steps|
  {
    hide Inv, Apply, Enabled;
    if steps != [] {
      StepKeeps(cfg, s, steps[0]);
      RunKeeps(cfg, Apply(cfg, s, steps[0]), steps[1..], t);
    }
  }

  lemma ReachableKeeps(cfg: Config, s: State)
    requires cfg.Valid() && Reachable(cfg, s)
    ensures Inv(cfg, s)
  {
    var steps :| Run(cfg, EMPTY, steps, s);
    RunKeeps(cfg, EMPTY, steps, s);
  }

  // ---------- the promises ----------

  datatype Sighting = InQueue(key: string, index: nat) | InHand(worker: Worker) | InRecord(index: nat)

  predicate Seen(s: State, id: Id, x: Sighting) {
    match x
    case InQueue(key, i) => i < |s.Queue(key)| && s.Queue(key)[i].id == id
    case InHand(w) => w in s.held && s.held[w].msg.id == id
    case InRecord(i) => i < |s.outcomes| && s.outcomes[i].0 == id
  }

  /** The place a sighting betrays. */
  lemma SightingPlaces(cfg: Config, s: State, id: Id, x: Sighting)
    requires Inv(cfg, s) && Seen(s, id, x)
    ensures id in s.where
    ensures match x
            case InQueue(key, _) => s.where[id] == Queued(key)
            case InHand(w) => s.where[id] == Held(w)
            case InRecord(i) => s.where[id] == Settled(s.outcomes[i].1)
  {
    hide MessageOk, Key;
    match x
    case InQueue(key, i) => assert QueueOk(cfg, s, key) && s.Queue(key)[i] in s.Queue(key);
    case InHand(w) => assert HandOk(s, w);
    case InRecord(_) =>
  }

  lemma Sighted(cfg: Config, s: State, id: Id) returns (x: Sighting)
    requires Inv(cfg, s) && id in s.initial
    ensures Seen(s, id, x)
  {
    hide QueueOk, HandOk, OutcomesOk, WithinBudget;
    assert id in s.where && Found(s, id);
    match s.where[id] {
      case Queued(key) =>
        var m :| m in s.Queue(key) && m.id == id;
        var i :| 0 <= i < |s.Queue(key)| && s.Queue(key)[i] == m;
        x := InQueue(key, i);
      case Held(w) => x := InHand(w);
      case Settled(o) =>
        var i :| 0 <= i < |s.outcomes| && s.outcomes[i] == (id, o);
        x := InRecord(i);
    }
  }

  lemma OneSighting(cfg: Config, s: State, id: Id, x: Sighting, y: Sighting)
    requires Inv(cfg, s) && Seen(s, id, x) && Seen(s, id, y)
    ensures x == y
  {
    hide MessageOk, Key, WithinBudget, Found, HandOk;
    SightingPlaces(cfg, s, id, x);
    SightingPlaces(cfg, s, id, y);
    if x.InQueue? {
      assert QueueOk(cfg, s, x.key);
    }
  }

  /** Every accepted message is in exactly one queue slot, hand or record, and nothing else is anywhere. */
  lemma ExactlyOnePlace(cfg: Config, s: State, id: Id) returns (x: Sighting)
    requires cfg.Valid() && Reachable(cfg, s) && id in s.initial
    ensures Seen(s, id, x)
    ensures forall y: Sighting | Seen(s, id, y) :: y == x
  {
    hide Inv, Reachable, Seen;
    ReachableKeeps(cfg, s);
    x := Sighted(cfg, s, id);
    forall y: Sighting | Seen(s, id, y)
      ensures y == x
    {
      OneSighting(cfg, s, id, x, y);
    }
  }

  lemma NobodyElse(cfg: Config, s: State, id: Id, x: Sighting)
    requires cfg.Valid() && Reachable(cfg, s) && Seen(s, id, x)
    ensures id in s.initial
  {
    ReachableKeeps(cfg, s);
    SightingPlaces(cfg, s, id, x);
  }

  /** The stored budget is the one the message was handed over with. */
  predicate HandedOk(cfg: Config, s: State, id: Id) {
    && id in s.initial && id in s.handed
    && s.initial[id].maxRetries == (if s.handed[id].maxRetries > 0 then s.handed[id].maxRetries else cfg.maxRetries)
    && s.initial[id].retryCount == s.handed[id].retryCount
  }

  lemma StepKeepsHanded(cfg: Config, s: State, step: Step)
    requires Enabled(s, step) && forall id | id in s.initial :: HandedOk(cfg, s, id)
    ensures forall id | id in Apply(cfg, s, step).initial :: HandedOk(cfg, Apply(cfg, s, step), id)
  {
    hide Key, SegmentOk, Exponential, BackoffDuration;
    var t := Apply(cfg, s, step);
    forall id | id in t.initial
      ensures HandedOk(cfg, t, id)
    {
      assert id in s.initial ==> HandedOk(cfg, s, id);
    }
  }

  lemma {:induction false} RunKeepsHanded(cfg: Config, s: State, steps: seq<Step>, t: State)
    requires Run(cfg, s, steps, t) && forall id | id in s.initial :: HandedOk(cfg, s, id)
    ensures forall id | id in t.initial :: HandedOk(cfg, t, id)
    decreases |steps|
  {
    hide Apply, Enabled, HandedOk;
    if steps != [] {
      StepKeepsHanded(cfg, s, steps[0]);
      RunKeepsHanded(cfg, Apply(cfg, s, steps[0]), steps[1..], t);
    }
  }

  /** `RetryFunc` is called at most `MaxRetries` minus `RetryCount` times, as the message was handed to `Enqueue`. */
  lemma CallsWithinBudget(cfg: Config, s: State, id: Id)
    requires cfg.Valid() && Reachable(cfg, s) && id in s.initial
    ensures id in s.calls && id in s.handed
    ensures var m := s.handed[id];
            var room := (if m.maxRetries > 0 then m.maxRetries else cfg.maxRetries) - m.retryCount;
            s.calls[id] <= if room > 0 then room else 0
  {
    ReachableKeeps(cfg, s);
    assert WithinBudget(s, id);
    var steps :| Run(cfg, EMPTY, steps, s);
    RunKeepsHanded(cfg, EMPTY, steps, s);
    assert HandedOk(cfg, s, id);
  }

  /** A queued message sits under the key of its own tenant and source. */
  lemma QueuedUnderOwnKey(cfg: Config, s: State, key: string, m: Message)
    requires cfg.Valid() && Reachable(cfg, s) && m in s.Queue(key)
    ensures key == Key(cfg.prefix, m.tenant, m.source) && SourceOk(m.source) && SegmentOk(m.tenant)
  {
    ReachableKeeps(cfg, s);
    assert QueueOk(cfg, s, key);
  }

  /** A message called before is called again no sooner than five seconds later, and becomes ready within the cap. */
  lemma RetriesAreSpaced(cfg: Config, s: State, step: Step)
    requires cfg.Valid() && Reachable(cfg, s) && step.Retry? && Enabled(s, step)
    ensures var m := s.held[step.w].msg;
            m.id in s.calls && s.calls[m.id] > 0 ==>
              && m.id in s.lastCall && s.lastCall[m.id] + MIN_RETRY <= s.clock
              && m.nextRetryAt.Some? && m.nextRetryAt.value <= s.lastCall[m.id] + DelayCap(m.retryCount)
  {
    ReachableKeeps(cfg, s);
    assert HandOk(s, step.w);
  }
}
