/**
 The dead-letter queue as a step system over Redis lists: producers enqueue, any number of workers pop a
 message, retry it, put it back, discard it or lose it, and the clock moves, in any interleaving.

 A message keeps its identity `id` (its payload) through JSON, and `RetryFunc` does not edit it. A worker
 never stops between a pop and what follows it.
 */
module DlqStore {
  import opened Text
  import opened Backoff
  import opened DlqKeys

  type Id = nat
  type Worker = nat

  datatype Message = Message(
    id: Id, source: string, tenant: string, retryCount: int, maxRetries: int,
    createdAt: Option<int>, nextRetryAt: Option<int>)

  /** A popped message and the tenant of the context it was popped under. */
  datatype Hand = Hand(msg: Message, ctx: string)

  datatype Outcome = Retried | Exhausted | Pruned | Lost

  datatype Place = Queued(key: string) | Held(worker: Worker) | Settled(outcome: Outcome)

  datatype Config = Config(prefix: string, maxRetries: int) {
    /** `New` replaces a non-positive budget. */
    predicate Valid() { maxRetries > 0 }
  }

  /** The Redis lists, the workers' hands and the record of outcomes; the rest is history: each accepted message as it was
      handed to `Enqueue` and as it was first stored, the calls of `RetryFunc`, and where it is. */
  datatype State = State(
    queues: map<string, seq<Message>>, held: map<Worker, Hand>, outcomes: seq<(Id, Outcome)>, clock: int,
    handed: map<Id, Message>, initial: map<Id, Message>, calls: map<Id, nat>, lastCall: map<Id, int>, where: map<Id, Place>)
  {
    function Queue(key: string): seq<Message> { if key in queues then queues[key] else [] }
  }

  const EMPTY := State(map[], map[], [], 0, map[], map[], map[], map[], map[])

  // ---------- Enqueue, up to the push ----------

  /** `stampInitialEnqueue`. */
  function Stamp(cfg: Config, now: int, m: Message, jitter: int): Message {
    var created := if m.createdAt.Some? then m.createdAt.value else now;
    var maxRetries := if m.maxRetries <= 0 then cfg.maxRetries else m.maxRetries;
    m.(createdAt := Some(created), maxRetries := maxRetries,
       nextRetryAt := if m.createdAt.None? && m.retryCount < maxRetries then Some(created + BackoffDuration(jitter)) else m.nextRetryAt)
  }

  /** The key and the stamped message `Enqueue` is about to push, or `None` where it refuses. */
  function Admit(cfg: Config, now: int, ctx: string, m: Message, jitter: int): Option<(string, Message)> {
    if !SourceOk(m.source) then None
    else
      var tenant := if m.tenant == "" then ctx else m.tenant;
      if tenant != "" && ctx != "" && tenant != ctx then None
      else if tenant != "" && !SegmentOk(tenant) then None
      else Some((Key(cfg.prefix, tenant, m.source), Stamp(cfg, now, m, jitter).(tenant := tenant)))
  }

  /** Not before `nextRetryAt`. */
  predicate Ready(m: Message, now: int) {
    m.nextRetryAt.None? || m.nextRetryAt.value <= now
  }

  // ---------- the steps ----------

  datatype Step =
    | Tick(now: int)
    | Enqueue(ctx: string, m: Message, jitter: int, pushed: bool)
    | Pop(w: Worker, ctx: string, source: string)
    | PutBack(w: Worker, pushed: bool)
    | Exhaust(w: Worker)
    | Prune(w: Worker)
    | Retry(w: Worker, succeeds: bool, now: int, jitter: int, pushed: bool)

  /** Append to a list, as `RPush` does. */
  function Push(s: State, key: string, m: Message): State {
    s.(queues := s.queues[key := s.Queue(key) + [m]], where := s.where[m.id := Queued(key)])
  }

  function Settle(s: State, w: Worker, outcome: Outcome): State
    requires w in s.held
  {
    var id := s.held[w].msg.id;
    s.(held := s.held - {w}, outcomes := s.outcomes + [(id, outcome)], where := s.where[id := Settled(outcome)])
  }

  /** `Enqueue` of a message in hand, under the tenant it carries: lost when it cannot be pushed. */
  function Requeue(cfg: Config, s: State, w: Worker, m: Message, jitter: int, pushed: bool): State
    requires w in s.held && m.id == s.held[w].msg.id
  {
    var ctx := if m.tenant != "" then m.tenant else s.held[w].ctx;
    var admitted := Admit(cfg, s.clock, ctx, m, jitter);
    if admitted.None? || !pushed then Settle(s, w, Lost)
    else Push(s.(held := s.held - {w}), admitted.value.0, admitted.value.1)
  }

  predicate Enabled(s: State, step: Step) {
    match step
    case Tick(now) => s.clock <= now
    case Enqueue(_, m, jitter, _) => m.id !in s.initial && Jitter(Exponential(RETRY_BASE, m.retryCount), jitter)
    case Pop(w, ctx, source) => w !in s.held && SourceOk(source) && SegmentOk(ctx)
    case PutBack(w, _) => w in s.held
    case Exhaust(w) => w in s.held && Ready(s.held[w].msg, s.clock) && s.held[w].msg.retryCount >= s.held[w].msg.maxRetries
    case Prune(w) => w in s.held && s.held[w].msg.retryCount >= s.held[w].msg.maxRetries
    case Retry(w, _, now, jitter, _) =>
      && w in s.held && s.clock <= now && Ready(s.held[w].msg, s.clock)
      && s.held[w].msg.retryCount < s.held[w].msg.maxRetries
      && Jitter(Exponential(RETRY_BASE, s.held[w].msg.retryCount + 1), jitter)
  }

  function ApplyEnqueue(cfg: Config, s: State, ctx: string, m: Message, jitter: int, pushed: bool): State {
    var admitted := Admit(cfg, s.clock, ctx, m, jitter);
    if admitted.None? || !pushed then s
    else Push(s, admitted.value.0, admitted.value.1)
         .(handed := s.handed[m.id := m], initial := s.initial[m.id := admitted.value.1], calls := s.calls[m.id := 0])
  }

  /** `LPop`, then the source named by the key. */
  function ApplyPop(cfg: Config, s: State, w: Worker, ctx: string, source: string): State {
    var key := Key(cfg.prefix, ctx, source);
    var queue := s.Queue(key);
    if queue == [] then s
    else s.(queues := s.queues[key := queue[1..]], held := s.held[w := Hand(queue[0].(source := source), ctx)],
            where := s.where[queue[0].id := Held(w)])
  }

  function ApplyRetry(cfg: Config, s: State, w: Worker, succeeds: bool, now: int, jitter: int, pushed: bool): State
    requires w in s.held
  {
    var m := s.held[w].msg;
    var called := s.(clock := now, lastCall := s.lastCall[m.id := now],
                     calls := s.calls[m.id := 1 + if m.id in s.calls then s.calls[m.id] else 0]);
    if succeeds then Settle(called, w, Retried)
    else Requeue(cfg, called, w, m.(retryCount := m.retryCount + 1, nextRetryAt := Some(now + BackoffDuration(jitter))), jitter, pushed)
  }

  function Apply(cfg: Config, s: State, step: Step): State
    requires Enabled(s, step)
  {
    match step
    case Tick(now) => s.(clock := now)
    case Enqueue(ctx, m, jitter, pushed) => ApplyEnqueue(cfg, s, ctx, m, jitter, pushed)
    case Pop(w, ctx, source) => ApplyPop(cfg, s, w, ctx, source)
    case PutBack(w, pushed) => Requeue(cfg, s, w, s.held[w].msg, 0, pushed)
    case Exhaust(w) => Settle(s, w, Exhausted)
    case Prune(w) => Settle(s, w, Pruned)
    case Retry(w, succeeds, now, jitter, pushed) => ApplyRetry(cfg, s, w, succeeds, now, jitter, pushed)
  }

  ghost predicate Run(cfg: Config, s: State, steps: seq<Step>, t: State)
    decreases |steps|
  {
    if steps == [] then t == s
    else Enabled(s, steps[0]) && Run(cfg, Apply(cfg, s, steps[0]), steps[1..], t)
  }

  /** Reached from empty Redis. */
  ghost predicate Reachable(cfg: Config, s: State) {
    exists steps :: Run(cfg, EMPTY, steps, s)
  }

  // ---------- what every step keeps ----------

  /** What is true of a message wherever it waits. */
  predicate MessageOk(s: State, m: Message) {
    && m.id in s.initial && m.id in s.calls
    && SourceOk(m.source) && SegmentOk(m.tenant) && m.createdAt.Some?
    && m.maxRetries > 0 && m.maxRetries == s.initial[m.id].maxRetries
    && m.retryCount == s.initial[m.id].retryCount + s.calls[m.id]
    && (s.calls[m.id] > 0 ==>
          m.id in s.lastCall && m.nextRetryAt.Some?
          && s.lastCall[m.id] + MIN_RETRY <= m.nextRetryAt.value <= s.lastCall[m.id] + DelayCap(m.retryCount))
  }

  function DelayCap(n: int): int {
    if RetryCap(n) > MIN_RETRY then RetryCap(n) else MIN_RETRY
  }

  predicate At(s: State, id: Id, place: Place) { id in s.where && s.where[id] == place }

  predicate QueueOk(cfg: Config, s: State, key: string) {
    && (forall m | m in s.Queue(key) ::
          MessageOk(s, m) && key == Key(cfg.prefix, m.tenant, m.source) && At(s, m.id, Queued(key)))
    && (forall i, j | 0 <= i < j < |s.Queue(key)| :: s.Queue(key)[i].id != s.Queue(key)[j].id)
  }

  predicate HandOk(s: State, w: Worker)
    requires w in s.held
  {
    MessageOk(s, s.held[w].msg) && s.held[w].msg.tenant == s.held[w].ctx && At(s, s.held[w].msg.id, Held(w))
  }

  predicate OutcomesOk(s: State) {
    && (forall i | 0 <= i < |s.outcomes| :: At(s, s.outcomes[i].0, Settled(s.outcomes[i].1)))
    && (forall i, j | 0 <= i < j < |s.outcomes| :: s.outcomes[i].0 != s.outcomes[j].0)
  }

  predicate Found(s: State, id: Id)
    requires id in s.where
  {
    match s.where[id]
    case Queued(key) => exists m | m in s.Queue(key) :: m.id == id
    case Held(w) => w in s.held && s.held[w].msg.id == id
    case Settled(o) => (id, o) in s.outcomes
  }

  predicate WithinBudget(s: State, id: Id) {
    && id in s.initial && id in s.calls && id in s.where
    && var room := s.initial[id].maxRetries - s.initial[id].retryCount;
       s.calls[id] <= if room > 0 then room else 0
  }

  ghost predicate Inv(cfg: Config, s: State) {
    && (forall key :: QueueOk(cfg, s, key))
    && (forall w | w in s.held :: HandOk(s, w))
    && OutcomesOk(s)
    && s.initial.Keys == s.where.Keys
    && (forall id | id in s.initial :: WithinBudget(s, id) && Found(s, id))
  }
}
