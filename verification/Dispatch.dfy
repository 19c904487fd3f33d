/** One cycle of the outbox dispatcher: selecting a batch, publishing each event with retries, marking the outcome. */
module Dispatch {
  import opened Numbers
  import opened Text

  type Id = nat
  datatype Event = Event(id: Id, payload: string)

  /** What a repository call returns: possibly nil entries. */
  type Rows = seq<Option<Event>>

  /** The repository's answers for each limit. `byTypes` is present on a `MultiTypePendingRepository`; the calls whose
      error makes the dispatcher ignore the rows answer `None` then, the two resets are used whatever their error. */
  datatype Repository = Repository(
    byTypes: Option<nat -> Option<Rows>>,
    byType: (string, nat) -> Option<Rows>,
    resetStuck: nat -> Rows,
    resetForRetry: nat -> Rows,
    pending: nat -> Option<Rows>)

  datatype Config = Config(batchSize: int, priorityBudget: int, priorityTypes: seq<string>, maxFailed: int, publishMaxAttempts: int)

  const DEFAULT_PUBLISH_MAX_ATTEMPTS := 3

  function OrNone(rows: Option<Rows>): Rows {
    if rows.Some? then rows.value else []
  }

  ghost predicate Bounded(rows: Option<Rows>, limit: nat) {
    rows.Some? ==> |rows.value| <= limit
  }

  /** No call returns more rows than it was asked for. */
  ghost predicate HonoursLimits(repo: Repository) {
    && (repo.byTypes.Some? ==> forall n: nat :: Bounded(repo.byTypes.value(n), n))
    && (forall t: string, n: nat :: Bounded(repo.byType(t, n), n))
    && (forall n: nat :: |repo.resetStuck(n)| <= n)
    && (forall n: nat :: |repo.resetForRetry(n)| <= n)
    && (forall n: nat :: Bounded(repo.pending(n), n))
  }

  // ---------- selecting the batch ----------

  /** The rows of the four layers, in the order they are dispatched. */
  datatype Layers = Layers(priority: Rows, stuck: Rows, failed: Rows, pending: Rows)

  function AllRows(l: Layers): Rows { l.priority + l.stuck + l.failed + l.pending }

  /** The pending rows of the first priority types, each type getting the room its predecessors left. */
  function ByType(repo: Repository, types: seq<string>, budget: int): Rows {
    if types == [] then []
    else
      var n := |types| - 1;
      var before := ByType(repo, types[..n], budget);
      if budget - |before| <= 0 then before else before + OrNone(repo.byType(types[n], budget - |before|))
  }

  function PriorityRows(cfg: Config, repo: Repository): Rows {
    var budget := Min(cfg.priorityBudget, cfg.batchSize);
    if budget <= 0 || cfg.priorityTypes == [] then []
    else if repo.byTypes.Some? then OrNone(repo.byTypes.value(budget))
    else ByType(repo, cfg.priorityTypes, budget)
  }

  /** A repository claiming several types at once is asked for nothing but those types. */
  predicate Scoped(cfg: Config, repo: Repository) { repo.byTypes.Some? && cfg.priorityTypes != [] }

  function LayersOf(cfg: Config, repo: Repository): Layers {
    var p := PriorityRows(cfg, repo);
    var room := if Scoped(cfg, repo) then 0 else cfg.batchSize - |p|;
    var s := if room <= 0 then [] else repo.resetStuck(room);
    var failedLimit := if room <= 0 then 0 else Min(room - |s|, cfg.maxFailed);
    var f := if failedLimit <= 0 then [] else repo.resetForRetry(failedLimit);
    var left := room - |s| - |f|;
    Layers(p, s, f, if failedLimit <= 0 || left <= 0 then [] else OrNone(repo.pending(left)))
  }

  /** The first row holding the event `id`, or the number of rows. */
  function First(rows: Rows, id: Id): (i: nat)
    ensures i <= |rows|
    ensures forall k | 0 <= k < i :: rows[k].Some? ==> rows[k].value.id != id
    ensures i < |rows| ==> rows[i].Some? && rows[i].value.id == id
  {
    if rows == [] then 0
    else if rows[0].Some? && rows[0].value.id == id then 0
    else
      assert forall k | 0 < k < |rows| :: rows[k] == rows[1..][k - 1];
      1 + First(rows[1..], id)
  }

  /** `events` are the first rows of each event, in the order of those rows. */
  ghost predicate FirstRows(rows: Rows, events: seq<Event>) {
    && (forall k | 0 <= k < |events| :: First(rows, events[k].id) < |rows| && rows[First(rows, events[k].id)] == Some(events[k]))
    && (forall j, k | 0 <= j < k < |events| :: First(rows, events[j].id) < First(rows, events[k].id))
    && (forall i | 0 <= i < |rows| && rows[i].Some? :: HasId(events, rows[i].value.id))
  }

  ghost predicate HasId(events: seq<Event>, id: Id) { exists k | 0 <= k < |events| :: events[k].id == id }

  ghost predicate Distinct(events: seq<Event>) {
    forall j, k | 0 <= j < k < |events| :: events[j].id != events[k].id
  }

  lemma FirstInPrefix(rows: Rows, n: nat, id: Id)
    requires n <= |rows|
    ensures First(rows[..n], id) < n ==> First(rows, id) == First(rows[..n], id)
    ensures First(rows[..n], id) == n ==> First(rows, id) >= n
  {
    var i, j := First(rows[..n], id), First(rows, id);
    if i < n {
      assert rows[..n][i] == rows[i];
    }
    if j < n {
      assert rows[..n][j] == rows[j];
    }
  }

  /** A row whose event was seen, or that is nil, changes nothing. */
  lemma SeenRowStep(rows: Rows, n: nat, events: seq<Event>)
    requires n < |rows| && FirstRows(rows[..n], events)
    requires rows[n].None? || HasId(events, rows[n].value.id)
    ensures FirstRows(rows[..n + 1], events)
  {
    hide First;
    var longer := rows[..n + 1];
    assert longer[..n] == rows[..n];
    forall k | 0 <= k < |events|
      ensures First(longer, events[k].id) == First(rows[..n], events[k].id) < n
    {
      FirstInPrefix(longer, n, events[k].id);
    }
    forall i | 0 <= i < n + 1 && longer[i].Some?
      ensures HasId(events, longer[i].value.id)
    {
      assert i < n ==> rows[..n][i] == longer[i];
    }
  }

  /** A row with a new event is that event's first. */
  lemma NewRowStep(rows: Rows, n: nat, events: seq<Event>)
    requires n < |rows| && FirstRows(rows[..n], events)
    requires rows[n].Some? && !HasId(events, rows[n].value.id)
    ensures FirstRows(rows[..n + 1], events + [rows[n].value])
  {
    hide First, HasId;
    var longer, more := rows[..n + 1], events + [rows[n].value];
    assert longer[..n] == rows[..n];
    forall k | 0 <= k < |events|
      ensures First(longer, more[k].id) == First(rows[..n], events[k].id) < n
    {
      FirstInPrefix(longer, n, events[k].id);
    }
    FirstInPrefix(longer, n, rows[n].value.id);
    assert First(longer, rows[n].value.id) == n;
    HasIdAppend(events, rows[n].value);
    forall i | 0 <= i < n + 1 && longer[i].Some?
      ensures HasId(more, longer[i].value.id)
    {
      assert i < n ==> rows[..n][i] == longer[i];
    }
  }

  /** Events picked by first rows are distinct and no more than the rows. */
  lemma FirstRowsDistinct(rows: Rows, events: seq<Event>)
    requires FirstRows(rows, events)
    ensures Distinct(events) && |events| <= |rows|
  {
    if events != [] {
      FirstClimbs(rows, events, |events| - 1);
    }
  }

  lemma {:induction false} FirstClimbs(rows: Rows, events: seq<Event>, k: nat)
    requires FirstRows(rows, events) && k < |events|
    ensures First(rows, events[k].id) >= k
  {
    if k > 0 {
      FirstClimbs(rows, events, k - 1);
    }
  }

  method DeduplicateEvents(rows: Rows) returns (events: seq<Event>)
    ensures FirstRows(rows, events)
  {
    hide FirstRows, HasId;
    events := [];
    var seen: set<Id> := {};
    FirstRowsStart(rows);
    for i := 0 to |rows|
      invariant FirstRows(rows[..i], events)
      invariant forall id :: id in seen <==> HasId(events, id)
    {
      if rows[i].None? || rows[i].value.id in seen {
        SeenRowStep(rows, i, events);
        continue;
      }
      NewRowStep(rows, i, events);
      HasIdAppend(events, rows[i].value);
      seen := seen + {rows[i].value.id};
      events := events + [rows[i].value];
    }
    assert rows[..|rows|] == rows;
  }

  lemma FirstRowsStart(rows: Rows)
    ensures FirstRows(rows[..0], []) && forall id: Id :: !HasId([], id)
  {
  }

  lemma HasIdAppend(events: seq<Event>, e: Event)
    ensures forall id :: HasId(events + [e], id) <==> HasId(events, id) || id == e.id
  {
    forall id
      ensures HasId(events + [e], id) <==> HasId(events, id) || id == e.id
    {
      assert forall k | 0 <= k < |events| :: (events + [e])[k] == events[k];
      assert (events + [e])[|events|] == e;
    }
  }

  // ---------- the repository calls that fill the layers ----------

  /** A call the cycle makes on its repository, with its limit. */
  datatype Ask = AskTypes(limit: nat) | AskType(eventType: string, limit: nat) | AskStuck(limit: nat) | AskFailed(limit: nat) | AskPending(limit: nat)

  /** The calls of a cycle, layer by layer; each is made after the ones before it. */
  datatype Asks = Asks(priority: seq<Ask>, stuck: seq<Ask>, failed: seq<Ask>, pending: seq<Ask>)

  function Answer(repo: Repository, a: Ask): Rows {
    match a
    case AskTypes(n) => if repo.byTypes.Some? then OrNone(repo.byTypes.value(n)) else []
    case AskType(t, n) => OrNone(repo.byType(t, n))
    case AskStuck(n) => repo.resetStuck(n)
    case AskFailed(n) => repo.resetForRetry(n)
    case AskPending(n) => OrNone(repo.pending(n))
  }

  function Answers(repo: Repository, asks: seq<Ask>): Rows {
    if asks == [] then [] else Answers(repo, asks[..|asks| - 1]) + Answer(repo, asks[|asks| - 1])
  }

  /** The k-th call asks the k-th type for the budget the ones before it left. */
  predicate AskedAt(repo: Repository, types: seq<string>, budget: int, asks: seq<Ask>, k: nat)
    requires k < |asks| && k < |types|
  {
    var room := budget - |Answers(repo, asks[..k])|;
    room > 0 && asks[k] == AskType(types[k], room)
  }

  predicate TypesAsked(repo: Repository, types: seq<string>, budget: int, asks: seq<Ask>) {
    |asks| <= |types| && forall k | 0 <= k < |asks| :: AskedAt(repo, types, budget, asks, k)
  }

  /** The configured types are asked in their order until nothing is left of the budget; a repository that claims several
      types at once is asked once. */
  predicate PriorityAsked(cfg: Config, repo: Repository, asks: seq<Ask>) {
    var budget := Min(cfg.priorityBudget, cfg.batchSize);
    if budget <= 0 || cfg.priorityTypes == [] then asks == []
    else if repo.byTypes.Some? then asks == [AskTypes(budget)]
    else TypesAsked(repo, cfg.priorityTypes, budget, asks) && (|asks| < |cfg.priorityTypes| ==> |Answers(repo, asks)| >= budget)
  }

  /** Exactly which calls a cycle makes: stuck events for the room behind the priority layer, unless the claim is scoped;
      then failed ones up to their cap, then pending ones, each only while room is left and the call before it was made. */
  predicate RightlyAsked(cfg: Config, repo: Repository, asks: Asks) {
    var afterPriority := cfg.batchSize - |Answers(repo, asks.priority)|;
    var afterStuck := afterPriority - |Answers(repo, asks.stuck)|;
    var afterFailed := afterStuck - |Answers(repo, asks.failed)|;
    && PriorityAsked(cfg, repo, asks.priority)
    && asks.stuck == (if !Scoped(cfg, repo) && afterPriority > 0 then [AskStuck(afterPriority)] else [])
    && asks.failed == (if asks.stuck != [] && afterStuck > 0 && cfg.maxFailed > 0 then [AskFailed(Min(afterStuck, cfg.maxFailed))] else [])
    && asks.pending == (if asks.failed != [] && afterFailed > 0 then [AskPending(afterFailed)] else [])
  }

  /** The layers hold what the calls answered, each its own call's rows. */
  predicate Filled(repo: Repository, asks: Asks, l: Layers) {
    && l.priority == Answers(repo, asks.priority) && l.stuck == Answers(repo, asks.stuck)
    && l.failed == Answers(repo, asks.failed) && l.pending == Answers(repo, asks.pending)
  }

  lemma AnswersAppend(repo: Repository, asks: seq<Ask>, a: Ask)
    ensures Answers(repo, asks + [a]) == Answers(repo, asks) + Answer(repo, a)
    ensures Answers(repo, [a]) == Answer(repo, a) && Answers(repo, []) == []
  {
    assert (asks + [a])[..|asks|] == asks;
  }

  lemma ByTypeGrows(repo: Repository, types: seq<string>, i: nat, budget: int)
    requires i < |types| && |ByType(repo, types[..i], budget)| < budget
    ensures var before := ByType(repo, types[..i], budget);
            ByType(repo, types[..i + 1], budget) == before + OrNone(repo.byType(types[i], budget - |before|))
  {
    assert types[..i + 1][..i] == types[..i];
  }

  lemma TypesAskedStarts(repo: Repository, types: seq<string>, budget: int)
    ensures TypesAsked(repo, types, budget, []) && Answers(repo, []) == [] && ByType(repo, types[..0], budget) == []
  {
  }

  lemma AskedStays(repo: Repository, types: seq<string>, budget: int, asks: seq<Ask>, ask: Ask, k: nat)
    requires k < |asks| && k < |types| && AskedAt(repo, types, budget, asks, k)
    ensures AskedAt(repo, types, budget, asks + [ask], k)
  {
    hide Answers;
    assert (asks + [ask])[..k] == asks[..k];
  }

  lemma AskedNext(repo: Repository, types: seq<string>, budget: int, asks: seq<Ask>)
    requires |asks| < |types| && budget > |Answers(repo, asks)|
    ensures AskedAt(repo, types, budget, asks + [AskType(types[|asks|], budget - |Answers(repo, asks)|)], |asks|)
  {
    hide Answers;
    assert (asks + [AskType(types[|asks|], budget - |Answers(repo, asks)|)])[..|asks|] == asks;
  }

  lemma TypesAskedStep(repo: Repository, types: seq<string>, budget: int, asks: seq<Ask>)
    requires TypesAsked(repo, types, budget, asks) && |asks| < |types| && budget > |Answers(repo, asks)|
    ensures var ask := AskType(types[|asks|], budget - |Answers(repo, asks)|);
            && TypesAsked(repo, types, budget, asks + [ask])
            && Answers(repo, asks + [ask]) == Answers(repo, asks) + OrNone(repo.byType(ask.eventType, ask.limit))
  {
    hide Answers, AskedAt;
    var ask := AskType(types[|asks|], budget - |Answers(repo, asks)|);
    AnswersAppend(repo, asks, ask);
    AskedNext(repo, types, budget, asks);
    forall k | 0 <= k < |asks| ensures AskedAt(repo, types, budget, asks + [ask], k) {
      AskedStays(repo, types, budget, asks, ask, k);
    }
  }

  /** The loop over the configured types. */
  method CollectByType(repo: Repository, types: seq<string>, budget: int) returns (rows: Rows, asks: seq<Ask>)
    ensures rows == ByType(repo, types, budget) == Answers(repo, asks)
    ensures TypesAsked(repo, types, budget, asks) && (|asks| < |types| ==> |rows| >= budget)
  {
    hide Answers, Answer, TypesAsked, ByType;
    rows, asks := [], [];
    TypesAskedStarts(repo, types, budget);
    for i := 0 to |types|
      invariant |asks| == i && rows == ByType(repo, types[..i], budget) == Answers(repo, asks)
      invariant TypesAsked(repo, types, budget, asks)
    {
      var remaining := budget - |rows|;
      if remaining <= 0 {
        FullStays(repo, types, i, |types|, budget);
        assert types[..|types|] == types;
        return;
      }
      ByTypeGrows(repo, types, i, budget);
      TypesAskedStep(repo, types, budget, asks);
      rows := rows + OrNone(repo.byType(types[i], remaining));
      asks := asks + [AskType(types[i], remaining)];
    }
    assert types[..|types|] == types;
  }

  method CollectPriorityEvents(cfg: Config, repo: Repository, budget: int) returns (rows: Rows, asks: seq<Ask>)
    requires budget == Min(cfg.priorityBudget, cfg.batchSize)
    ensures rows == PriorityRows(cfg, repo) == Answers(repo, asks)
    ensures PriorityAsked(cfg, repo, asks)
  {
    hide ByType, TypesAsked;
    if budget <= 0 || cfg.priorityTypes == [] {
      return [], [];
    }
    if repo.byTypes.Some? {
      AnswersAppend(repo, [], AskTypes(budget));
      return OrNone(repo.byTypes.value(budget)), [AskTypes(budget)];
    }
    rows, asks := CollectByType(repo, cfg.priorityTypes, budget);
  }

  /** Once the budget is spent no further type adds a row. */
  lemma {:induction false} FullStays(repo: Repository, types: seq<string>, i: nat, n: nat, budget: int)
    requires i <= n <= |types| && budget - |ByType(repo, types[..i], budget)| <= 0
    ensures ByType(repo, types[..n], budget) == ByType(repo, types[..i], budget)
    decreases n
  {
    if i < n {
      FullStays(repo, types, i, n - 1, budget);
      assert types[..n][..n - 1] == types[..n - 1];
    }
  }

  lemma {:induction false} ByTypeWithin(repo: Repository, types: seq<string>, budget: int)
    requires HonoursLimits(repo) && budget >= 0
    ensures |ByType(repo, types, budget)| <= budget
  {
    if types != [] {
      var n := |types| - 1;
      ByTypeWithin(repo, types[..n], budget);
      var room := budget - |ByType(repo, types[..n], budget)|;
      assert room > 0 ==> Bounded(repo.byType(types[n], room), room);
    }
  }

  lemma PriorityWithin(cfg: Config, repo: Repository)
    requires HonoursLimits(repo)
    ensures |PriorityRows(cfg, repo)| == 0 || |PriorityRows(cfg, repo)| <= Min(cfg.priorityBudget, cfg.batchSize)
  {
    var budget := Min(cfg.priorityBudget, cfg.batchSize);
    if budget > 0 {
      ByTypeWithin(repo, cfg.priorityTypes, budget);
    }
  }

  /** The layers together fit the batch, the failed layer its own cap, and the priority layer its budget. */
  lemma LayersFit(cfg: Config, repo: Repository)
    requires HonoursLimits(repo)
    ensures AllRows(LayersOf(cfg, repo)) == [] || |AllRows(LayersOf(cfg, repo))| <= cfg.batchSize
    ensures LayersOf(cfg, repo).failed == [] || |LayersOf(cfg, repo).failed| <= cfg.maxFailed
    ensures LayersOf(cfg, repo).priority == [] || |LayersOf(cfg, repo).priority| <= cfg.priorityBudget
  {
    PriorityWithin(cfg, repo);
  }

  /** Room left in the batch is offered to pending events: they are skipped only behind a full batch or a scoped claim. */
  lemma LeftoverRoomIsOffered(cfg: Config, repo: Repository)
    requires HonoursLimits(repo) && cfg.maxFailed > 0 && !Scoped(cfg, repo)
    requires |AllRows(LayersOf(cfg, repo))| < cfg.batchSize
    ensures var l := LayersOf(cfg, repo);
            var left := cfg.batchSize - |l.priority| - |l.stuck| - |l.failed|;
            left > 0 && l.pending == OrNone(repo.pending(left))
  {
    PriorityWithin(cfg, repo);
  }

  method CollectEvents(cfg: Config, repo: Repository) returns (events: seq<Event>, asks: Asks)
    ensures FirstRows(AllRows(LayersOf(cfg, repo)), events)
    ensures RightlyAsked(cfg, repo, asks) && Filled(repo, asks, LayersOf(cfg, repo))
    ensures Distinct(events) && (HonoursLimits(repo) ==> events == [] || |events| <= cfg.batchSize)
  {
    hide FirstRows, HonoursLimits, PriorityRows, PriorityAsked, Answers;
    var l := Layers([], [], [], []);
    asks := Asks([], [], [], []);
    NothingAsked(repo);
    var priority, priorityAsks := CollectPriorityEvents(cfg, repo, Min(cfg.priorityBudget, cfg.batchSize));
    l, asks := l.(priority := priority), asks.(priority := priorityAsks);
    var collected := |priority|;
    if !Scoped(cfg, repo) && cfg.batchSize - collected > 0 {
      asks := asks.(stuck := [AskStuck(cfg.batchSize - collected)]);
      AnswersAppend(repo, [], asks.stuck[0]);
      l := l.(stuck := repo.resetStuck(cfg.batchSize - collected));
      collected := collected + |l.stuck|;
      var failedLimit := Min(cfg.batchSize - collected, cfg.maxFailed);
      if failedLimit > 0 {
        asks := asks.(failed := [AskFailed(failedLimit)]);
        AnswersAppend(repo, [], asks.failed[0]);
        l := l.(failed := repo.resetForRetry(failedLimit));
        collected := collected + |l.failed|;
        var remaining := cfg.batchSize - collected;
        if remaining > 0 {
          asks := asks.(pending := [AskPending(remaining)]);
          AnswersAppend(repo, [], asks.pending[0]);
          l := l.(pending := OrNone(repo.pending(remaining)));
        }
      }
    }
    assert l == LayersOf(cfg, repo);
    events := DeduplicateEvents(AllRows(l));
    FirstRowsDistinct(AllRows(l), events);
    if HonoursLimits(repo) {
      LayersFit(cfg, repo);
    }
  }

  lemma NothingAsked(repo: Repository)
    ensures Answers(repo, []) == []
  {
  }

  /** The layer a row of the concatenation comes from. */
  function LayerAt(l: Layers, i: nat): nat {
    if i < |l.priority| then 0
    else if i < |l.priority| + |l.stuck| then 1
    else if i < |l.priority| + |l.stuck| + |l.failed| then 2
    else 3
  }

  function Layer(l: Layers, n: nat): Rows {
    if n == 0 then l.priority else if n == 1 then l.stuck else if n == 2 then l.failed else l.pending
  }

  function LayerStart(l: Layers, n: nat): nat {
    if n == 0 then 0
    else if n == 1 then |l.priority|
    else if n == 2 then |l.priority| + |l.stuck|
    else |l.priority| + |l.stuck| + |l.failed|
  }

  lemma RowsOfLayer(l: Layers, n: nat, i: nat)
    requires n <= 3 && i < |Layer(l, n)|
    ensures LayerStart(l, n) + i < |AllRows(l)| && AllRows(l)[LayerStart(l, n) + i] == Layer(l, n)[i]
    ensures LayerAt(l, LayerStart(l, n) + i) == n
  {
  }

  lemma LayerOfRow(l: Layers, i: nat)
    requires i < |AllRows(l)|
    ensures AllRows(l)[i] in Layer(l, LayerAt(l, i))
  {
  }

  lemma LaterRowLaterLayer(l: Layers, i: nat, k: nat)
    requires i <= k
    ensures LayerAt(l, i) <= LayerAt(l, k)
  {
  }

  /** Each event comes from the earliest layer that lists it, and layers follow each other in order. */
  lemma LayersInOrder(l: Layers, events: seq<Event>, j: nat, k: nat)
    requires FirstRows(AllRows(l), events) && j <= k < |events|
    ensures var rows := AllRows(l);
            var layer := LayerAt(l, First(rows, events[k].id));
            && LayerAt(l, First(rows, events[j].id)) <= layer
            && Some(events[k]) in Layer(l, layer)
            && forall n, i | 0 <= n < layer && 0 <= i < |Layer(l, n)| :: Layer(l, n)[i].Some? ==> Layer(l, n)[i].value.id != events[k].id
  {
    hide First, AllRows, LayerAt, Layer, LayerStart;
    var at := First(AllRows(l), events[k].id);
    LayerOfRow(l, at);
    LaterRowLaterLayer(l, First(AllRows(l), events[j].id), at);
    forall n, i | 0 <= n < LayerAt(l, at) && 0 <= i < |Layer(l, n)|
      ensures Layer(l, n)[i].Some? ==> Layer(l, n)[i].value.id != events[k].id
    {
      LayersAreFour(l, at);
      RowsOfLayer(l, n, i);
      if at <= LayerStart(l, n) + i {
        LaterRowLaterLayer(l, at, LayerStart(l, n) + i);
      }
    }
  }

  lemma LayersAreFour(l: Layers, i: nat)
    ensures LayerAt(l, i) <= 3
  {
  }

  // ---------- publishing one event ----------

  datatype Reply = Delivered | Refused(nonRetryable: bool)

  /** The error a publish finally reports: its last attempt's, or that a wait was cut short. */
  datatype Report = AttemptFailed(id: Id, attempt: nat, nonRetryable: bool) | WaitCut(id: Id)

  /** Everything the cycle meets: the handler's reply to each attempt on an event and whether the wait after it was cut
      short, the classifier's view of a missing payload and of each report, whether the context is still alive before the
      k-th event, and whether a mark is stored. */
  datatype World = World(
    handle: (Id, nat) -> Reply,
    interrupted: (Id, nat) -> bool,
    emptyPayloadIsFinal: bool,
    invalid: Report -> bool,
    alive: nat -> bool,
    stored: Id -> bool)

  /** A call to a handler, with its success, or to one of the repository's three marks. */
  datatype Call = Handle(id: Id, ok: bool) | MarkPublished(id: Id) | MarkFailed(id: Id) | MarkInvalid(id: Id)

  function MaxAttempts(cfg: Config): (n: nat)
    ensures n > 0 && n == if cfg.publishMaxAttempts > 0 then cfg.publishMaxAttempts else 3
  {
    if cfg.publishMaxAttempts <= 0 then DEFAULT_PUBLISH_MAX_ATTEMPTS else cfg.publishMaxAttempts
  }

  function ReplyTo(w: World, e: Event, attempt: nat): Reply {
    if e.payload == "" then Refused(w.emptyPayloadIsFinal) else w.handle(e.id, attempt)
  }

  /** The attempt is not followed by another. */
  predicate Stops(w: World, e: Event, attempt: nat, max: nat) {
    var reply := ReplyTo(w, e, attempt);
    reply.Delivered? || reply.nonRetryable || attempt + 1 >= max || w.interrupted(e.id, attempt)
  }

  function LastAttempt(w: World, e: Event, max: nat, from: nat := 0): (a: nat)
    requires from < max
    ensures from <= a < max && Stops(w, e, a, max)
    ensures forall b | from <= b < a :: !Stops(w, e, b, max)
    decreases max - from
  {
    if Stops(w, e, from, max) then from else LastAttempt(w, e, max, from + 1)
  }

  /** The report of the whole publish, or `None` when it succeeded. */
  function Reported(w: World, e: Event, max: nat): Option<Report>
    requires max > 0
  {
    var last := LastAttempt(w, e, max);
    var reply := ReplyTo(w, e, last);
    if reply.Delivered? then None
    else if reply.nonRetryable || last + 1 >= max then Some(AttemptFailed(e.id, last, reply.nonRetryable))
    else Some(WaitCut(e.id))
  }

  predicate Publishes(w: World, e: Event, max: nat)
    requires max > 0
  {
    Reported(w, e, max).None?
  }

  function HandlerCalls(w: World, e: Event, attempts: nat): seq<Call> {
    if e.payload == "" then [] else seq(attempts, a requires a >= 0 => Handle(e.id, w.handle(e.id, a).Delivered?))
  }

  method PublishEventWithRetry(cfg: Config, w: World, e: Event) returns (report: Option<Report>, calls: seq<Call>)
    ensures report == Reported(w, e, MaxAttempts(cfg))
    ensures calls == HandlerCalls(w, e, LastAttempt(w, e, MaxAttempts(cfg)) + 1)
  {
    hide LastAttempt;
    var max := MaxAttempts(cfg);
    report, calls := None, [];
    var attempt := 0;
    while true
      invariant attempt < max
      invariant calls == HandlerCalls(w, e, attempt)
      invariant forall b | 0 <= b < attempt :: !Stops(w, e, b, max)
      decreases max - attempt
    {
      var reply := ReplyTo(w, e, attempt);
      if e.payload != "" {
        calls := calls + [Handle(e.id, reply.Delivered?)];
      }
      assert calls == HandlerCalls(w, e, attempt + 1);
      if reply.Delivered? {
        report := None;
        break;
      }
      report := Some(AttemptFailed(e.id, attempt, reply.nonRetryable));
      if reply.nonRetryable || attempt == max - 1 {
        break;
      }
      if w.interrupted(e.id, attempt) {
        report := Some(WaitCut(e.id));
        break;
      }
      attempt := attempt + 1;
    }
    LeastStop(w, e, max, attempt);
  }

  lemma LeastStop(w: World, e: Event, max: nat, attempt: nat)
    requires attempt < max && Stops(w, e, attempt, max) && forall b | 0 <= b < attempt :: !Stops(w, e, b, max)
    ensures LastAttempt(w, e, max) == attempt
  {
  }

  /** An event is published exactly when some permitted attempt succeeds and none before it failed for good or was the
      last one waited for. */
  lemma PublishesExactly(w: World, e: Event, max: nat)
    requires max > 0
    ensures Publishes(w, e, max) <==> e.payload != "" && exists a | 0 <= a < max :: DeliversAt(w, e, a)
  {
    hide LastAttempt;
    var last := LastAttempt(w, e, max);
    if Publishes(w, e, max) {
      forall b | 0 <= b < last ensures w.handle(e.id, b) == Refused(false) && !w.interrupted(e.id, b) {
        assert !Stops(w, e, b, max);
      }
      assert DeliversAt(w, e, last);
    }
    if e.payload != "" && exists a | 0 <= a < max :: DeliversAt(w, e, a) {
      var a :| 0 <= a < max && DeliversAt(w, e, a);
      LeastStop(w, e, max, a);
    }
  }

  predicate DeliversAt(w: World, e: Event, a: nat) {
    && w.handle(e.id, a).Delivered?
    && forall b | 0 <= b < a :: w.handle(e.id, b) == Refused(false) && !w.interrupted(e.id, b)
  }

  // ---------- the cycle ----------

  datatype DispatchResult = DispatchResult(processed: nat, published: nat, failed: nat, stateUpdateFailed: nat)

  function Mark(w: World, e: Event, report: Option<Report>): Call {
    if report.None? then MarkPublished(e.id)
    else if w.invalid(report.value) then MarkInvalid(e.id)
    else MarkFailed(e.id)
  }

  /** The classifier judges a wrapped attempt as it judged the attempt. */
  ghost predicate LooksThrough(w: World) {
    forall id: Id, attempt: nat, final: bool :: w.invalid(AttemptFailed(id, attempt, final)) <==> final
  }

  /** An event is marked INVALID exactly when its last error is non-retryable, or when attempts were left, so that its wait
      was cut, and a cut wait counts as such. */
  lemma InvalidExactly(w: World, e: Event, max: nat)
    requires max > 0 && LooksThrough(w)
    ensures var last := LastAttempt(w, e, max);
            var reply := ReplyTo(w, e, last);
            Mark(w, e, Reported(w, e, max)).MarkInvalid? <==>
              reply.Refused? && (reply.nonRetryable || (last + 1 < max && w.invalid(WaitCut(e.id))))
  {
    hide LastAttempt;
  }

  function EventCalls(w: World, e: Event, max: nat): seq<Call>
    requires max > 0
  {
    HandlerCalls(w, e, LastAttempt(w, e, max) + 1) + [Mark(w, e, Reported(w, e, max))]
  }

  function CallsFor(w: World, events: seq<Event>, max: nat): seq<Call>
    requires max > 0
  {
    if events == [] then []
    else CallsFor(w, events[..|events| - 1], max) + EventCalls(w, events[|events| - 1], max)
  }

  /** How many events are begun before the context ends. */
  function Begun(w: World, n: nat, from: nat := 0): (k: nat)
    requires from <= n
    ensures from <= k <= n && (k < n ==> !w.alive(k)) && forall i | from <= i < k :: w.alive(i)
    decreases n - from
  {
    if from < n && w.alive(from) then Begun(w, n, from + 1) else from
  }

  function Tally(w: World, events: seq<Event>, max: nat): (r: DispatchResult)
    requires max > 0
    ensures r.processed == |events| == r.published + r.failed && r.stateUpdateFailed <= r.published
  {
    if events == [] then DispatchResult(0, 0, 0, 0)
    else
      var r, e := Tally(w, events[..|events| - 1], max), events[|events| - 1];
      if Publishes(w, e, max)
      then DispatchResult(r.processed + 1, r.published + 1, r.failed, r.stateUpdateFailed + if w.stored(e.id) then 0 else 1)
      else DispatchResult(r.processed + 1, r.published, r.failed + 1, r.stateUpdateFailed)
  }

  function PublishedMarks(calls: seq<Call>): nat {
    if calls == [] then 0 else PublishedMarks(calls[..|calls| - 1]) + if calls[|calls| - 1].MarkPublished? then 1 else 0
  }

  function OtherMarks(calls: seq<Call>): nat {
    if calls == [] then 0
    else OtherMarks(calls[..|calls| - 1]) + if calls[|calls| - 1].MarkFailed? || calls[|calls| - 1].MarkInvalid? then 1 else 0
  }

  function UnstoredMarks(w: World, calls: seq<Call>): nat {
    if calls == [] then 0
    else
      var last := calls[|calls| - 1];
      UnstoredMarks(w, calls[..|calls| - 1]) + if last.MarkPublished? && !w.stored(last.id) then 1 else 0
  }

  /** The counters are the marks made: PUBLISHED, FAILED or INVALID, and the PUBLISHED ones that were not stored. */
  predicate Counted(w: World, calls: seq<Call>, r: DispatchResult) {
    && r.published == PublishedMarks(calls) && r.failed == OtherMarks(calls) && r.stateUpdateFailed == UnstoredMarks(w, calls)
    && r.processed == PublishedMarks(calls) + OtherMarks(calls)
  }

  lemma {:induction false} HandlingIsNotMarking(w: World, calls: seq<Call>)
    requires forall i | 0 <= i < |calls| :: calls[i].Handle?
    ensures PublishedMarks(calls) == OtherMarks(calls) == UnstoredMarks(w, calls) == 0
  {
    if calls != [] {
      HandlingIsNotMarking(w, calls[..|calls| - 1]);
    }
  }

  lemma {:induction false} MarksAppend(w: World, a: seq<Call>, b: seq<Call>)
    ensures PublishedMarks(a + b) == PublishedMarks(a) + PublishedMarks(b) && OtherMarks(a + b) == OtherMarks(a) + OtherMarks(b)
    ensures UnstoredMarks(w, a + b) == UnstoredMarks(w, a) + UnstoredMarks(w, b)
  {
    if b == [] {
      assert a + b == a;
    } else {
      MarksAppend(w, a, b[..|b| - 1]);
      assert (a + b)[..|a + b| - 1] == a + b[..|b| - 1];
    }
  }

  lemma EventMarks(w: World, e: Event, max: nat)
    requires max > 0
    ensures var calls, published := EventCalls(w, e, max), if Publishes(w, e, max) then 1 else 0;
            && PublishedMarks(calls) == published && OtherMarks(calls) == 1 - published
            && UnstoredMarks(w, calls) == if w.stored(e.id) then 0 else published
  {
    hide LastAttempt, Reported;
    var handled, mark := HandlerCalls(w, e, LastAttempt(w, e, max) + 1), [Mark(w, e, Reported(w, e, max))];
    HandlingIsNotMarking(w, handled);
    MarksAppend(w, handled, mark);
    assert mark[..0] == [];
  }

  lemma {:induction false} TallyCountsMarks(w: World, events: seq<Event>, max: nat)
    requires max > 0
    ensures Counted(w, CallsFor(w, events, max), Tally(w, events, max))
  {
    if events != [] {
      hide EventCalls, Publishes, PublishedMarks, OtherMarks, UnstoredMarks;
      var n := |events| - 1;
      TallyCountsMarks(w, events[..n], max);
      EventMarks(w, events[n], max);
      MarksAppend(w, CallsFor(w, events[..n], max), EventCalls(w, events[n], max));
    }
  }

  /** The cycle's loop over the collected events. */
  method DispatchEvents(cfg: Config, w: World, events: seq<Event>) returns (result: DispatchResult, calls: seq<Call>)
    ensures calls == CallsFor(w, events[..Begun(w, |events|)], MaxAttempts(cfg))
    ensures result == Tally(w, events[..Begun(w, |events|)], MaxAttempts(cfg))
  {
    hide Begun, Reported, LastAttempt, HandlerCalls, MaxAttempts;
    var processed, published, failed, stateUpdateFailed := 0, 0, 0, 0;
    var max := MaxAttempts(cfg);
    calls := [];
    var i := 0;
    while i < |events| && w.alive(i)
      invariant 0 <= i <= |events| && forall k | 0 <= k < i :: w.alive(k)
      invariant calls == CallsFor(w, events[..i], max)
      invariant DispatchResult(processed, published, failed, stateUpdateFailed) == Tally(w, events[..i], max)
    {
      var e := events[i];
      processed := processed + 1;
      var report, attempts := PublishEventWithRetry(cfg, w, e);
      if report.Some? {
        failed := failed + 1;
      } else {
        published := published + 1;
        if !w.stored(e.id) {
          stateUpdateFailed := stateUpdateFailed + 1;
        }
      }
      calls := calls + (attempts + [Mark(w, e, report)]);
      assert events[..i + 1][..i] == events[..i];
      i := i + 1;
    }
    BegunIs(w, |events|, i);
    result := DispatchResult(processed, published, failed, stateUpdateFailed);
  }

  method DispatchOnceResult(cfg: Config, repo: Repository, w: World)
    returns (events: seq<Event>, asks: Asks, result: DispatchResult, calls: seq<Call>)
    ensures RightlyAsked(cfg, repo, asks) && Filled(repo, asks, LayersOf(cfg, repo))
    ensures FirstRows(AllRows(LayersOf(cfg, repo)), events)
    ensures Distinct(events) && (HonoursLimits(repo) ==> events == [] || |events| <= cfg.batchSize)
    ensures calls == CallsFor(w, events[..Begun(w, |events|)], MaxAttempts(cfg))
    ensures result == Tally(w, events[..Begun(w, |events|)], MaxAttempts(cfg))
    ensures forall id: Id :: Handles(calls, id) <= (if cfg.publishMaxAttempts > 0 then cfg.publishMaxAttempts else 3) && Marks(calls, id) <= 1
    ensures MarksAreTruthful(calls) && Counted(w, calls, result)
  {
    hide *;
    events, asks := CollectEvents(cfg, repo);
    result, calls := DispatchEvents(cfg, w, events);
    ghost var begun := events[..Begun(w, |events|)];
    CycleMarksAreTruthful(w, begun, MaxAttempts(cfg));
    PrefixDistinct(events, Begun(w, |events|));
    CallsWithinBudget(w, begun, MaxAttempts(cfg));
    TallyCountsMarks(w, begun, MaxAttempts(cfg));
  }

  lemma PrefixDistinct(events: seq<Event>, n: nat)
    requires Distinct(events) && n <= |events|
    ensures Distinct(events[..n])
  {
  }

  lemma BegunIs(w: World, n: nat, k: nat)
    requires k <= n && (k < n ==> !w.alive(k)) && forall i | 0 <= i < k :: w.alive(i)
    ensures Begun(w, n) == k
  {
    assert Begun(w, n) == n || !w.alive(Begun(w, n));
  }

  // ---------- what the calls of a cycle keep ----------

  function Handles(calls: seq<Call>, id: Id): nat {
    if calls == [] then 0
    else Handles(calls[..|calls| - 1], id) + if calls[|calls| - 1].Handle? && calls[|calls| - 1].id == id then 1 else 0
  }

  function Marks(calls: seq<Call>, id: Id): nat {
    if calls == [] then 0
    else Marks(calls[..|calls| - 1], id) + if !calls[|calls| - 1].Handle? && calls[|calls| - 1].id == id then 1 else 0
  }

  lemma {:induction false} CountsAppend(a: seq<Call>, b: seq<Call>, id: Id)
    ensures Handles(a + b, id) == Handles(a, id) + Handles(b, id) && Marks(a + b, id) == Marks(a, id) + Marks(b, id)
  {
    if b == [] {
      assert a + b == a;
    } else {
      CountsAppend(a, b[..|b| - 1], id);
      assert (a + b)[..|a + b| - 1] == a + b[..|b| - 1];
    }
  }

  lemma {:induction false} OnlyHandles(calls: seq<Call>, own: Id, id: Id)
    requires forall i | 0 <= i < |calls| :: calls[i].Handle? && calls[i].id == own
    ensures Handles(calls, id) == (if id == own then |calls| else 0) && Marks(calls, id) == 0
  {
    if calls != [] {
      OnlyHandles(calls[..|calls| - 1], own, id);
    }
  }

  lemma EventCounts(w: World, e: Event, max: nat, id: Id)
    requires max > 0
    ensures var calls := EventCalls(w, e, max);
            && Handles(calls, id) <= (if id == e.id then max else 0)
            && Marks(calls, id) == if id == e.id then 1 else 0
  {
    hide LastAttempt, Reported;
    var handled := HandlerCalls(w, e, LastAttempt(w, e, max) + 1);
    OnlyHandles(handled, e.id, id);
    CountsAppend(handled, [Mark(w, e, Reported(w, e, max))], id);
  }

  /** Over a cycle no event meets its handler more than `PublishMaxAttempts` times, each is marked exactly once, and
      nobody else is touched. */
  lemma {:induction false} CallsArePerEvent(w: World, events: seq<Event>, max: nat, id: Id)
    requires max > 0 && Distinct(events)
    ensures var calls := CallsFor(w, events, max);
            && Handles(calls, id) <= (if HasId(events, id) then max else 0)
            && Marks(calls, id) == if HasId(events, id) then 1 else 0
  {
    hide EventCalls;
    if events != [] {
      var n := |events| - 1;
      CallsArePerEvent(w, events[..n], max, id);
      EventCounts(w, events[n], max, id);
      CountsAppend(CallsFor(w, events[..n], max), EventCalls(w, events[n], max), id);
      HasIdAppend(events[..n], events[n]);
      assert events[..n] + [events[n]] == events;
    }
  }

  lemma CallsWithinBudget(w: World, events: seq<Event>, max: nat)
    requires max > 0 && Distinct(events)
    ensures forall id: Id :: Handles(CallsFor(w, events, max), id) <= max && Marks(CallsFor(w, events, max), id) <= 1
  {
    hide CallsFor;
    forall id: Id ensures Handles(CallsFor(w, events, max), id) <= max && Marks(CallsFor(w, events, max), id) <= 1 {
      CallsArePerEvent(w, events, max, id);
    }
  }

  /** A mark tells the truth: PUBLISHED follows at once on the handler's success, and the other marks come without one; a
      success is not handled again. */
  ghost predicate MarksAreTruthful(calls: seq<Call>) {
    forall i | 0 <= i < |calls| :: TruthfulAt(calls, i)
  }

  predicate TruthfulAt(calls: seq<Call>, i: nat)
    requires i < |calls|
  {
    && (!calls[i].Handle? ==> (calls[i].MarkPublished? <==> i > 0 && calls[i - 1] == Handle(calls[i].id, true)))
    && (calls[i].Handle? && calls[i].ok ==> i + 1 < |calls| && calls[i + 1] == MarkPublished(calls[i].id))
  }

  lemma EventMarkIsTruthful(w: World, e: Event, max: nat)
    requires max > 0
    ensures MarksAreTruthful(EventCalls(w, e, max))
  {
    hide LastAttempt;
    var last := LastAttempt(w, e, max);
    var calls := EventCalls(w, e, max);
    forall i | 0 <= i < |calls| ensures TruthfulAt(calls, i) {
      if i < last {
        assert !Stops(w, e, i, max);
      }
    }
  }

  lemma {:induction false} CycleMarksAreTruthful(w: World, events: seq<Event>, max: nat)
    requires max > 0
    ensures MarksAreTruthful(CallsFor(w, events, max))
  {
    hide EventCalls;
    if events != [] {
      var n := |events| - 1;
      CycleMarksAreTruthful(w, events[..n], max);
      EventMarkIsTruthful(w, events[n], max);
      var before, own := CallsFor(w, events[..n], max), EventCalls(w, events[n], max);
      var calls: seq<Call> := before + own;
      EventEndsMarked(w, events[..n], max);
      forall i | 0 <= i < |calls| ensures TruthfulAt(calls, i) {
        if i < |before| {
          assert TruthfulAt(before, i);
        } else {
          assert TruthfulAt(own, i - |before|);
        }
      }
    }
  }

  lemma EventEndsMarked(w: World, events: seq<Event>, max: nat)
    requires max > 0
    ensures var calls := CallsFor(w, events, max); calls != [] ==> !calls[|calls| - 1].Handle?
  {
    hide LastAttempt, Reported, HandlerCalls;
  }
}
