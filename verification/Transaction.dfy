/**
 Transaction intents: planning, balance eligibility and posting. Decimals are exact; what the decimal
 library decides by representation is a parameter: how `share / 100` rounds, and which values are in
 the supported range.
 */
module Transaction {
  import opened Text

  datatype Arithmetic = Arithmetic(percent: real -> real, bounded: real -> bool)

  datatype Operation = Debit | Credit | OnHold | Release | OtherOperation

  datatype Status = Created | Approved | Pending | Canceled | OtherStatus

  datatype Error =
    | InsufficientFunds | AccountIneligibility | StatusRestriction | AssetNotFound | ValueMismatch
    | Ambiguous | OnHoldExternal | DataCorruption | InvalidInput | InvalidStateTransition | CrossScope

  datatype Target = Target(accountId: string, balanceId: string)

  datatype Allocation = Allocation(target: Target, amount: Option<real>, share: Option<real>, remainder: bool, route: string)

  datatype Input = Input(asset: string, total: real, pending: bool, sources: seq<Allocation>, destinations: seq<Allocation>)

  datatype Posting = Posting(target: Target, asset: string, amount: real, operation: Operation, status: Status, route: string)

  datatype Plan = Plan(asset: string, total: real, pending: bool, sources: seq<Posting>, destinations: seq<Posting>)

  datatype Balance = Balance(
    id: string, organizationId: string, ledgerId: string, accountId: string, asset: string,
    available: real, onHold: real, version: int, external: bool, allowSending: bool, allowReceiving: bool)

  predicate TargetOk(t: Target) {
    TrimSpace(t.accountId) != "" && TrimSpace(t.balanceId) != ""
  }

  // ---------- operations and posting ----------

  function ResolveOperation(pending: bool, isSource: bool, status: Status): Result<Operation, Error> {
    if pending then
      match status
      case Pending => Success(if isSource then OnHold else Credit)
      case Canceled => Success(if isSource then Release else Debit)
      case Approved => Success(if isSource then Debit else Credit)
      case _ => Failure(InvalidStateTransition)
    else if status == Created then Success(if isSource then Debit else Credit)
    else Failure(InvalidStateTransition)
  }

  function ApplyOperation(b: Balance, p: Posting): Result<Balance, Error> {
    match p.operation
    case OnHold =>
      if p.status != Pending then Failure(InvalidStateTransition)
      else Success(b.(available := b.available - p.amount, onHold := b.onHold + p.amount))
    case Release =>
      if p.status != Canceled then Failure(InvalidStateTransition)
      else Success(b.(onHold := b.onHold - p.amount, available := b.available + p.amount))
    case Debit =>
      (match p.status
       case Approved => Success(b.(onHold := b.onHold - p.amount))
       case Created => Success(b.(available := b.available - p.amount))
       case Canceled => Success(b.(available := b.available - p.amount))
       case _ => Failure(InvalidStateTransition))
    case Credit =>
      if p.status in {Created, Approved, Pending} then Success(b.(available := b.available + p.amount))
      else Failure(InvalidStateTransition)
    case OtherOperation => Failure(InvalidInput)
  }

  function PostingError(ar: Arithmetic, b: Balance, p: Posting): Option<Error> {
    if !TargetOk(p.target) then Some(InvalidInput)
    else if b.id != p.target.balanceId || b.accountId != p.target.accountId then Some(AccountIneligibility)
    else if b.asset != p.asset then Some(AssetNotFound)
    else if !ar.bounded(p.amount) || p.amount <= 0.0 then Some(InvalidInput)
    else None
  }

  function ApplyPosting(ar: Arithmetic, b: Balance, p: Posting): Result<Balance, Error> {
    var error := PostingError(ar, b, p);
    if error.Some? then Failure(error.value)
    else
      var updated := ApplyOperation(b, p);
      if updated.Failure? then updated
      else if updated.value.available < 0.0 || updated.value.onHold < 0.0 then Failure(InsufficientFunds)
      else Success(updated.value.(version := updated.value.version + 1))
  }

  // ---------- planning ----------

  function StrategyCount(a: Allocation): int {
    (if a.amount.Some? then 1 else 0) + (if a.share.Some? then 1 else 0) + (if a.remainder then 1 else 0)
  }

  /** The allocation's own amount, or `None` when it takes the remainder. */
  function AllocationAmount(ar: Arithmetic, total: real, a: Allocation): Result<Option<real>, Error> {
    if a.amount.Some? then
      if !ar.bounded(a.amount.value) || a.amount.value <= 0.0 then Failure(InvalidInput) else Success(Some(a.amount.value))
    else if a.share.Some? then
      var share := a.share.value;
      if !ar.bounded(share) || share <= 0.0 || share > 100.0 then Failure(InvalidInput)
      else
        var amount := total * ar.percent(share);
        if amount <= 0.0 then Failure(InvalidInput) else Success(Some(amount))
    else if a.remainder then Success(None)
    else Failure(InvalidInput)
  }

  /** One posting with its own amount, or with 0 and `true` when the amount is still to come. */
  function PostingFrom(ar: Arithmetic, input: Input, status: Status, isSource: bool, a: Allocation)
    : Result<(Posting, bool), Error>
  {
    if !TargetOk(a.target) || StrategyCount(a) != 1 then Failure(InvalidInput)
    else
      var operation := ResolveOperation(input.pending, isSource, status);
      if operation.Failure? then Failure(operation.error)
      else
        var amount := AllocationAmount(ar, input.total, a);
        if amount.Failure? then Failure(amount.error)
        else
          var value := if amount.value.Some? then amount.value.value else 0.0;
          Success((Posting(a.target, input.asset, value, operation.value, status, a.route), amount.value.None?))
  }

  function Sum(ps: seq<Posting>): real {
    if ps == [] then 0.0 else Sum(ps[..|ps| - 1]) + ps[|ps| - 1].amount
  }

  /** The postings of a prefix of the allocations, and which one takes the remainder. */
  datatype Draft = Draft(postings: seq<Posting>, remainder: Option<nat>)

  function DraftOf(ar: Arithmetic, input: Input, status: Status, isSource: bool, allocations: seq<Allocation>)
    : (r: Result<Draft, Error>)
    ensures r.Success? ==> |r.value.postings| == |allocations|
    ensures r.Success? && r.value.remainder.Some? ==> r.value.remainder.value < |allocations|
  {
    if allocations == [] then Success(Draft([], None))
    else
      var n := |allocations| - 1;
      var front := DraftOf(ar, input, status, isSource, allocations[..n]);
      if front.Failure? then front
      else
        var last := PostingFrom(ar, input, status, isSource, allocations[n]);
        if last.Failure? then Failure(last.error)
        else if last.value.1 && front.value.remainder.Some? then Failure(InvalidInput)
        else Success(Draft(front.value.postings + [last.value.0], if last.value.1 then Some(n) else front.value.remainder))
  }

  function PostingsOf(ar: Arithmetic, input: Input, status: Status, isSource: bool, allocations: seq<Allocation>)
    : Result<seq<Posting>, Error>
  {
    var draft := DraftOf(ar, input, status, isSource, allocations);
    if draft.Failure? then Failure(draft.error)
    else
      var ps, covered := draft.value.postings, Sum(draft.value.postings);
      if draft.value.remainder.Some? then
        if input.total - covered <= 0.0 then Failure(ValueMismatch)
        else
          var i := draft.value.remainder.value;
          Success(ps[i := ps[i].(amount := input.total - covered)])
      else if covered != input.total then Failure(ValueMismatch)
      else Success(ps)
  }

  function BalanceIds(ps: seq<Posting>): set<string> {
    set p | p in ps :: p.target.balanceId
  }

  function PlanOf(ar: Arithmetic, input: Input, status: Status): Result<Plan, Error> {
    if TrimSpace(input.asset) == "" || !ar.bounded(input.total) || input.total <= 0.0
       || input.sources == [] || input.destinations == [] then Failure(InvalidInput)
    else
      var sources := PostingsOf(ar, input, status, true, input.sources);
      if sources.Failure? then Failure(sources.error)
      else
        var destinations := PostingsOf(ar, input, status, false, input.destinations);
        if destinations.Failure? then Failure(destinations.error)
        else if Sum(sources.value) != input.total || Sum(destinations.value) != input.total then Failure(ValueMismatch)
        else if BalanceIds(sources.value) !! BalanceIds(destinations.value) then
          Success(Plan(input.asset, input.total, input.pending, sources.value, destinations.value))
        else Failure(Ambiguous)
  }

  // ---------- the planner's loops ----------

  lemma SumAppend(ps: seq<Posting>, p: Posting)
    ensures Sum(ps + [p]) == Sum(ps) + p.amount
  {
    assert (ps + [p])[..|ps|] == ps;
  }

  method SumPostings(ps: seq<Posting>) returns (total: real)
    ensures total == Sum(ps)
  {
    total := 0.0;
    for i := 0 to |ps|
      invariant total == Sum(ps[..i])
    {
      assert ps[..i + 1] == ps[..i] + [ps[i]];
      SumAppend(ps[..i], ps[i]);
      total := total + ps[i].amount;
    }
    assert ps[..|ps|] == ps;
  }

  /** `buildPostings` computes the draft, then gives the remainder what is left of the total. */
  method BuildPostings(ar: Arithmetic, input: Input, status: Status, isSource: bool, allocations: seq<Allocation>)
    returns (r: Result<seq<Posting>, Error>)
    ensures r == PostingsOf(ar, input, status, isSource, allocations)
  {
    hide PostingFrom, DraftOf, Sum;
    var postings: seq<Posting>, covered, remainder := [], 0.0, -1;
    DraftStarts(ar, input, status, isSource);
    for i := 0 to |allocations|
      invariant -1 <= remainder < i
      invariant DraftOf(ar, input, status, isSource, allocations[..i])
             == Success(Draft(postings, if remainder < 0 then None else Some(remainder)))
      invariant covered == Sum(postings)
    {
      DraftGrows(ar, input, status, isSource, allocations, i);
      var built := PostingFrom(ar, input, status, isSource, allocations[i]);
      if built.Failure? {
        return Failure(built.error);
      }
      SumAppend(postings, built.value.0);
      RemainderIsZero(ar, input, status, isSource, allocations[i]);
      postings := postings + [built.value.0];
      if built.value.1 {
        if remainder >= 0 {
          return Failure(InvalidInput);
        }
        remainder := i;
      } else {
        covered := covered + built.value.0.amount;
      }
    }
    assert allocations[..|allocations|] == allocations;
    if remainder >= 0 {
      var rest := input.total - covered;
      if rest <= 0.0 {
        return Failure(ValueMismatch);
      }
      postings := postings[remainder := postings[remainder].(amount := rest)];
      covered := covered + rest;
    }
    if covered != input.total {
      return Failure(ValueMismatch);
    }
    r := Success(postings);
  }

  lemma RemainderIsZero(ar: Arithmetic, input: Input, status: Status, isSource: bool, a: Allocation)
    ensures var r := PostingFrom(ar, input, status, isSource, a);
            r.Success? ==> if r.value.1 then r.value.0.amount == 0.0 else r.value.0.amount > 0.0
  {
    hide TargetOk;
  }

  lemma DraftStarts(ar: Arithmetic, input: Input, status: Status, isSource: bool)
    ensures DraftOf(ar, input, status, isSource, []) == Success(Draft([], None)) && Sum([]) == 0.0
  {
  }

  /** A draft of a longer prefix is decided by the shorter one and the next allocation. */
  lemma DraftGrows(ar: Arithmetic, input: Input, status: Status, isSource: bool, allocations: seq<Allocation>, i: nat)
    requires i < |allocations|
    ensures
      var front := DraftOf(ar, input, status, isSource, allocations[..i]);
      var last := PostingFrom(ar, input, status, isSource, allocations[i]);
      var full := DraftOf(ar, input, status, isSource, allocations[..i + 1]);
      && (front.Failure? ==> full == front)
      && (front.Success? && last.Failure? ==> full == Failure(last.error))
      && (front.Success? && last.Success? ==>
            full == if last.value.1 && front.value.remainder.Some? then Failure(InvalidInput)
                    else Success(Draft(front.value.postings + [last.value.0],
                                       if last.value.1 then Some(i) else front.value.remainder)))
    ensures
      DraftOf(ar, input, status, isSource, allocations[..i + 1]).Failure? ==>
        DraftOf(ar, input, status, isSource, allocations) == DraftOf(ar, input, status, isSource, allocations[..i + 1])
    decreases |allocations| - i
  {
    assert allocations[..i + 1][..i] == allocations[..i];
    assert allocations[..|allocations|] == allocations;
    if i + 1 < |allocations| {
      DraftGrows(ar, input, status, isSource, allocations, i + 1);
    }
  }

  /** `BuildIntentPlan`. */
  method BuildIntentPlan(ar: Arithmetic, input: Input, status: Status) returns (r: Result<Plan, Error>)
    ensures r == PlanOf(ar, input, status)
  {
    hide TrimSpace, PostingsOf, Sum;
    if TrimSpace(input.asset) == "" || !ar.bounded(input.total) || input.total <= 0.0 {
      return Failure(InvalidInput);
    }
    if input.sources == [] || input.destinations == [] {
      return Failure(InvalidInput);
    }
    var sources := BuildPostings(ar, input, status, true, input.sources);
    if sources.Failure? {
      return Failure(sources.error);
    }
    var destinations := BuildPostings(ar, input, status, false, input.destinations);
    if destinations.Failure? {
      return Failure(destinations.error);
    }
    var sourceTotal := SumPostings(sources.value);
    var destinationTotal := SumPostings(destinations.value);
    if sourceTotal != input.total || destinationTotal != input.total {
      return Failure(ValueMismatch);
    }
    var sourceIds: set<string> := {};
    for i := 0 to |sources.value|
      invariant sourceIds == BalanceIds(sources.value[..i])
    {
      sourceIds := sourceIds + {sources.value[i].target.balanceId};
    }
    for i := 0 to |destinations.value|
      invariant sourceIds !! BalanceIds(destinations.value[..i])
    {
      if destinations.value[i].target.balanceId in sourceIds {
        assert destinations.value[i] in destinations.value;
        assert sources.value[..|sources.value|] == sources.value;
        return Failure(Ambiguous);
      }
    }
    assert sources.value[..|sources.value|] == sources.value;
    assert destinations.value[..|destinations.value|] == destinations.value;
    r := Success(Plan(input.asset, input.total, input.pending, sources.value, destinations.value));
  }

  // ---------- eligibility ----------

  datatype Scope = Scope(organizationId: string, ledgerId: string)

  const NO_SCOPE := Scope("", "")

  function ScopeOf(b: Balance): Scope { Scope(b.organizationId, b.ledgerId) }

  /** `validateScope`: the reference scope afterwards, or the refusal. */
  function CheckScope(reference: Scope, b: Balance): Result<Scope, Error> {
    if ScopeOf(b) == NO_SCOPE then Success(reference)
    else if reference == NO_SCOPE then Success(ScopeOf(b))
    else if ScopeOf(b) != reference then Failure(CrossScope)
    else Success(reference)
  }

  function CheckSource(ar: Arithmetic, plan: Plan, p: Posting, balances: map<string, Balance>, reference: Scope)
    : Result<Scope, Error>
  {
    if p.target.balanceId !in balances then Failure(AccountIneligibility)
    else
      var b := balances[p.target.balanceId];
      if b.accountId != p.target.accountId then Failure(AccountIneligibility)
      else
        var scope := CheckScope(reference, b);
        if scope.Failure? then scope
        else if b.asset != plan.asset then Failure(AssetNotFound)
        else if !b.allowSending then Failure(StatusRestriction)
        else if !ar.bounded(p.amount) then Failure(InvalidInput)
        else if b.available < p.amount then Failure(InsufficientFunds)
        else if plan.pending && b.external then Failure(OnHoldExternal)
        else scope
  }

  function CheckDestination(plan: Plan, p: Posting, balances: map<string, Balance>, reference: Scope)
    : Result<Scope, Error>
  {
    if p.target.balanceId !in balances then Failure(AccountIneligibility)
    else
      var b := balances[p.target.balanceId];
      if b.accountId != p.target.accountId then Failure(AccountIneligibility)
      else
        var scope := CheckScope(reference, b);
        if scope.Failure? then scope
        else if b.asset != plan.asset then Failure(AssetNotFound)
        else if !b.allowReceiving then Failure(StatusRestriction)
        else if b.external && b.available < 0.0 then Failure(DataCorruption)
        else if b.external && b.available > 0.0 then Failure(InsufficientFunds)
        else scope
  }

  /** What acceptance means, posting by posting. */
  predicate SourceEligible(ar: Arithmetic, plan: Plan, p: Posting, balances: map<string, Balance>) {
    && p.target.balanceId in balances
    && var b := balances[p.target.balanceId];
       && b.accountId == p.target.accountId && b.asset == plan.asset && b.allowSending
       && ar.bounded(p.amount) && p.amount <= b.available
       && !(plan.pending && b.external)
  }

  predicate DestinationEligible(plan: Plan, p: Posting, balances: map<string, Balance>) {
    && p.target.balanceId in balances
    && var b := balances[p.target.balanceId];
       && b.accountId == p.target.accountId && b.asset == plan.asset && b.allowReceiving
       && (b.external ==> b.available == 0.0)
  }

  /** The postings' balances that carry a scope all carry `scope`. */
  predicate InScope(ps: seq<Posting>, balances: map<string, Balance>, scope: Scope) {
    forall p | p in ps && p.target.balanceId in balances ::
      ScopeOf(balances[p.target.balanceId]) == NO_SCOPE || ScopeOf(balances[p.target.balanceId]) == scope
  }

  ghost predicate Eligible(ar: Arithmetic, plan: Plan, balances: map<string, Balance>) {
    && balances != map[]
    && (forall p | p in plan.sources :: SourceEligible(ar, plan, p, balances))
    && (forall p | p in plan.destinations :: DestinationEligible(plan, p, balances))
    && exists scope :: InScope(plan.sources + plan.destinations, balances, scope)
  }

  /** What a scan of the first postings has established; no scope seen means none carries one. */
  predicate Scanned(ps: seq<Posting>, balances: map<string, Balance>, reference: Scope) {
    && InScope(ps, balances, reference)
    && (reference != NO_SCOPE ==>
          exists p | p in ps :: p.target.balanceId in balances && ScopeOf(balances[p.target.balanceId]) == reference)
  }

  lemma ScanStep(ps: seq<Posting>, p: Posting, balances: map<string, Balance>, reference: Scope)
    requires Scanned(ps, balances, reference) && p.target.balanceId in balances
    ensures var checked := CheckScope(reference, balances[p.target.balanceId]);
            if checked.Success? then Scanned(ps + [p], balances, checked.value)
            else forall scope :: !InScope(ps + [p], balances, scope)
  {
    var checked := CheckScope(reference, balances[p.target.balanceId]);
    assert p in ps + [p] && forall q | q in ps :: q in ps + [p];
    if checked.Failure? {
      var q :| q in ps && q.target.balanceId in balances && ScopeOf(balances[q.target.balanceId]) == reference;
      assert q in ps + [p];
    }
  }

  lemma Decisions(ar: Arithmetic, plan: Plan, p: Posting, balances: map<string, Balance>, reference: Scope)
    requires p.target.balanceId in balances
    ensures var scope := CheckScope(reference, balances[p.target.balanceId]);
            var source := CheckSource(ar, plan, p, balances, reference);
            var destination := CheckDestination(plan, p, balances, reference);
            && (source.Success? <==> scope.Success? && SourceEligible(ar, plan, p, balances))
            && (source.Success? ==> source == scope)
            && (destination.Success? <==> scope.Success? && DestinationEligible(plan, p, balances))
            && (destination.Success? ==> destination == scope)
  {
  }

  /** Every posting before the one refused is eligible, and the error is that posting's. */
  ghost predicate FirstRefused(ar: Arithmetic, plan: Plan, balances: map<string, Balance>, error: Error) {
    || (exists i, reference | 0 <= i < |plan.sources| ::
          && (forall p | p in plan.sources[..i] :: SourceEligible(ar, plan, p, balances))
          && Scanned(plan.sources[..i], balances, reference)
          && CheckSource(ar, plan, plan.sources[i], balances, reference) == Failure(error))
    || (exists i, reference | 0 <= i < |plan.destinations| ::
          && (forall p | p in plan.sources :: SourceEligible(ar, plan, p, balances))
          && (forall p | p in plan.destinations[..i] :: DestinationEligible(plan, p, balances))
          && Scanned(plan.sources + plan.destinations[..i], balances, reference)
          && CheckDestination(plan, plan.destinations[i], balances, reference) == Failure(error))
  }

  /** `ValidateBalanceEligibility` accepts exactly the eligible plans and reports the first refusal. */
  method ValidateBalanceEligibility(ar: Arithmetic, plan: Plan, balances: map<string, Balance>)
    returns (r: Result<(), Error>)
    ensures r.Success? <==> Eligible(ar, plan, balances)
    ensures r.Failure? ==>
              if balances == map[] then r.error == AccountIneligibility else FirstRefused(ar, plan, balances, r.error)
  {
    hide CheckScope;
    if |balances| == 0 {
      return Failure(AccountIneligibility);
    }
    var all := plan.sources + plan.destinations;
    var reference := NO_SCOPE;
    for i := 0 to |plan.sources|
      invariant forall p | p in plan.sources[..i] :: SourceEligible(ar, plan, p, balances)
      invariant Scanned(plan.sources[..i], balances, reference)
    {
      var p := plan.sources[i];
      assert p in plan.sources && plan.sources[..i + 1] == plan.sources[..i] + [p];
      var checked := CheckSource(ar, plan, p, balances, reference);
      if p.target.balanceId in balances {
        Decisions(ar, plan, p, balances, reference);
        ScanStep(plan.sources[..i], p, balances, reference);
      }
      if checked.Failure? {
        PrefixOutOfScope(all, plan.sources[..i + 1], balances);
        return Failure(checked.error);
      }
      reference := checked.value;
    }
    assert plan.sources[..|plan.sources|] + plan.destinations[..0] == plan.sources;
    for i := 0 to |plan.destinations|
      invariant forall p | p in plan.destinations[..i] :: DestinationEligible(plan, p, balances)
      invariant Scanned(plan.sources + plan.destinations[..i], balances, reference)
    {
      var p := plan.destinations[i];
      var seen := plan.sources + plan.destinations[..i];
      assert p in plan.destinations && plan.sources + plan.destinations[..i + 1] == seen + [p];
      var checked := CheckDestination(plan, p, balances, reference);
      if p.target.balanceId in balances {
        Decisions(ar, plan, p, balances, reference);
        ScanStep(seen, p, balances, reference);
      }
      if checked.Failure? {
        PrefixOutOfScope(all, seen + [p], balances);
        return Failure(checked.error);
      }
      reference := checked.value;
    }
    assert plan.destinations[..|plan.destinations|] == plan.destinations;
    assert InScope(all, balances, reference);
    r := Success(());
  }

  lemma PrefixOutOfScope(all: seq<Posting>, prefix: seq<Posting>, balances: map<string, Balance>)
    requires prefix <= all
    ensures forall scope :: InScope(all, balances, scope) ==> InScope(prefix, balances, scope)
  {
  }
}
