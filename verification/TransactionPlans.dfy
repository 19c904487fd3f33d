/** Which inputs can be planned, what each allocation gets, and which postings apply: each exactly. */
module TransactionPlans {
  import opened Text
  import opened Transaction
  import opened TransactionLaws

  // ---------- what an allocation asks for ----------

  /** The one way in which an allocation may state its amount. */
  datatype Strategy = Stated(amount: real) | Percent(share: real) | TakesRest

  function StrategyOf(a: Allocation): Option<Strategy> {
    match (a.amount, a.share, a.remainder)
    case (Some(amount), None, false) => Some(Stated(amount))
    case (None, Some(share), false) => Some(Percent(share))
    case (None, None, true) => Some(TakesRest)
    case _ => None
  }

  /** The amount that does not depend on the other allocations; none for the one that takes the rest. */
  function OwnAmount(ar: Arithmetic, total: real, a: Allocation): real {
    match StrategyOf(a)
    case Some(Stated(amount)) => amount
    case Some(Percent(share)) => total * ar.percent(share)
    case _ => 0.0
  }

  predicate TakesTheRest(a: Allocation) { StrategyOf(a) == Some(TakesRest) }

  predicate AllocationOk(ar: Arithmetic, total: real, a: Allocation) {
    && TargetOk(a.target)
    && match StrategyOf(a)
       case None => false
       case Some(Stated(amount)) => ar.bounded(amount) && amount > 0.0
       case Some(Percent(share)) => ar.bounded(share) && 0.0 < share <= 100.0 && total * ar.percent(share) > 0.0
       case Some(TakesRest) => true
  }

  function OwnTotal(ar: Arithmetic, total: real, allocations: seq<Allocation>): real {
    if allocations == [] then 0.0
    else OwnTotal(ar, total, allocations[..|allocations| - 1]) + OwnAmount(ar, total, allocations[|allocations| - 1])
  }

  predicate HasRest(allocations: seq<Allocation>) { exists a | a in allocations :: TakesTheRest(a) }

  predicate OneRest(allocations: seq<Allocation>) {
    forall i, j | 0 <= i < j < |allocations| :: !(TakesTheRest(allocations[i]) && TakesTheRest(allocations[j]))
  }

  predicate SideSound(ar: Arithmetic, total: real, allocations: seq<Allocation>) {
    (forall a | a in allocations :: AllocationOk(ar, total, a)) && OneRest(allocations)
  }

  /** The amounts make up the total, leaving a positive rest when somebody takes it. */
  predicate AddsUp(ar: Arithmetic, total: real, allocations: seq<Allocation>) {
    if HasRest(allocations) then OwnTotal(ar, total, allocations) < total else OwnTotal(ar, total, allocations) == total
  }

  /** The posting an allocation of a side gets. */
  function Expected(ar: Arithmetic, input: Input, allocations: seq<Allocation>, a: Allocation, operation: Operation, status: Status): Posting {
    Posting(a.target, input.asset,
            if TakesTheRest(a) then input.total - OwnTotal(ar, input.total, allocations) else OwnAmount(ar, input.total, a),
            operation, status, a.route)
  }

  /** A target needs an account and a balance that are not blank. */
  lemma TargetIsNamed(t: Target)
    ensures TargetOk(t) <==> (exists c | c in t.accountId :: !IsSpace(c)) && (exists c | c in t.balanceId :: !IsSpace(c))
  {
    hide Trim;
    TrimEmpty(t.accountId, IsSpace);
    TrimEmpty(t.balanceId, IsSpace);
  }

  // ---------- one side ----------

  lemma AmountExactly(ar: Arithmetic, total: real, a: Allocation)
    ensures StrategyCount(a) == 1 <==> StrategyOf(a).Some?
    ensures StrategyOf(a).Some? && TargetOk(a.target) ==>
              var r := AllocationAmount(ar, total, a);
              && (AllocationOk(ar, total, a) <==> r.Success?) && (r.Failure? ==> r.error == InvalidInput)
              && (r.Success? ==> if TakesTheRest(a) then r.value.None? else r.value.Some? && r.value.value == OwnAmount(ar, total, a))
    ensures TakesTheRest(a) ==> OwnAmount(ar, total, a) == 0.0
    ensures AllocationOk(ar, total, a) ==> TargetOk(a.target) && StrategyOf(a).Some?
  {
    hide TargetOk;
  }

  lemma PostingExactly(ar: Arithmetic, input: Input, status: Status, isSource: bool, a: Allocation)
    requires ResolveOperation(input.pending, isSource, status).Success?
    ensures var operation := ResolveOperation(input.pending, isSource, status).value;
            var r := PostingFrom(ar, input, status, isSource, a);
            if AllocationOk(ar, input.total, a)
            then r.Success? && r.value == (Posting(a.target, input.asset, OwnAmount(ar, input.total, a), operation, status, a.route), TakesTheRest(a))
            else r.Failure? && r.error == InvalidInput
  {
    hide TargetOk, ResolveOperation, StrategyCount, StrategyOf, AllocationAmount, AllocationOk, OwnAmount, TakesTheRest;
    AmountExactly(ar, input.total, a);
  }

  lemma RestAppends(front: seq<Allocation>, last: Allocation)
    ensures HasRest(front + [last]) <==> HasRest(front) || TakesTheRest(last)
    ensures OneRest(front + [last]) <==> OneRest(front) && !(HasRest(front) && TakesTheRest(last))
  {
    hide TakesTheRest;
    var all := front + [last];
    assert forall i | 0 <= i < |front| :: all[i] == front[i];
    assert all[|front|] == last;
    if HasRest(front) {
      var a :| a in front && TakesTheRest(a);
      var i :| 0 <= i < |front| && front[i] == a;
      assert all[i] in all && TakesTheRest(all[i]);
    }
    if TakesTheRest(last) {
      assert last in all;
    }
  }

  lemma SideAppends(ar: Arithmetic, total: real, front: seq<Allocation>, last: Allocation)
    ensures SideSound(ar, total, front + [last]) <==>
              SideSound(ar, total, front) && AllocationOk(ar, total, last) && !(HasRest(front) && TakesTheRest(last))
    ensures HasRest(front + [last]) <==> HasRest(front) || TakesTheRest(last)
    ensures OwnTotal(ar, total, front + [last]) == OwnTotal(ar, total, front) + OwnAmount(ar, total, last)
  {
    hide AllocationOk, OneRest, HasRest, TakesTheRest, OwnAmount;
    RestAppends(front, last);
    assert (front + [last])[..|front|] == front;
    assert last in front + [last];
    assert forall a | a in front :: a in front + [last];
  }

  lemma {:induction false} DraftExactly(ar: Arithmetic, input: Input, status: Status, isSource: bool, allocations: seq<Allocation>)
    requires ResolveOperation(input.pending, isSource, status).Success?
    ensures var d := DraftOf(ar, input, status, isSource, allocations);
            if SideSound(ar, input.total, allocations)
            then d.Success? && Sum(d.value.postings) == OwnTotal(ar, input.total, allocations) && d.value.remainder.Some? == HasRest(allocations)
            else d.Failure? && d.error == InvalidInput
  {
    hide PostingFrom, ResolveOperation, AllocationOk, OwnAmount, TakesTheRest;
    if allocations != [] {
      hide SideSound, HasRest, OwnTotal, Sum;
      var n := |allocations| - 1;
      var front, last := allocations[..n], allocations[n];
      assert allocations == front + [last];
      DraftExactly(ar, input, status, isSource, front);
      PostingExactly(ar, input, status, isSource, last);
      SideAppends(ar, input.total, front, last);
      var d := DraftOf(ar, input, status, isSource, front);
      if d.Success? && AllocationOk(ar, input.total, last) {
        SumAppend(d.value.postings, PostingFrom(ar, input, status, isSource, last).value.0);
      }
    }
  }

  lemma SideExactly(ar: Arithmetic, input: Input, status: Status, isSource: bool, allocations: seq<Allocation>)
    requires ResolveOperation(input.pending, isSource, status).Success?
    ensures var r := PostingsOf(ar, input, status, isSource, allocations);
            if !SideSound(ar, input.total, allocations) then r.Failure? && r.error == InvalidInput
            else if !AddsUp(ar, input.total, allocations) then r.Failure? && r.error == ValueMismatch
            else r.Success?
  {
    hide DraftOf, SideSound, HasRest, Sum, OwnTotal, ResolveOperation;
    DraftExactly(ar, input, status, isSource, allocations);
  }

  lemma SideAmounts(ar: Arithmetic, input: Input, status: Status, isSource: bool, allocations: seq<Allocation>, i: nat)
    requires PostingsOf(ar, input, status, isSource, allocations).Success? && i < |allocations|
    requires ResolveOperation(input.pending, isSource, status).Success?
    ensures var ps := PostingsOf(ar, input, status, isSource, allocations).value;
            |ps| == |allocations|
            && ps[i] == Expected(ar, input, allocations, allocations[i], ResolveOperation(input.pending, isSource, status).value, status)
  {
    hide PostingFrom, DraftOf, AllocationOk, OneRest, HasRest, Sum, OwnTotal, OwnAmount, TakesTheRest, ResolveOperation;
    DraftExactly(ar, input, status, isSource, allocations);
    DraftShape(ar, input, status, isSource, allocations);
    PostingExactly(ar, input, status, isSource, allocations[i]);
    assert allocations[i] in allocations;
  }

  lemma SideTargets(ar: Arithmetic, input: Input, status: Status, isSource: bool, allocations: seq<Allocation>)
    requires PostingsOf(ar, input, status, isSource, allocations).Success?
    ensures var ps := PostingsOf(ar, input, status, isSource, allocations).value;
            |ps| == |allocations| && Sum(ps) == input.total && forall i | 0 <= i < |ps| :: ps[i].target == allocations[i].target
  {
    hide PostingsOf, Sum, TargetOk, ResolveOperation;
    SideShape(ar, input, status, isSource, allocations);
  }

  // ---------- the whole plan ----------

  /** The statuses a transaction of each kind can be planned in. */
  predicate Resolvable(pending: bool, status: Status) {
    if pending then status in {Pending, Approved, Canceled} else status == Created
  }

  predicate HeaderOk(ar: Arithmetic, input: Input) {
    && TrimSpace(input.asset) != "" && ar.bounded(input.total) && input.total > 0.0
    && input.sources != [] && input.destinations != []
  }

  predicate Apart(input: Input) {
    forall a, b | a in input.sources && b in input.destinations :: a.target.balanceId != b.target.balanceId
  }

  /** Everything but the separation of the two sides. */
  predicate Balanced(ar: Arithmetic, input: Input, status: Status) {
    && HeaderOk(ar, input) && Resolvable(input.pending, status)
    && SideSound(ar, input.total, input.sources) && AddsUp(ar, input.total, input.sources)
    && SideSound(ar, input.total, input.destinations) && AddsUp(ar, input.total, input.destinations)
  }

  /** A side fails to add up; the sources are judged first, so theirs hides a fault of the destinations. */
  predicate Mismatched(ar: Arithmetic, input: Input, status: Status) {
    && HeaderOk(ar, input) && Resolvable(input.pending, status) && SideSound(ar, input.total, input.sources)
    && (AddsUp(ar, input.total, input.sources) ==>
          SideSound(ar, input.total, input.destinations) && !AddsUp(ar, input.total, input.destinations))
  }

  lemma Resolves(pending: bool, status: Status)
    ensures forall isSource: bool :: var r := ResolveOperation(pending, isSource, status);
                                     if Resolvable(pending, status) then r.Success? else r == Failure(InvalidStateTransition)
  {
  }

  /** Without an operation, the first allocation decides the error. */
  lemma UnresolvedFails(ar: Arithmetic, input: Input, status: Status, isSource: bool, allocations: seq<Allocation>)
    requires ResolveOperation(input.pending, isSource, status) == Failure(InvalidStateTransition) && allocations != []
    ensures PostingsOf(ar, input, status, isSource, allocations)
         == Failure(if TargetOk(allocations[0].target) && StrategyOf(allocations[0]).Some? then InvalidStateTransition else InvalidInput)
  {
    hide TargetOk, ResolveOperation;
    DraftStarts(ar, input, status, isSource);
    assert allocations[..0] == [];
    DraftGrows(ar, input, status, isSource, allocations, 0);
  }

  lemma ApartIds(ps: seq<Posting>, qs: seq<Posting>, input: Input)
    requires |ps| == |input.sources| && |qs| == |input.destinations|
    requires forall i | 0 <= i < |ps| :: ps[i].target == input.sources[i].target
    requires forall i | 0 <= i < |qs| :: qs[i].target == input.destinations[i].target
    ensures BalanceIds(ps) !! BalanceIds(qs) <==> Apart(input)
  {
    if Apart(input) {
      forall p, q | p in ps && q in qs ensures p.target.balanceId != q.target.balanceId {
        var i :| 0 <= i < |ps| && ps[i] == p;
        var j :| 0 <= j < |qs| && qs[j] == q;
        assert input.sources[i] in input.sources && input.destinations[j] in input.destinations;
      }
    }
    if BalanceIds(ps) !! BalanceIds(qs) {
      forall a, b | a in input.sources && b in input.destinations ensures a.target.balanceId != b.target.balanceId {
        var i :| 0 <= i < |ps| && input.sources[i] == a;
        var j :| 0 <= j < |qs| && input.destinations[j] == b;
        assert ps[i].target.balanceId in BalanceIds(ps) && qs[j].target.balanceId in BalanceIds(qs);
      }
    }
  }

  /** A plan exists exactly for balanced sides that share no balance, and each error has its exact cause. */
  lemma PlanExactly(ar: Arithmetic, input: Input, status: Status)
    ensures PlanOf(ar, input, status).Success? <==> Balanced(ar, input, status) && Apart(input)
    ensures PlanOf(ar, input, status) == Failure(Ambiguous) <==> Balanced(ar, input, status) && !Apart(input)
    ensures PlanOf(ar, input, status) == Failure(ValueMismatch) <==> Mismatched(ar, input, status)
    ensures PlanOf(ar, input, status) == Failure(InvalidStateTransition) <==>
              && HeaderOk(ar, input) && !Resolvable(input.pending, status)
              && TargetOk(input.sources[0].target) && StrategyOf(input.sources[0]).Some?
    ensures PlanOf(ar, input, status).Failure? ==>
              PlanOf(ar, input, status).error in {InvalidInput, InvalidStateTransition, ValueMismatch, Ambiguous}
  {
    hide PostingsOf, SideSound, AddsUp, TrimSpace, TargetOk, StrategyOf, Sum, BalanceIds, ResolveOperation, Resolvable, Apart;
    Resolves(input.pending, status);
    if HeaderOk(ar, input) {
      if !Resolvable(input.pending, status) {
        UnresolvedFails(ar, input, status, true, input.sources);
      } else {
        SideExactly(ar, input, status, true, input.sources);
        SideExactly(ar, input, status, false, input.destinations);
        var sources := PostingsOf(ar, input, status, true, input.sources);
        var destinations := PostingsOf(ar, input, status, false, input.destinations);
        if sources.Success? && destinations.Success? {
          SideTargets(ar, input, status, true, input.sources);
          SideTargets(ar, input, status, false, input.destinations);
          ApartIds(sources.value, destinations.value, input);
        }
      }
    }
  }

  lemma PlanSides(ar: Arithmetic, input: Input, status: Status)
    requires PlanOf(ar, input, status).Success?
    ensures ResolveOperation(input.pending, true, status).Success? && ResolveOperation(input.pending, false, status).Success?
    ensures var sources := PostingsOf(ar, input, status, true, input.sources);
            var destinations := PostingsOf(ar, input, status, false, input.destinations);
            && sources.Success? && destinations.Success?
            && |sources.value| == |input.sources| && |destinations.value| == |input.destinations|
            && PlanOf(ar, input, status).value == Plan(input.asset, input.total, input.pending, sources.value, destinations.value)
  {
    hide PostingsOf, TrimSpace, Sum, BalanceIds, ResolveOperation, Resolvable;
    PlanExactly(ar, input, status);
    Resolves(input.pending, status);
    SideTargets(ar, input, status, true, input.sources);
    SideTargets(ar, input, status, false, input.destinations);
  }

  /** Every posting of a plan carries its allocation's target and route, the input's asset, and the amount its strategy fixes. */
  lemma PlanAmounts(ar: Arithmetic, input: Input, status: Status)
    requires PlanOf(ar, input, status).Success?
    ensures ResolveOperation(input.pending, true, status).Success? && ResolveOperation(input.pending, false, status).Success?
    ensures var plan := PlanOf(ar, input, status).value;
            && plan == Plan(input.asset, input.total, input.pending, plan.sources, plan.destinations)
            && |plan.sources| == |input.sources| && |plan.destinations| == |input.destinations|
            && (forall i | 0 <= i < |input.sources| ::
                  plan.sources[i] == Expected(ar, input, input.sources, input.sources[i], ResolveOperation(input.pending, true, status).value, status))
            && (forall i | 0 <= i < |input.destinations| ::
                  plan.destinations[i] == Expected(ar, input, input.destinations, input.destinations[i], ResolveOperation(input.pending, false, status).value, status))
  {
    hide PlanOf, PostingsOf, ResolveOperation, Expected;
    PlanSides(ar, input, status);
    forall i | 0 <= i < |input.sources|
      ensures PostingsOf(ar, input, status, true, input.sources).value[i]
           == Expected(ar, input, input.sources, input.sources[i], ResolveOperation(input.pending, true, status).value, status)
    {
      SideAmounts(ar, input, status, true, input.sources, i);
    }
    forall i | 0 <= i < |input.destinations|
      ensures PostingsOf(ar, input, status, false, input.destinations).value[i]
           == Expected(ar, input, input.destinations, input.destinations[i], ResolveOperation(input.pending, false, status).value, status)
    {
      SideAmounts(ar, input, status, false, input.destinations, i);
    }
  }

  // ---------- one posting ----------

  /** The operations each status admits. */
  predicate Admits(status: Status, operation: Operation) {
    match operation
    case OnHold => status == Pending
    case Release => status == Canceled
    case Debit => status in {Created, Approved, Canceled}
    case Credit => status in {Created, Approved, Pending}
    case OtherOperation => false
  }

  predicate Names(b: Balance, t: Target) {
    TargetOk(t) && b.id == t.balanceId && b.accountId == t.accountId
  }

  predicate Postable(ar: Arithmetic, b: Balance, p: Posting) {
    Names(b, p.target) && b.asset == p.asset && ar.bounded(p.amount) && p.amount > 0.0
  }

  /** A posting applies exactly when it names this balance, its account and its asset, with a positive amount in range, its
      status admits its operation, and the funds it draws on suffice; it then moves them by its delta and counts a version. */
  lemma PostingExactlyApplies(ar: Arithmetic, b: Balance, p: Posting)
    ensures ApplyPosting(ar, b, p).Success? <==>
              Postable(ar, b, p) && Admits(p.status, p.operation) && Affords(Funds(b), DeltaOf(p))
    ensures ApplyPosting(ar, b, p).Success? ==>
              ApplyPosting(ar, b, p).value == b.(available := b.available + DeltaOf(p).available, onHold := b.onHold + DeltaOf(p).onHold,
                                                 version := b.version + 1)
  {
    hide TargetOk;
  }

  /** Each refusal of a posting has its exact cause. */
  lemma PostingRefused(ar: Arithmetic, b: Balance, p: Posting)
    requires ApplyPosting(ar, b, p).Failure?
    ensures var e := ApplyPosting(ar, b, p).error;
            && (e == InsufficientFunds <==> Postable(ar, b, p) && Admits(p.status, p.operation))
            && (e == InvalidStateTransition <==> Postable(ar, b, p) && p.operation != OtherOperation && !Admits(p.status, p.operation))
            && (e == AssetNotFound <==> Names(b, p.target) && b.asset != p.asset)
            && (e == AccountIneligibility <==> TargetOk(p.target) && !Names(b, p.target))
            && e in {InsufficientFunds, InvalidStateTransition, AssetNotFound, AccountIneligibility, InvalidInput}
  {
    hide TargetOk;
  }

  // ---------- eligibility ----------

  /** The posting's balance exists and belongs to its account. */
  predicate Found(p: Posting, balances: map<string, Balance>) {
    p.target.balanceId in balances && balances[p.target.balanceId].accountId == p.target.accountId
  }

  predicate Crosses(b: Balance, reference: Scope) {
    ScopeOf(b) != NO_SCOPE && reference != NO_SCOPE && ScopeOf(b) != reference
  }

  /** Each refusal of a source has its exact cause: existence, then scope, asset, permission, range, funds, kind. */
  lemma SourceRefused(ar: Arithmetic, plan: Plan, p: Posting, balances: map<string, Balance>, reference: Scope)
    requires CheckSource(ar, plan, p, balances, reference).Failure?
    ensures var e := CheckSource(ar, plan, p, balances, reference).error;
            if !Found(p, balances) then e == AccountIneligibility
            else
              var b := balances[p.target.balanceId];
              && (e == CrossScope <==> Crosses(b, reference))
              && (e == AssetNotFound <==> !Crosses(b, reference) && b.asset != plan.asset)
              && (e == StatusRestriction <==> !Crosses(b, reference) && b.asset == plan.asset && !b.allowSending)
              && (e == InsufficientFunds ==> ar.bounded(p.amount) && b.available < p.amount)
              && (e == OnHoldExternal ==> plan.pending && b.external && p.amount <= b.available)
              && (e == InvalidInput ==> !ar.bounded(p.amount))
              && e in {CrossScope, AssetNotFound, StatusRestriction, InvalidInput, InsufficientFunds, OnHoldExternal}
  {
  }

  /** Likewise for a destination; an external balance must be at zero. */
  lemma DestinationRefused(plan: Plan, p: Posting, balances: map<string, Balance>, reference: Scope)
    requires CheckDestination(plan, p, balances, reference).Failure?
    ensures var e := CheckDestination(plan, p, balances, reference).error;
            if !Found(p, balances) then e == AccountIneligibility
            else
              var b := balances[p.target.balanceId];
              && (e == CrossScope <==> Crosses(b, reference))
              && (e == AssetNotFound <==> !Crosses(b, reference) && b.asset != plan.asset)
              && (e == StatusRestriction <==> !Crosses(b, reference) && b.asset == plan.asset && !b.allowReceiving)
              && (e == DataCorruption ==> b.external && b.available < 0.0)
              && (e == InsufficientFunds ==> b.external && b.available > 0.0)
              && e in {CrossScope, AssetNotFound, StatusRestriction, DataCorruption, InsufficientFunds}
  {
  }
}
