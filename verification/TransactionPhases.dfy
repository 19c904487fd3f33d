/** The promises across calls: cancelling undoes a pending plan, and eligibility makes a plan applicable. */
module TransactionPhases {
  import opened Text
  import opened Transaction
  import opened TransactionLaws

  // ---------- one input under two statuses ----------

  /** The same postings under another operation and status. */
  function Relabel(ps: seq<Posting>, operation: Operation, status: Status): (r: seq<Posting>)
    ensures |r| == |ps|
    ensures forall i | 0 <= i < |ps| :: r[i] == ps[i].(operation := operation, status := status)
  {
    if ps == [] then [] else Relabel(ps[..|ps| - 1], operation, status) + [ps[|ps| - 1].(operation := operation, status := status)]
  }

  lemma {:induction false} RelabelKeepsSum(ps: seq<Posting>, operation: Operation, status: Status)
    ensures Sum(Relabel(ps, operation, status)) == Sum(ps)
  {
    if ps != [] {
      var n := |ps| - 1;
      RelabelKeepsSum(ps[..n], operation, status);
      assert Relabel(ps, operation, status)[..n] == Relabel(ps[..n], operation, status);
    }
  }

  lemma RelabelKeepsBalances(ps: seq<Posting>, operation: Operation, status: Status)
    ensures BalanceIds(Relabel(ps, operation, status)) == BalanceIds(ps)
  {
    hide Relabel;
    var r := Relabel(ps, operation, status);
    forall p | p in ps
      ensures p.target.balanceId in BalanceIds(r)
    {
      var i :| 0 <= i < |ps| && ps[i] == p;
      assert r[i] in r;
    }
    forall p | p in r
      ensures p.target.balanceId in BalanceIds(ps)
    {
      var i :| 0 <= i < |r| && r[i] == p;
      assert ps[i] in ps;
    }
  }

  lemma RelabelAppends(ps: seq<Posting>, p: Posting, operation: Operation, status: Status)
    ensures Relabel(ps + [p], operation, status) == Relabel(ps, operation, status) + [p.(operation := operation, status := status)]
  {
    hide Relabel;
  }

  lemma RelabelUpdates(ps: seq<Posting>, i: nat, amount: real, operation: Operation, status: Status)
    requires i < |ps|
    ensures var r := Relabel(ps, operation, status);
            r[i := r[i].(amount := amount)] == Relabel(ps[i := ps[i].(amount := amount)], operation, status)
  {
    hide Relabel;
  }

  lemma {:induction false} RelabelKeepsAmounts(ps: seq<Posting>, rs: seq<Posting>, only: Option<string>)
    requires |rs| == |ps|
    requires forall i | 0 <= i < |ps| :: rs[i].target == ps[i].target && rs[i].amount == ps[i].amount
    ensures AmountOn(rs, only) == AmountOn(ps, only)
  {
    if ps != [] {
      RelabelKeepsAmounts(ps[1..], rs[1..], only);
    }
  }

  lemma PostingRelabels(ar: Arithmetic, input: Input, from: Status, to: Status, isSource: bool, a: Allocation)
    requires ResolveOperation(input.pending, isSource, from).Success? && ResolveOperation(input.pending, isSource, to).Success?
    ensures var p, q := PostingFrom(ar, input, from, isSource, a), PostingFrom(ar, input, to, isSource, a);
            if p.Failure? then q == p
            else q == Success((p.value.0.(operation := ResolveOperation(input.pending, isSource, to).value, status := to), p.value.1))
  {
    hide TargetOk, AllocationAmount, ResolveOperation;
  }

  lemma {:induction false} DraftRelabels(ar: Arithmetic, input: Input, from: Status, to: Status, isSource: bool, allocations: seq<Allocation>)
    requires ResolveOperation(input.pending, isSource, from).Success? && ResolveOperation(input.pending, isSource, to).Success?
    requires DraftOf(ar, input, from, isSource, allocations).Success?
    ensures var d := DraftOf(ar, input, from, isSource, allocations).value;
            DraftOf(ar, input, to, isSource, allocations)
            == Success(Draft(Relabel(d.postings, ResolveOperation(input.pending, isSource, to).value, to), d.remainder))
  {
    hide PostingFrom, ResolveOperation, Relabel;
    if allocations != [] {
      var n := |allocations| - 1;
      DraftRelabels(ar, input, from, to, isSource, allocations[..n]);
      PostingRelabels(ar, input, from, to, isSource, allocations[n]);
      var front := DraftOf(ar, input, from, isSource, allocations[..n]).value.postings;
      var last := PostingFrom(ar, input, from, isSource, allocations[n]).value.0;
      RelabelAppends(front, last, ResolveOperation(input.pending, isSource, to).value, to);
    }
  }

  lemma SideRelabels(ar: Arithmetic, input: Input, from: Status, to: Status, isSource: bool, allocations: seq<Allocation>)
    requires ResolveOperation(input.pending, isSource, from).Success? && ResolveOperation(input.pending, isSource, to).Success?
    requires PostingsOf(ar, input, from, isSource, allocations).Success?
    ensures PostingsOf(ar, input, to, isSource, allocations)
         == Success(Relabel(PostingsOf(ar, input, from, isSource, allocations).value,
                            ResolveOperation(input.pending, isSource, to).value, to))
  {
    hide DraftOf, ResolveOperation, Sum, Relabel;
    var operation := ResolveOperation(input.pending, isSource, to).value;
    DraftRelabels(ar, input, from, to, isSource, allocations);
    var d := DraftOf(ar, input, from, isSource, allocations).value;
    RelabelKeepsSum(d.postings, operation, to);
    if d.remainder.Some? {
      RelabelUpdates(d.postings, d.remainder.value, input.total - Sum(d.postings), operation, to);
    }
  }

  /** A pending input that plans under one pending status plans alike under every other. */
  lemma PlanRelabels(ar: Arithmetic, input: Input, from: Status, to: Status)
    requires input.pending && from in {Pending, Canceled, Approved} && to in {Pending, Canceled, Approved}
    requires PlanOf(ar, input, from).Success?
    ensures var p := PlanOf(ar, input, from).value;
            PlanOf(ar, input, to)
            == Success(p.(sources := Relabel(p.sources, ResolveOperation(true, true, to).value, to),
                          destinations := Relabel(p.destinations, ResolveOperation(true, false, to).value, to)))
  {
    hide PostingsOf, TrimSpace, Sum, BalanceIds, Relabel;
    if PostingsOf(ar, input, from, true, input.sources).Success? {
      SideRelabels(ar, input, from, to, true, input.sources);
    }
    if PostingsOf(ar, input, from, false, input.destinations).Success? {
      SideRelabels(ar, input, from, to, false, input.destinations);
    }
    var p := PlanOf(ar, input, from).value;
    RelabelKeepsSum(p.sources, ResolveOperation(true, true, to).value, to);
    RelabelKeepsSum(p.destinations, ResolveOperation(true, false, to).value, to);
    RelabelKeepsBalances(p.sources, ResolveOperation(true, true, to).value, to);
    RelabelKeepsBalances(p.destinations, ResolveOperation(true, false, to).value, to);
  }

  // ---------- a plan's postings taken together ----------

  function All(plan: Plan): seq<Posting> { plan.sources + plan.destinations }

  lemma SideKind(ps: seq<Posting>, allocations: seq<Allocation>, input: Input, status: Status, isSource: bool, only: Option<string>)
    requires SideOk(ps, allocations, input, status, isSource) && ResolveOperation(input.pending, isSource, status).Success?
    ensures OneKind(ps, ResolveOperation(input.pending, isSource, status).value, status)
    ensures Moved(ps, only) == Shift(ResolveOperation(input.pending, isSource, status).value, status, AmountOn(ps, only))
    ensures forall p | p in ps :: p.amount > 0.0 && TargetOk(p.target) && p.asset == input.asset
  {
    hide Shift, TargetOk, ResolveOperation, Sum;
    OneKindMoves(ps, ResolveOperation(input.pending, isSource, status).value, status, only);
  }

  /** A plan's postings are positive and uniform, and move a balance by its amounts on each side. */
  lemma PlanPostings(ar: Arithmetic, input: Input, status: Status, id: string)
    requires PlanOf(ar, input, status).Success?
    ensures ResolveOperation(input.pending, true, status).Success? && ResolveOperation(input.pending, false, status).Success?
    ensures
      var plan := PlanOf(ar, input, status).value;
      var source := ResolveOperation(input.pending, true, status).value;
      var destination := ResolveOperation(input.pending, false, status).value;
      && OneKind(plan.sources, source, status) && OneKind(plan.destinations, destination, status)
      && Uniform(All(plan))
      && (forall p | p in All(plan) :: p.amount > 0.0 && TargetOk(p.target) && p.asset == plan.asset)
      && Moved(All(plan), Some(id)) == Shift(source, status, AmountOn(plan.sources, Some(id)))
                                       .Plus(Shift(destination, status, AmountOn(plan.destinations, Some(id))))
      && (AmountOn(plan.sources, Some(id)) == 0.0 || AmountOn(plan.destinations, Some(id)) == 0.0)
      && AmountOn(plan.sources, Some(id)) >= 0.0 && AmountOn(plan.destinations, Some(id)) >= 0.0
  {
    PlanAsset(ar, input, status);
    hide PlanOf, SideOk, Shift, TargetOk, ResolveOperation;
    PlanShape(ar, input, status);
    var plan := PlanOf(ar, input, status).value;
    SideKind(plan.sources, input.sources, input, status, true, Some(id));
    SideKind(plan.destinations, input.destinations, input, status, false, Some(id));
    MovedAppend(plan.sources, plan.destinations, Some(id));
    AmountNonNegative(plan.sources, Some(id));
    AmountNonNegative(plan.destinations, Some(id));
    if id !in BalanceIds(plan.sources) {
      NothingPosted(plan.sources, id);
    } else {
      NothingPosted(plan.destinations, id);
    }
    SidesUniform(plan.sources, plan.destinations);
  }

  lemma SidesUniform(ps: seq<Posting>, qs: seq<Posting>)
    requires BalanceIds(ps) !! BalanceIds(qs) && Uniform(ps) && Uniform(qs)
    ensures Uniform(ps + qs)
  {
    forall p, q | p in ps + qs && q in ps + qs && p.target.balanceId == q.target.balanceId
      ensures p.operation == q.operation && p.status == q.status
    {
      assert forall x | x in ps :: x.target.balanceId in BalanceIds(ps);
      assert forall x | x in qs :: x.target.balanceId in BalanceIds(qs);
    }
  }

  lemma PlanAsset(ar: Arithmetic, input: Input, status: Status)
    requires PlanOf(ar, input, status).Success?
    ensures PlanOf(ar, input, status).value.asset == input.asset
    ensures PlanOf(ar, input, status).value.pending == input.pending
    ensures ResolveOperation(input.pending, true, status).Success? && ResolveOperation(input.pending, false, status).Success?
  {
    hide TrimSpace;
    PlanShape(ar, input, status);
    PlanHasSides(ar, input, status);
  }

  lemma {:induction false} NothingPosted(ps: seq<Posting>, id: string)
    requires id !in BalanceIds(ps)
    ensures AmountOn(ps, Some(id)) == 0.0
  {
    if ps != [] {
      assert ps[0] in ps;
      assert forall p | p in ps[1..] :: p in ps;
      NothingPosted(ps[1..], id);
    }
  }

  /** Postings that applied fitted the ledger they were applied to. */
  lemma {:induction false} AppliedFits(ar: Arithmetic, l: Ledger, ps: seq<Posting>, p: Posting)
    requires ApplyAll(ar, l, ps).Some? && p in ps
    ensures Fits(ar, l, p)
    decreases |ps|
  {
    hide ApplyPosting, PostingError, ApplyOperation;
    var first := ps[0].target.balanceId;
    PostingMoves(ar, l[first], ps[0]);
    if p != ps[0] {
      var next := l[first := ApplyPosting(ar, l[first], ps[0]).value];
      AppliedFits(ar, next, ps[1..], p);
      FitsAfter(ar, next, l, p);
    }
  }

  lemma RelabeledFits(ar: Arithmetic, l: Ledger, p: Posting, q: Posting, pending: bool, isSource: bool)
    requires Fits(ar, l, p) && q == p.(operation := q.operation, status := q.status)
    requires ResolveOperation(pending, isSource, q.status) == Success(q.operation)
    ensures Fits(ar, l, q)
  {
    hide TargetOk;
    ResolvedIsAccepted(pending, isSource, l[q.target.balanceId], q);
  }

  lemma Opposite(x: real, y: real)
    ensures Shift(OnHold, Pending, x).Plus(Shift(Credit, Pending, y))
            .Plus(Shift(Release, Canceled, x).Plus(Shift(Debit, Canceled, y))) == NOTHING
  {
  }

  lemma SameMembers(ps: seq<Posting>, qs: seq<Posting>)
    requires multiset(ps) == multiset(qs)
    ensures forall p :: p in ps <==> p in qs
  {
    assert forall p :: p in ps <==> p in multiset(ps);
    assert forall p :: p in qs <==> p in multiset(qs);
  }

  // ---------- cancellation ----------

  /** Every later posting of the input fits wherever the pending posting it relabels was applied. */
  lemma LaterFits(ar: Arithmetic, input: Input, to: Status, l: Ledger, order: seq<Posting>, q: Posting)
    requires input.pending && to in {Canceled, Approved} && PlanOf(ar, input, Pending).Success? && PlanOf(ar, input, to).Success?
    requires multiset(order) == multiset(All(PlanOf(ar, input, Pending).value))
    requires ApplyAll(ar, l, order).Some? && q in All(PlanOf(ar, input, to).value)
    ensures Fits(ar, ApplyAll(ar, l, order).value, q)
  {
    hide PlanOf, ApplyAll, Fits;
    PlanRelabels(ar, input, Pending, to);
    var plan, later := PlanOf(ar, input, Pending).value, PlanOf(ar, input, to).value;
    var isSource := q in later.sources;
    var ps, qs := if isSource then plan.sources else plan.destinations, if isSource then later.sources else later.destinations;
    var i :| 0 <= i < |qs| && qs[i] == q;
    assert ps[i] in All(plan);
    SameMembers(order, All(plan));
    AppliedFits(ar, l, order, ps[i]);
    RelabeledFits(ar, l, ps[i], q, true, isSource);
    AppliedKeepsAccounts(ar, l, order);
    FitsAfter(ar, l, ApplyAll(ar, l, order).value, q);
  }

  lemma CancelMovesBack(ar: Arithmetic, input: Input, id: string)
    requires input.pending && PlanOf(ar, input, Pending).Success? && PlanOf(ar, input, Canceled).Success?
    ensures Moved(All(PlanOf(ar, input, Pending).value), Some(id)).Plus(Moved(All(PlanOf(ar, input, Canceled).value), Some(id))) == NOTHING
  {
    hide PlanOf, Moved, Shift, OneKind, Uniform, AmountOn, TargetOk, All;
    PlanRelabels(ar, input, Pending, Canceled);
    PlanPostings(ar, input, Pending, id);
    PlanPostings(ar, input, Canceled, id);
    var plan, undo := PlanOf(ar, input, Pending).value, PlanOf(ar, input, Canceled).value;
    RelabelKeepsAmounts(plan.sources, undo.sources, Some(id));
    RelabelKeepsAmounts(plan.destinations, undo.destinations, Some(id));
    Opposite(AmountOn(plan.sources, Some(id)), AmountOn(plan.destinations, Some(id)));
  }

  /**
   If every pending posting of an input applies, in any order, then its cancellation can be planned, all
   its postings apply in any order, and every balance is back to the funds it had.
   */
  lemma CancelRestores(ar: Arithmetic, input: Input, l: Ledger, order: seq<Posting>, undo: seq<Posting>)
    requires input.pending && PlanOf(ar, input, Pending).Success?
    requires multiset(order) == multiset(All(PlanOf(ar, input, Pending).value))
    requires forall id | id in l :: NonNegative(l[id])
    requires ApplyAll(ar, l, order).Some?
    ensures PlanOf(ar, input, Canceled).Success?
    ensures multiset(undo) == multiset(All(PlanOf(ar, input, Canceled).value)) ==>
              && ApplyAll(ar, ApplyAll(ar, l, order).value, undo).Some?
              && var n := ApplyAll(ar, ApplyAll(ar, l, order).value, undo).value;
                 SameAccounts(l, n) && forall id | id in l :: Funds(n[id]) == Funds(l[id])
  {
    hide PlanOf, ApplyAll, Fits, Moved, Uniform;
    PlanRelabels(ar, input, Pending, Canceled);
    if multiset(undo) == multiset(All(PlanOf(ar, input, Canceled).value)) {
      var m := ApplyAll(ar, l, order).value;
      AppliedKeepsAccounts(ar, l, order);
      SameMembers(undo, All(PlanOf(ar, input, Canceled).value));
      forall q | q in undo
        ensures Fits(ar, m, q) && q.amount > 0.0
      {
        LaterFits(ar, input, Canceled, l, order, q);
        PlanPostings(ar, input, Canceled, "");
      }
      forall id | id in m
        ensures NonNegative(m[id]) && Funds(m[id]).Plus(Moved(undo, Some(id))) == Funds(l[id])
      {
        AppliedMoves(ar, l, order, id);
        CancelMovesBack(ar, input, id);
        MovedAnyOrder(order, All(PlanOf(ar, input, Pending).value), Some(id));
        MovedAnyOrder(undo, All(PlanOf(ar, input, Canceled).value), Some(id));
        PlusSwaps(Funds(l[id]), Moved(order, Some(id)), Moved(undo, Some(id)));
      }
      UniformAnyOrder(ar, input, Canceled, undo);
      AllApply(ar, m, undo);
      AppliedKeepsAccounts(ar, m, undo);
      forall id | id in l
        ensures Funds(ApplyAll(ar, m, undo).value[id]) == Funds(l[id])
      {
        AppliedMoves(ar, m, undo, id);
      }
    }
  }

  // ---------- approval ----------

  lemma HeldCoversDebit(f: Delta, x: real, y: real)
    requires f.available >= 0.0 && f.onHold >= 0.0 && x >= 0.0 && y >= 0.0
    requires var held := f.Plus(Shift(OnHold, Pending, x).Plus(Shift(Credit, Pending, y))); held.available >= 0.0
    ensures Affords(f.Plus(Shift(OnHold, Pending, x).Plus(Shift(Credit, Pending, y))),
                    Shift(Debit, Approved, x).Plus(Shift(Credit, Approved, y)))
  {
  }

  /** What a balance holds after the pending phase affords all that approval asks of it. */
  lemma ApprovalAfforded(ar: Arithmetic, input: Input, l: Ledger, order: seq<Posting>, id: string)
    requires input.pending && PlanOf(ar, input, Pending).Success? && PlanOf(ar, input, Approved).Success?
    requires multiset(order) == multiset(All(PlanOf(ar, input, Pending).value)) && ApplyAll(ar, l, order).Some?
    requires id in l && NonNegative(l[id])
    ensures var m := ApplyAll(ar, l, order).value;
            && id in m && NonNegative(m[id])
            && Affords(Funds(m[id]), Moved(All(PlanOf(ar, input, Approved).value), Some(id)))
  {
    hide PlanOf, ApplyAll, Moved, Shift, OneKind, Uniform, AmountOn, TargetOk, All, Affords;
    PlanRelabels(ar, input, Pending, Approved);
    PlanPostings(ar, input, Pending, id);
    PlanPostings(ar, input, Approved, id);
    var plan, later := PlanOf(ar, input, Pending).value, PlanOf(ar, input, Approved).value;
    RelabelKeepsAmounts(plan.sources, later.sources, Some(id));
    RelabelKeepsAmounts(plan.destinations, later.destinations, Some(id));
    AppliedMoves(ar, l, order, id);
    MovedAnyOrder(order, All(plan), Some(id));
    HeldCoversDebit(Funds(l[id]), AmountOn(plan.sources, Some(id)), AmountOn(plan.destinations, Some(id)));
  }

  /** Once every pending posting of an input applied, its approval can be planned and applies in any order. */
  lemma ApprovalApplies(ar: Arithmetic, input: Input, l: Ledger, order: seq<Posting>, settle: seq<Posting>)
    requires input.pending && PlanOf(ar, input, Pending).Success?
    requires multiset(order) == multiset(All(PlanOf(ar, input, Pending).value)) && ApplyAll(ar, l, order).Some?
    requires forall id | id in l :: NonNegative(l[id])
    ensures PlanOf(ar, input, Approved).Success?
    ensures multiset(settle) == multiset(All(PlanOf(ar, input, Approved).value)) ==>
              ApplyAll(ar, ApplyAll(ar, l, order).value, settle).Some?
  {
    hide PlanOf, ApplyAll, Fits, Moved, Uniform, Affords;
    PlanRelabels(ar, input, Pending, Approved);
    if multiset(settle) == multiset(All(PlanOf(ar, input, Approved).value)) {
      var m := ApplyAll(ar, l, order).value;
      AppliedKeepsAccounts(ar, l, order);
      SameMembers(settle, All(PlanOf(ar, input, Approved).value));
      forall q | q in settle
        ensures Fits(ar, m, q) && q.amount > 0.0
      {
        LaterFits(ar, input, Approved, l, order, q);
        PlanPostings(ar, input, Approved, "");
      }
      forall id | id in m
        ensures NonNegative(m[id]) && Affords(Funds(m[id]), Moved(settle, Some(id)))
      {
        ApprovalAfforded(ar, input, l, order, id);
        MovedAnyOrder(settle, All(PlanOf(ar, input, Approved).value), Some(id));
      }
      UniformAnyOrder(ar, input, Approved, settle);
      AllApply(ar, m, settle);
    }
  }

  /**
   Approving what was pending first credits the destinations a second time: the total on hold is back where it
   was and the total available has grown by the whole transaction.
   */
  lemma ApprovalCreditsTwice(ar: Arithmetic, input: Input, l: Ledger, order: seq<Posting>, settle: seq<Posting>)
    requires input.pending && PlanOf(ar, input, Pending).Success?
    requires multiset(order) == multiset(All(PlanOf(ar, input, Pending).value)) && ApplyAll(ar, l, order).Some?
    requires forall id | id in l :: NonNegative(l[id])
    ensures PlanOf(ar, input, Approved).Success?
    ensures multiset(settle) == multiset(All(PlanOf(ar, input, Approved).value)) ==>
              && ApplyAll(ar, ApplyAll(ar, l, order).value, settle).Some?
              && TotalFunds(ApplyAll(ar, ApplyAll(ar, l, order).value, settle).value) == TotalFunds(l).Plus(Delta(input.total, 0.0))
  {
    hide PlanOf, ApplyAll, TotalFunds, Moved;
    ApprovalApplies(ar, input, l, order, settle);
    PhaseConserves(ar, input, Pending, l, order);
    if multiset(settle) == multiset(All(PlanOf(ar, input, Approved).value)) {
      PhaseConserves(ar, input, Approved, ApplyAll(ar, l, order).value, settle);
    }
  }

  lemma UniformAnyOrder(ar: Arithmetic, input: Input, status: Status, order: seq<Posting>)
    requires PlanOf(ar, input, status).Success? && multiset(order) == multiset(All(PlanOf(ar, input, status).value))
    ensures Uniform(order)
  {
    hide PlanOf, Moved;
    PlanPostings(ar, input, status, "");
    SameMembers(order, All(PlanOf(ar, input, status).value));
  }

  // ---------- eligibility ----------

  /** No two postings of a side name the same balance. */
  predicate DistinctBalances(ps: seq<Posting>) {
    forall i, j | 0 <= i < j < |ps| :: ps[i].target.balanceId != ps[j].target.balanceId
  }

  /** Every source balance covers all it is asked for together, and the destination amounts are in range. */
  predicate Covered(ar: Arithmetic, plan: Plan, balances: Ledger) {
    && (forall id | id in balances :: AmountOn(plan.sources, Some(id)) <= balances[id].available)
    && (forall p | p in plan.destinations :: ar.bounded(p.amount))
  }

  lemma EligibleFits(ar: Arithmetic, input: Input, status: Status, balances: Ledger, p: Posting)
    requires PlanOf(ar, input, status).Success? && Keyed(balances)
    requires var plan := PlanOf(ar, input, status).value;
             Eligible(ar, plan, balances) && p in All(plan) && (p in plan.destinations ==> ar.bounded(p.amount))
    ensures Fits(ar, balances, p)
  {
    hide PlanOf, TargetOk, Moved, AmountOn;
    PlanPostings(ar, input, status, "");
    PlanAsset(ar, input, status);
    var plan := PlanOf(ar, input, status).value;
    var b := balances[p.target.balanceId];
    ResolvedIsAccepted(input.pending, p in plan.sources, b, p);
  }

  lemma PlanAffords(ar: Arithmetic, input: Input, status: Status, b: Balance)
    requires PlanOf(ar, input, status).Success? && status in {Created, Pending} && NonNegative(b)
    ensures Affords(Funds(b), Moved(All(PlanOf(ar, input, status).value), Some(b.id)))
            <==> AmountOn(PlanOf(ar, input, status).value.sources, Some(b.id)) <= b.available
  {
    hide PlanOf, Moved, AmountOn, TargetOk, OneKind, Uniform, All;
    PlanPostings(ar, input, status, b.id);
  }

  /**
   An eligible CREATED or PENDING plan applies, in any order, exactly when its sources cover it; an
   eligible plan can fail only by naming one source balance twice or by an out-of-range destination amount.
   */
  lemma EligibleApplies(ar: Arithmetic, input: Input, status: Status, balances: Ledger, order: seq<Posting>)
    requires PlanOf(ar, input, status).Success? && status in {Created, Pending}
    requires Eligible(ar, PlanOf(ar, input, status).value, balances)
    requires Keyed(balances) && forall id | id in balances :: NonNegative(balances[id])
    requires multiset(order) == multiset(All(PlanOf(ar, input, status).value))
    ensures ApplyAll(ar, balances, order).Some? <==> Covered(ar, PlanOf(ar, input, status).value, balances)
    ensures DistinctBalances(PlanOf(ar, input, status).value.sources)
            && (forall p | p in PlanOf(ar, input, status).value.destinations :: ar.bounded(p.amount))
            ==> ApplyAll(ar, balances, order).Some?
  {
    hide PlanOf, ApplyAll, Fits, Moved, Uniform, Eligible, AmountOn;
    var plan := PlanOf(ar, input, status).value;
    SameMembers(order, All(plan));
    if ApplyAll(ar, balances, order).Some? {
      forall p | p in plan.destinations
        ensures ar.bounded(p.amount)
      {
        assert p in All(plan);
        AppliedFits(ar, balances, order, p);
        FitsBounded(ar, balances, p);
      }
    }
    if forall p | p in plan.destinations :: ar.bounded(p.amount) {
      forall p | p in order
        ensures Fits(ar, balances, p) && p.amount > 0.0
      {
        EligibleFits(ar, input, status, balances, p);
        PlanPostings(ar, input, status, "");
      }
      UniformAnyOrder(ar, input, status, order);
      AllApply(ar, balances, order);
      forall id | id in balances
        ensures Affords(Funds(balances[id]), Moved(order, Some(id))) <==> AmountOn(plan.sources, Some(id)) <= balances[id].available
      {
        MovedAnyOrder(order, All(plan), Some(id));
        PlanAffords(ar, input, status, balances[id]);
      }
      if DistinctBalances(plan.sources) {
        DistinctIsCovered(ar, plan, balances);
      }
    }
  }

  lemma FitsBounded(ar: Arithmetic, l: Ledger, p: Posting)
    requires Fits(ar, l, p)
    ensures ar.bounded(p.amount)
  {
    hide TargetOk;
  }

  lemma DistinctIsCovered(ar: Arithmetic, plan: Plan, balances: Ledger)
    requires Eligible(ar, plan, balances) && DistinctBalances(plan.sources)
    requires forall id | id in balances :: NonNegative(balances[id])
    ensures forall id | id in balances :: AmountOn(plan.sources, Some(id)) <= balances[id].available
  {
    forall id | id in balances
      ensures AmountOn(plan.sources, Some(id)) <= balances[id].available
    {
      DistinctAmount(plan.sources, id);
    }
  }

  lemma {:induction false} DistinctAmount(ps: seq<Posting>, id: string)
    requires DistinctBalances(ps)
    ensures AmountOn(ps, Some(id)) == 0.0
         || exists p | p in ps :: p.target.balanceId == id && AmountOn(ps, Some(id)) == p.amount
  {
    if ps != [] {
      assert DistinctBalances(ps[1..]);
      assert ps[0] in ps && forall p | p in ps[1..] :: p in ps;
      DistinctAmount(ps[1..], id);
      if ps[0].target.balanceId == id {
        NothingPosted(ps[1..], id);
      }
    }
  }

  /** Balances of an eligible plan that carry a scope share one organization and ledger. */
  lemma EligibleSharesScope(ar: Arithmetic, plan: Plan, balances: Ledger, p: Posting, q: Posting)
    requires Eligible(ar, plan, balances) && p in All(plan) && q in All(plan)
    requires p.target.balanceId in balances && q.target.balanceId in balances
    requires ScopeOf(balances[p.target.balanceId]) != NO_SCOPE && ScopeOf(balances[q.target.balanceId]) != NO_SCOPE
    ensures ScopeOf(balances[p.target.balanceId]) == ScopeOf(balances[q.target.balanceId])
  {
    var scope :| InScope(plan.sources + plan.destinations, balances, scope);
  }
}
