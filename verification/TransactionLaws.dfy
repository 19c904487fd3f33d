/** What plans and postings keep: totals, conservation per phase, cancellation, and sufficiency of eligibility. */
module TransactionLaws {
  import opened Text
  import opened Transaction

  type Ledger = map<string, Balance>

  // ---------- every plan ----------

  /** The side of a plan that came from `allocations`: same targets, one operation and status, positive amounts. */
  predicate SideOk(ps: seq<Posting>, allocations: seq<Allocation>, input: Input, status: Status, isSource: bool) {
    && |ps| == |allocations|
    && (forall i | 0 <= i < |ps| ::
          && ps[i].target == allocations[i].target && TargetOk(ps[i].target)
          && ps[i].asset == input.asset && ps[i].status == status && ps[i].amount > 0.0
          && ResolveOperation(input.pending, isSource, status) == Success(ps[i].operation))
    && Sum(ps) == input.total
  }

  lemma {:induction false} DraftShape(ar: Arithmetic, input: Input, status: Status, isSource: bool, allocations: seq<Allocation>)
    requires DraftOf(ar, input, status, isSource, allocations).Success?
    ensures var d := DraftOf(ar, input, status, isSource, allocations).value;
            forall i | 0 <= i < |allocations| ::
              && PostingFrom(ar, input, status, isSource, allocations[i]) == Success((d.postings[i], d.remainder == Some(i)))
  {
    hide PostingFrom;
    if allocations != [] {
      var n := |allocations| - 1;
      DraftShape(ar, input, status, isSource, allocations[..n]);
    }
  }

  lemma PostingShape(ar: Arithmetic, input: Input, status: Status, isSource: bool, a: Allocation)
    requires PostingFrom(ar, input, status, isSource, a).Success?
    ensures var (p, remainder) := PostingFrom(ar, input, status, isSource, a).value;
            && p.target == a.target && TargetOk(p.target) && p.asset == input.asset && p.status == status
            && ResolveOperation(input.pending, isSource, status) == Success(p.operation)
            && (if remainder then p.amount == 0.0 else p.amount > 0.0)
  {
    hide TargetOk;
  }

  lemma {:induction false} SumUpdate(ps: seq<Posting>, i: nat, p: Posting)
    requires i < |ps|
    ensures Sum(ps[i := p]) == Sum(ps) - ps[i].amount + p.amount
  {
    var n := |ps| - 1;
    if i == n {
      assert ps[i := p][..n] == ps[..n];
    } else {
      assert ps[i := p][..n] == ps[..n][i := p];
      SumUpdate(ps[..n], i, p);
    }
  }

  lemma SideShape(ar: Arithmetic, input: Input, status: Status, isSource: bool, allocations: seq<Allocation>)
    requires PostingsOf(ar, input, status, isSource, allocations).Success?
    ensures SideOk(PostingsOf(ar, input, status, isSource, allocations).value, allocations, input, status, isSource)
  {
    hide PostingFrom, ResolveOperation, TargetOk, Sum, DraftOf;
    DraftShape(ar, input, status, isSource, allocations);
    var d := DraftOf(ar, input, status, isSource, allocations).value;
    forall i | 0 <= i < |allocations|
      ensures var p := d.postings[i];
              && p.target == allocations[i].target && TargetOk(p.target) && p.asset == input.asset && p.status == status
              && ResolveOperation(input.pending, isSource, status) == Success(p.operation)
              && (if d.remainder == Some(i) then p.amount == 0.0 else p.amount > 0.0)
    {
      PostingShape(ar, input, status, isSource, allocations[i]);
    }
    if d.remainder.Some? {
      var i := d.remainder.value;
      SumUpdate(d.postings, i, d.postings[i].(amount := input.total - Sum(d.postings)));
    }
  }

  /** Positive amounts, both sides summing to the total, and no balance on both sides. */
  lemma PlanShape(ar: Arithmetic, input: Input, status: Status)
    requires PlanOf(ar, input, status).Success?
    ensures var plan := PlanOf(ar, input, status).value;
            && plan.total == input.total > 0.0
            && SideOk(plan.sources, input.sources, input, status, true)
            && SideOk(plan.destinations, input.destinations, input, status, false)
            && BalanceIds(plan.sources) !! BalanceIds(plan.destinations)
  {
    hide PostingsOf, SideOk, TrimSpace;
    if PostingsOf(ar, input, status, true, input.sources).Success? {
      SideShape(ar, input, status, true, input.sources);
    }
    if PostingsOf(ar, input, status, false, input.destinations).Success? {
      SideShape(ar, input, status, false, input.destinations);
    }
  }

  /** Whatever `ResolveOperation` yields, the posting functions take. */
  lemma ResolvedIsAccepted(pending: bool, isSource: bool, b: Balance, p: Posting)
    requires ResolveOperation(pending, isSource, p.status) == Success(p.operation)
    ensures ApplyOperation(b, p).Success?
  {
  }

  // ---------- applying postings to a ledger ----------

  /** A change of available and on-hold funds. */
  datatype Delta = Delta(available: real, onHold: real) {
    function Plus(d: Delta): Delta { Delta(available + d.available, onHold + d.onHold) }
  }

  lemma PlusSwaps(a: Delta, b: Delta, c: Delta)
    ensures a.Plus(b.Plus(c)) == b.Plus(a.Plus(c)) && a.Plus(b).Plus(c) == a.Plus(b.Plus(c))
  {
    assert a.available + (b.available + c.available) == b.available + (a.available + c.available);
    assert a.onHold + (b.onHold + c.onHold) == b.onHold + (a.onHold + c.onHold);
  }

  const NOTHING := Delta(0.0, 0.0)

  /** How an amount moves funds under an operation and status. */
  function Shift(operation: Operation, status: Status, x: real): Delta {
    match operation
    case OnHold => Delta(-x, x)
    case Release => Delta(x, -x)
    case Debit => if status == Approved then Delta(0.0, -x) else Delta(-x, 0.0)
    case Credit => Delta(x, 0.0)
    case OtherOperation => NOTHING
  }

  function DeltaOf(p: Posting): Delta { Shift(p.operation, p.status, p.amount) }

  function Funds(b: Balance): Delta { Delta(b.available, b.onHold) }

  predicate NonNegative(b: Balance) { b.available >= 0.0 && b.onHold >= 0.0 }

  /** A catalog keyed by balance ID. */
  predicate Keyed(l: Ledger) { forall id | id in l :: l[id].id == id }

  /** Apply postings one after another; `None` as soon as one does not apply. */
  function ApplyAll(ar: Arithmetic, l: Ledger, ps: seq<Posting>): Option<Ledger> {
    if ps == [] then Some(l)
    else
      var id := ps[0].target.balanceId;
      if id !in l then None
      else
        var b := ApplyPosting(ar, l[id], ps[0]);
        if b.Failure? then None else ApplyAll(ar, l[id := b.value], ps[1..])
  }

  /** What one posting moves on the balances asked about: all of them, or one. */
  function Share(p: Posting, only: Option<string>): Delta {
    if Concerns(p, only) then DeltaOf(p) else NOTHING
  }

  predicate Concerns(p: Posting, only: Option<string>) {
    only == None || only == Some(p.target.balanceId)
  }

  function Moved(ps: seq<Posting>, only: Option<string>): Delta {
    if ps == [] then NOTHING else Share(ps[0], only).Plus(Moved(ps[1..], only))
  }

  lemma PostingMoves(ar: Arithmetic, b: Balance, p: Posting)
    requires ApplyPosting(ar, b, p).Success?
    ensures var after := ApplyPosting(ar, b, p).value;
            && Funds(after) == Funds(b).Plus(DeltaOf(p)) && NonNegative(after)
            && after == b.(available := after.available, onHold := after.onHold, version := after.version)
            && PostingError(ar, b, p).None? && ApplyOperation(b, p).Success?
  {
    hide TargetOk;
  }

  /** Same balances, same identities; only funds and versions move. */
  predicate SameAccounts(l: Ledger, m: Ledger) {
    && l.Keys == m.Keys
    && forall id | id in l :: m[id] == l[id].(available := m[id].available, onHold := m[id].onHold, version := m[id].version)
  }

  lemma SameAccountsAfter(l: Ledger, id: string, b: Balance, m: Ledger)
    requires id in l && b == l[id].(available := b.available, onHold := b.onHold, version := b.version)
    requires SameAccounts(l[id := b], m)
    ensures SameAccounts(l, m)
  {
  }

  lemma {:induction false} AppliedKeepsAccounts(ar: Arithmetic, l: Ledger, ps: seq<Posting>)
    requires ApplyAll(ar, l, ps).Some?
    ensures SameAccounts(l, ApplyAll(ar, l, ps).value)
    decreases |ps|
  {
    hide ApplyPosting, DeltaOf, SameAccounts;
    if ps == [] {
      SameAccountsAtAll(l);
    } else {
      var id := ps[0].target.balanceId;
      PostingMoves(ar, l[id], ps[0]);
      var b := ApplyPosting(ar, l[id], ps[0]).value;
      AppliedKeepsAccounts(ar, l[id := b], ps[1..]);
      SameAccountsAfter(l, id, b, ApplyAll(ar, l, ps).value);
    }
  }

  lemma SameAccountsAtAll(l: Ledger)
    ensures SameAccounts(l, l)
  {
  }

  /** Each balance moves by exactly what its postings say, and never below zero. */
  lemma {:induction false} AppliedMoves(ar: Arithmetic, l: Ledger, ps: seq<Posting>, id: string)
    requires ApplyAll(ar, l, ps).Some? && id in l
    ensures var m := ApplyAll(ar, l, ps).value;
            && id in m && Funds(m[id]) == Funds(l[id]).Plus(Moved(ps, Some(id)))
            && (NonNegative(l[id]) ==> NonNegative(m[id]))
    decreases |ps|
  {
    hide ApplyPosting, DeltaOf;
    if ps != [] {
      var first := ps[0].target.balanceId;
      PostingMoves(ar, l[first], ps[0]);
      var next := l[first := ApplyPosting(ar, l[first], ps[0]).value];
      AppliedMoves(ar, next, ps[1..], id);
      assert Funds(next[id]) == Funds(l[id]).Plus(Share(ps[0], Some(id)));
      PlusSwaps(Funds(l[id]), Share(ps[0], Some(id)), Moved(ps[1..], Some(id)));
    }
  }

  // ---------- totals ----------

  /** All funds of a ledger. */
  ghost function TotalFunds(l: Ledger): Delta {
    if l == map[] then NOTHING
    else
      var id :| id in l;
      Funds(l[id]).Plus(TotalFunds(l - {id}))
  }

  lemma {:induction false} TotalWithout(l: Ledger, id: string)
    requires id in l
    ensures TotalFunds(l) == Funds(l[id]).Plus(TotalFunds(l - {id}))
    decreases |l|
  {
    var first :| first in l && TotalFunds(l) == Funds(l[first]).Plus(TotalFunds(l - {first}));
    if first != id {
      var neither := l - {first} - {id};
      TotalWithout(l - {first}, id);
      assert TotalFunds(l - {first}) == Funds(l[id]).Plus(TotalFunds(neither));
      TotalWithout(l - {id}, first);
      assert l - {id} - {first} == neither;
      assert TotalFunds(l - {id}) == Funds(l[first]).Plus(TotalFunds(neither));
      PlusSwaps(Funds(l[first]), Funds(l[id]), TotalFunds(neither));
    }
  }

  lemma TotalAfterUpdate(l: Ledger, id: string, b: Balance, d: Delta)
    requires id in l && Funds(b) == Funds(l[id]).Plus(d)
    ensures TotalFunds(l[id := b]) == TotalFunds(l).Plus(d)
  {
    TotalWithout(l, id);
    TotalWithout(l[id := b], id);
    assert l[id := b] - {id} == l - {id};
  }

  lemma {:induction false} AppliedTotals(ar: Arithmetic, l: Ledger, ps: seq<Posting>)
    requires ApplyAll(ar, l, ps).Some?
    ensures TotalFunds(ApplyAll(ar, l, ps).value) == TotalFunds(l).Plus(Moved(ps, None))
    decreases |ps|
  {
    hide ApplyPosting, DeltaOf;
    if ps != [] {
      var id := ps[0].target.balanceId;
      var b := ApplyPosting(ar, l[id], ps[0]).value;
      PostingMoves(ar, l[id], ps[0]);
      TotalAfterUpdate(l, id, b, DeltaOf(ps[0]));
      AppliedTotals(ar, l[id := b], ps[1..]);
    }
  }

  // ---------- order does not matter ----------

  lemma {:induction false} MovedExtract(ps: seq<Posting>, i: nat, only: Option<string>)
    requires i < |ps|
    ensures Moved(ps, only) == Share(ps[i], only).Plus(Moved(ps[..i] + ps[i + 1..], only))
  {
    hide Share;
    if i == 0 {
      assert ps[..0] + ps[1..] == ps[1..];
    } else {
      MovedExtract(ps[1..], i - 1, only);
      var rest := ps[..i] + ps[i + 1..];
      assert rest[0] == ps[0] && rest[1..] == ps[1..][..i - 1] + ps[1..][i..];
    }
  }

  lemma {:induction false} MovedAnyOrder(ps: seq<Posting>, qs: seq<Posting>, only: Option<string>)
    requires multiset(ps) == multiset(qs)
    ensures Moved(ps, only) == Moved(qs, only)
    decreases |ps|
  {
    hide Share;
    if ps == [] {
      assert |multiset(qs)| == 0;
    } else {
      assert ps == [ps[0]] + ps[1..];
      var i := Find(qs, ps[0], ps[1..]);
      MovedAnyOrder(ps[1..], qs[..i] + qs[i + 1..], only);
      MovedExtract(qs, i, only);
    }
  }

  lemma Find(qs: seq<Posting>, p: Posting, rest: seq<Posting>) returns (i: nat)
    requires multiset([p] + rest) == multiset(qs)
    ensures i < |qs| && qs[i] == p && multiset(rest) == multiset(qs[..i] + qs[i + 1..])
  {
    assert p in multiset([p] + rest);
    i :| i < |qs| && qs[i] == p;
    assert qs == qs[..i] + [p] + qs[i + 1..];
    assert multiset(qs) - multiset{p} == multiset(qs[..i] + qs[i + 1..]);
    assert multiset([p] + rest) - multiset{p} == multiset(rest);
  }

  lemma {:induction false} MovedAppend(ps: seq<Posting>, qs: seq<Posting>, only: Option<string>)
    ensures Moved(ps + qs, only) == Moved(ps, only).Plus(Moved(qs, only))
  {
    hide Share;
    if ps == [] {
      assert ps + qs == qs;
    } else {
      assert (ps + qs)[1..] == ps[1..] + qs;
      MovedAppend(ps[1..], qs, only);
    }
  }

  // ---------- one side at a time ----------

  predicate OneKind(ps: seq<Posting>, operation: Operation, status: Status) {
    forall p | p in ps :: p.operation == operation && p.status == status
  }

  /** The amounts posted to the balances asked about. */
  function AmountOn(ps: seq<Posting>, only: Option<string>): real {
    if ps == [] then 0.0 else (if Concerns(ps[0], only) then ps[0].amount else 0.0) + AmountOn(ps[1..], only)
  }

  lemma ShiftAdds(operation: Operation, status: Status, x: real, y: real)
    ensures Shift(operation, status, x).Plus(Shift(operation, status, y)) == Shift(operation, status, x + y)
    ensures Shift(operation, status, 0.0) == NOTHING
  {
  }

  lemma {:induction false} OneKindMoves(ps: seq<Posting>, operation: Operation, status: Status, only: Option<string>)
    requires OneKind(ps, operation, status)
    ensures Moved(ps, only) == Shift(operation, status, AmountOn(ps, only))
  {
    hide Shift, Concerns, Delta.Plus;
    if ps == [] {
      ShiftAdds(operation, status, 0.0, 0.0);
    } else {
      OneKindMoves(ps[1..], operation, status, only);
      var x := if Concerns(ps[0], only) then ps[0].amount else 0.0;
      assert ps[0] in ps;
      ShiftAdds(operation, status, x, AmountOn(ps[1..], only));
      assert Share(ps[0], only) == Shift(operation, status, x);
    }
  }

  lemma {:induction false} AmountAppend(ps: seq<Posting>, p: Posting)
    ensures AmountOn(ps + [p], None) == AmountOn(ps, None) + p.amount
  {
    if ps == [] {
      assert (ps + [p])[1..] == [];
    } else {
      assert (ps + [p])[1..] == ps[1..] + [p];
      AmountAppend(ps[1..], p);
    }
  }

  lemma {:induction false} AmountIsSum(ps: seq<Posting>)
    ensures AmountOn(ps, None) == Sum(ps)
  {
    if ps != [] {
      var n := |ps| - 1;
      AmountIsSum(ps[..n]);
      AmountAppend(ps[..n], ps[n]);
      assert ps == ps[..n] + [ps[n]];
    }
  }

  // ---------- conservation, phase by phase ----------

  /** The ledger-wide change each phase makes for a transaction of `total`. */
  function PhaseChange(status: Status, total: real): Delta {
    match status
    case Pending => Delta(0.0, total)
    case Canceled => Delta(0.0, -total)
    case Approved => Delta(total, -total)
    case _ => NOTHING
  }

  lemma SideMoves(ps: seq<Posting>, allocations: seq<Allocation>, input: Input, status: Status, isSource: bool)
    requires SideOk(ps, allocations, input, status, isSource) && ps != []
    ensures ResolveOperation(input.pending, isSource, status).Success?
    ensures Moved(ps, None) == Shift(ResolveOperation(input.pending, isSource, status).value, status, input.total)
  {
    hide Shift, TargetOk, ResolveOperation;
    var operation := ps[0].operation;
    assert OneKind(ps, operation, status);
    OneKindMoves(ps, operation, status, None);
    AmountIsSum(ps);
  }

  lemma PlanMoves(ar: Arithmetic, input: Input, status: Status)
    requires PlanOf(ar, input, status).Success?
    ensures var plan := PlanOf(ar, input, status).value;
            Moved(plan.sources + plan.destinations, None) == PhaseChange(status, plan.total)
  {
    hide PlanOf, SideOk, Moved, Shift, PhaseChange, ResolveOperation;
    PlanHasSides(ar, input, status);
    PlanShape(ar, input, status);
    var plan := PlanOf(ar, input, status).value;
    SideMoves(plan.sources, input.sources, input, status, true);
    SideMoves(plan.destinations, input.destinations, input, status, false);
    MovedAppend(plan.sources, plan.destinations, None);
    PhaseOf(input.pending, status, input.total);
  }

  lemma PhaseOf(pending: bool, status: Status, total: real)
    requires ResolveOperation(pending, true, status).Success? && ResolveOperation(pending, false, status).Success?
    ensures Shift(ResolveOperation(pending, true, status).value, status, total)
            .Plus(Shift(ResolveOperation(pending, false, status).value, status, total)) == PhaseChange(status, total)
  {
  }

  lemma PlanHasSides(ar: Arithmetic, input: Input, status: Status)
    requires PlanOf(ar, input, status).Success?
    ensures var plan := PlanOf(ar, input, status).value; plan.sources != [] && plan.destinations != []
  {
    hide TrimSpace;
    PlanShape(ar, input, status);
  }

  /** When every posting of a plan applies, in any order, the ledger changes by exactly the phase's amount. */
  lemma PhaseConserves(ar: Arithmetic, input: Input, status: Status, l: Ledger, order: seq<Posting>)
    requires PlanOf(ar, input, status).Success?
    requires var plan := PlanOf(ar, input, status).value; multiset(order) == multiset(plan.sources + plan.destinations)
    requires ApplyAll(ar, l, order).Some?
    ensures TotalFunds(ApplyAll(ar, l, order).value) == TotalFunds(l).Plus(PhaseChange(status, input.total))
  {
    hide PlanOf, ApplyAll, PhaseChange;
    PlanShape(ar, input, status);
    PlanMoves(ar, input, status);
    var plan := PlanOf(ar, input, status).value;
    MovedAnyOrder(order, plan.sources + plan.destinations, None);
    AppliedTotals(ar, l, order);
  }

  // ---------- when every posting applies ----------

  /** Everything about a posting that funds do not decide. */
  predicate Fits(ar: Arithmetic, l: Ledger, p: Posting) {
    && p.target.balanceId in l
    && PostingError(ar, l[p.target.balanceId], p).None?
    && ApplyOperation(l[p.target.balanceId], p).Success?
  }

  predicate Affords(f: Delta, d: Delta) {
    f.available + d.available >= 0.0 && f.onHold + d.onHold >= 0.0
  }

  /** Each balance is posted to in one way only. */
  predicate Uniform(ps: seq<Posting>) {
    forall p, q | p in ps && q in ps && p.target.balanceId == q.target.balanceId ::
      p.operation == q.operation && p.status == q.status
  }

  lemma FitsAfter(ar: Arithmetic, l: Ledger, m: Ledger, p: Posting)
    requires Fits(ar, l, p) && SameAccounts(l, m)
    ensures Fits(ar, m, p)
  {
    hide TargetOk;
  }

  lemma FirstApplies(ar: Arithmetic, b: Balance, p: Posting, x: real)
    requires PostingError(ar, b, p).None? && ApplyOperation(b, p).Success? && NonNegative(b) && x >= 0.0
    requires Affords(Funds(b), Shift(p.operation, p.status, p.amount + x))
    ensures ApplyPosting(ar, b, p).Success?
  {
    hide TargetOk;
  }

  lemma {:induction false} AmountNonNegative(ps: seq<Posting>, only: Option<string>)
    requires forall p | p in ps :: p.amount > 0.0
    ensures AmountOn(ps, only) >= 0.0
  {
    if ps != [] {
      AmountNonNegative(ps[1..], only);
    }
  }

  /** The postings on one balance move it like one posting of their sum. */
  lemma {:induction false} UniformMoves(ps: seq<Posting>, id: string, operation: Operation, status: Status)
    requires forall p | p in ps && p.target.balanceId == id :: p.operation == operation && p.status == status
    ensures Moved(ps, Some(id)) == Shift(operation, status, AmountOn(ps, Some(id)))
  {
    hide Shift, Delta.Plus;
    if ps == [] {
      ShiftAdds(operation, status, 0.0, 0.0);
    } else {
      UniformMoves(ps[1..], id, operation, status);
      var x := if Concerns(ps[0], Some(id)) then ps[0].amount else 0.0;
      assert ps[0] in ps;
      ShiftAdds(operation, status, x, AmountOn(ps[1..], Some(id)));
      assert Share(ps[0], Some(id)) == Shift(operation, status, x);
    }
  }

  /** Uniform postings apply one after another exactly when every balance affords them all. */
  lemma {:induction false} AllApply(ar: Arithmetic, l: Ledger, ps: seq<Posting>)
    requires forall p | p in ps :: Fits(ar, l, p) && p.amount > 0.0
    requires Uniform(ps)
    requires forall id | id in l :: NonNegative(l[id])
    ensures ApplyAll(ar, l, ps).Some? <==> forall id | id in l :: Affords(Funds(l[id]), Moved(ps, Some(id)))
    decreases |ps|
  {
    hide ApplyPosting, Fits, PostingError, ApplyOperation, Shift;
    if ApplyAll(ar, l, ps).Some? {
      forall id | id in l
        ensures Affords(Funds(l[id]), Moved(ps, Some(id)))
      {
        AppliedMoves(ar, l, ps, id);
      }
    } else {
      var id := Unaffordable(ar, l, ps);
    }
  }

  lemma {:induction false} Unaffordable(ar: Arithmetic, l: Ledger, ps: seq<Posting>) returns (id: string)
    requires forall p | p in ps :: Fits(ar, l, p) && p.amount > 0.0
    requires Uniform(ps)
    requires forall id | id in l :: NonNegative(l[id])
    requires ApplyAll(ar, l, ps).None?
    ensures id in l && !Affords(Funds(l[id]), Moved(ps, Some(id)))
    decreases |ps|
  {
    hide ApplyPosting, PostingError, ApplyOperation, Shift;
    var p, rest := ps[0], ps[1..];
    assert p in ps;
    var first := p.target.balanceId;
    UniformMoves(ps, first, p.operation, p.status);
    UniformMoves(rest, first, p.operation, p.status);
    AmountNonNegative(rest, Some(first));
    if ApplyPosting(ar, l[first], p).Failure? {
      if Affords(Funds(l[first]), Moved(ps, Some(first))) {
        FirstApplies(ar, l[first], p, AmountOn(rest, Some(first)));
      }
      id := first;
    } else {
      PostingMoves(ar, l[first], p);
      var next := l[first := ApplyPosting(ar, l[first], p).value];
      forall q | q in rest
        ensures Fits(ar, next, q)
      {
        FitsAfter(ar, l, next, q);
      }
      id := Unaffordable(ar, next, rest);
      assert Funds(next[id]) == Funds(l[id]).Plus(Share(p, Some(id)));
      PlusSwaps(Funds(l[id]), Share(p, Some(id)), Moved(rest, Some(id)));
    }
  }
}
