/** Eligible plans that do not apply: the two ways in which eligibility falls short of coverage. */
module TransactionGaps {
  import opened Text
  import opened Transaction
  import opened TransactionLaws
  import opened TransactionPhases

  const ASSET := "BRL"
  const PAYER := Target("a", "payer")
  const PAYEE := Target("b", "payee")
  const OTHER_PAYEE := Target("c", "other")

  function Exactly(target: Target, amount: real): Allocation { Allocation(target, Some(amount), None, false, "") }

  function Rest(target: Target): Allocation { Allocation(target, None, None, true, "") }

  /** A balance without scope that may send and receive. */
  function Open(target: Target, available: real): Balance {
    Balance(target.balanceId, "", "", target.accountId, ASSET, available, 0.0, 0, false, true, true)
  }

  function Moving(target: Target, amount: real, isSource: bool): Posting {
    Posting(target, ASSET, amount, if isSource then Debit else Credit, Created, "")
  }

  lemma TargetsOk()
    ensures TargetOk(PAYER) && TargetOk(PAYEE) && TargetOk(OTHER_PAYEE) && TrimSpace(ASSET) != ""
  {
    hide TrimSpace;
    Plain("a");
    Plain("b");
    Plain("c");
    Plain("payer");
    Plain("payee");
    Plain("other");
    Plain(ASSET);
  }

  lemma Plain(s: string)
    requires s != "" && !IsSpace(s[0]) && !IsSpace(s[|s| - 1])
    ensures TrimSpace(s) != ""
  {
    TrimFixed(s, IsSpace);
  }

  lemma OneAllocation(ar: Arithmetic, input: Input, isSource: bool, a: Allocation)
    requires PostingFrom(ar, input, Created, isSource, a).Success?
    ensures var p := PostingFrom(ar, input, Created, isSource, a).value;
            DraftOf(ar, input, Created, isSource, [a]) == Success(Draft([p.0], if p.1 then Some(0) else None))
  {
    hide PostingFrom;
    assert [a][..0] == [];
    assert DraftOf(ar, input, Created, isSource, [a][..0]) == Success(Draft([], None));
    var p := PostingFrom(ar, input, Created, isSource, [a][0]).value;
    assert [] + [p.0] == [p.0];
  }

  lemma TwoAllocations(ar: Arithmetic, input: Input, isSource: bool, a: Allocation, b: Allocation)
    requires PostingFrom(ar, input, Created, isSource, a).Success? && PostingFrom(ar, input, Created, isSource, b).Success?
    requires !PostingFrom(ar, input, Created, isSource, a).value.1
    ensures var p, q := PostingFrom(ar, input, Created, isSource, a).value, PostingFrom(ar, input, Created, isSource, b).value;
            DraftOf(ar, input, Created, isSource, [a, b]) == Success(Draft([p.0, q.0], if q.1 then Some(1) else None))
  {
    hide PostingFrom;
    OneAllocation(ar, input, isSource, a);
    assert [a, b][..1] == [a] && [a, b][1] == b;
    var p, q := PostingFrom(ar, input, Created, isSource, a).value, PostingFrom(ar, input, Created, isSource, b).value;
    assert [p.0] + [q.0] == [p.0, q.0];
  }

  lemma ExactPosting(ar: Arithmetic, input: Input, isSource: bool, target: Target, amount: real)
    requires input.asset == ASSET && !input.pending && TargetOk(target) && ar.bounded(amount) && amount > 0.0
    ensures PostingFrom(ar, input, Created, isSource, Exactly(target, amount)) == Success((Moving(target, amount, isSource), false))
  {
    hide TargetOk;
  }

  lemma RestPosting(ar: Arithmetic, input: Input, isSource: bool, target: Target)
    requires input.asset == ASSET && !input.pending && TargetOk(target)
    ensures PostingFrom(ar, input, Created, isSource, Rest(target)) == Success((Moving(target, 0.0, isSource), true))
  {
    hide TargetOk;
  }

  lemma Sums(p: Posting, q: Posting)
    ensures Sum([p]) == p.amount && Sum([p, q]) == p.amount + q.amount
  {
    assert [p][..0] == [] && [p, q][..1] == [p];
  }

  lemma ExactSide(ar: Arithmetic, input: Input, isSource: bool, target: Target)
    requires input.asset == ASSET && !input.pending && TargetOk(target) && ar.bounded(input.total) && input.total > 0.0
    ensures PostingsOf(ar, input, Created, isSource, [Exactly(target, input.total)]) == Success([Moving(target, input.total, isSource)])
    ensures Sum([Moving(target, input.total, isSource)]) == input.total
  {
    hide PostingFrom, DraftOf, Sum;
    ExactPosting(ar, input, isSource, target, input.total);
    OneAllocation(ar, input, isSource, Exactly(target, input.total));
    Sums(Moving(target, input.total, isSource), Moving(target, input.total, isSource));
  }

  // ---------- one source balance named twice ----------

  function TwiceInput(x: real, y: real): Input {
    Input(ASSET, x + y, false, [Exactly(PAYER, x), Exactly(PAYER, y)], [Exactly(PAYEE, x + y)])
  }

  function TwicePlan(x: real, y: real): Plan {
    Plan(ASSET, x + y, false, [Moving(PAYER, x, true), Moving(PAYER, y, true)], [Moving(PAYEE, x + y, false)])
  }

  lemma TwicePlans(ar: Arithmetic, x: real, y: real)
    requires x > 0.0 && y > 0.0 && ar.bounded(x) && ar.bounded(y) && ar.bounded(x + y)
    ensures PlanOf(ar, TwiceInput(x, y), Created) == Success(TwicePlan(x, y))
  {
    hide PostingFrom, DraftOf, Sum, TrimSpace;
    TargetsOk();
    var input := TwiceInput(x, y);
    ExactPosting(ar, input, true, PAYER, x);
    ExactPosting(ar, input, true, PAYER, y);
    TwoAllocations(ar, input, true, Exactly(PAYER, x), Exactly(PAYER, y));
    Sums(Moving(PAYER, x, true), Moving(PAYER, y, true));
    ExactSide(ar, input, false, PAYEE);
  }

  /** Two amounts that a balance covers one at a time but not together, such as 60 and 60 of 100, are eligible and fail. */
  lemma RepeatedSourceFails(ar: Arithmetic, x: real, y: real, available: real, order: seq<Posting>)
    requires x > 0.0 && y > 0.0 && ar.bounded(x) && ar.bounded(y) && ar.bounded(x + y)
    requires x <= available && y <= available < x + y
    requires multiset(order) == multiset(All(TwicePlan(x, y)))
    ensures var balances := map["payer" := Open(PAYER, available), "payee" := Open(PAYEE, 0.0)];
            && PlanOf(ar, TwiceInput(x, y), Created) == Success(TwicePlan(x, y))
            && Eligible(ar, TwicePlan(x, y), balances)
            && ApplyAll(ar, balances, order) == None
  {
    hide PlanOf, ApplyAll, AmountOn;
    TwicePlans(ar, x, y);
    var plan, balances := TwicePlan(x, y), map["payer" := Open(PAYER, available), "payee" := Open(PAYEE, 0.0)];
    assert InScope(plan.sources + plan.destinations, balances, NO_SCOPE);
    TwiceAmount(x, y);
    assert !Covered(ar, plan, balances) by {
      assert "payer" in balances;
    }
    EligibleApplies(ar, TwiceInput(x, y), Created, balances, order);
  }

  lemma TwiceAmount(x: real, y: real)
    ensures AmountOn(TwicePlan(x, y).sources, Some("payer")) == x + y
  {
    var ps := TwicePlan(x, y).sources;
    var tail := [Moving(PAYER, y, true)];
    assert ps[1..] == tail && tail[1..] == [];
    assert AmountOn(tail, Some("payer")) == y + AmountOn(tail[1..], Some("payer"));
  }

  // ---------- a destination amount out of range ----------

  function RestInput(total: real, part: real): Input {
    Input(ASSET, total, false, [Exactly(PAYER, total)], [Exactly(PAYEE, part), Rest(OTHER_PAYEE)])
  }

  function RestPlan(total: real, part: real): Plan {
    Plan(ASSET, total, false, [Moving(PAYER, total, true)], [Moving(PAYEE, part, false), Moving(OTHER_PAYEE, total - part, false)])
  }

  lemma RestPlans(ar: Arithmetic, total: real, part: real)
    requires 0.0 < part < total && ar.bounded(total) && ar.bounded(part)
    ensures PlanOf(ar, RestInput(total, part), Created) == Success(RestPlan(total, part))
  {
    hide PostingFrom, DraftOf, Sum, TrimSpace;
    TargetsOk();
    var input := RestInput(total, part);
    ExactSide(ar, input, true, PAYER);
    ExactPosting(ar, input, false, PAYEE, part);
    RestPosting(ar, input, false, OTHER_PAYEE);
    TwoAllocations(ar, input, false, Exactly(PAYEE, part), Rest(OTHER_PAYEE));
    var p := Moving(PAYEE, part, false);
    Sums(p, Moving(OTHER_PAYEE, 0.0, false));
    Sums(p, Moving(OTHER_PAYEE, total - part, false));
    assert [p, Moving(OTHER_PAYEE, 0.0, false)][1 := Moving(OTHER_PAYEE, total - part, false)] == [p, Moving(OTHER_PAYEE, total - part, false)];
  }

  /** A remainder outside the supported range, though total and part are inside, is eligible and fails. */
  lemma OutOfRangeDestinationFails(ar: Arithmetic, total: real, part: real, order: seq<Posting>)
    requires 0.0 < part < total && ar.bounded(total) && ar.bounded(part) && !ar.bounded(total - part)
    requires multiset(order) == multiset(All(RestPlan(total, part)))
    ensures var balances := map["payer" := Open(PAYER, total), "payee" := Open(PAYEE, 0.0), "other" := Open(OTHER_PAYEE, 0.0)];
            && PlanOf(ar, RestInput(total, part), Created) == Success(RestPlan(total, part))
            && Eligible(ar, RestPlan(total, part), balances)
            && ApplyAll(ar, balances, order) == None
  {
    hide PlanOf, ApplyAll, AmountOn;
    RestPlans(ar, total, part);
    var plan := RestPlan(total, part);
    var balances := map["payer" := Open(PAYER, total), "payee" := Open(PAYEE, 0.0), "other" := Open(OTHER_PAYEE, 0.0)];
    assert InScope(plan.sources + plan.destinations, balances, NO_SCOPE);
    assert !Covered(ar, plan, balances) by {
      assert plan.destinations[1] in plan.destinations;
    }
    EligibleApplies(ar, RestInput(total, part), Created, balances, order);
  }
}
