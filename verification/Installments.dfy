/** How a card purchase is split and which statements its parts are billed on (domain/finance/installments.go). */
module Installments {
  import opened Calendar

  type Cents = int

  const MAX_INSTALLMENTS := 48

  datatype Option<+T> = None | Some(value: T)

  datatype Installment = Installment(number: nat, amount: Cents, month: Month)

  function Sum(xs: seq<Cents>): Cents {
    if xs == [] then 0 else Sum(xs[..|xs| - 1]) + xs[|xs| - 1]
  }

  function PlanTotal(plan: seq<Installment>): Cents {
    if plan == [] then 0 else PlanTotal(plan[..|plan| - 1]) + plan[|plan| - 1].amount
  }

  predicate Splittable(total: Cents, n: int) { 1 <= n <= MAX_INSTALLMENTS && total >= n }

  /** Part i of total split into n. */
  function PartOf(total: Cents, n: int, i: int): Cents
    requires n >= 1
  {
    total / n + (if i == 0 then total % n else 0)
  }

  lemma {:induction false} SumOfParts(parts: seq<Cents>, total: Cents, n: int)
    requires 1 <= |parts| <= n
    requires forall i :: 0 <= i < |parts| ==> parts[i] == PartOf(total, n, i)
    ensures Sum(parts) == (total / n) * |parts| + total % n
  {
    var m := |parts| - 1;
    if m == 0 {
      assert parts[..0] == [];
    } else {
      SumOfParts(parts[..m], total, n);
      assert (total / n) * |parts| == (total / n) * m + total / n;
    }
  }

  /** Splits total into n parts that sum back to it, the remainder on the first; none is empty. */
  method SplitInstallments(total: Cents, n: int) returns (r: Option<seq<Cents>>)
    ensures r.Some? <==> Splittable(total, n)
    ensures r.Some? ==>
              && |r.value| == n
              && Sum(r.value) == total
              && (forall i :: 0 <= i < n ==> r.value[i] == PartOf(total, n, i))
              && (forall i :: 0 <= i < n ==> 1 <= r.value[i] <= r.value[0] < r.value[i] + n)
  {
    if n < 1 || n > MAX_INSTALLMENTS || total < n {
      return None;
    }
    var base := total / n;
    var parts := new Cents[n];
    for i := 0 to n
      invariant forall j :: 0 <= j < i ==> parts[j] == base
    {
      parts[i] := base;
    }
    parts[0] := parts[0] + (total - base * n);
    SumOfParts(parts[..], total, n);
    BaseIsPositive(total, n);
    return Some(parts[..]);
  }

  lemma BaseIsPositive(total: int, n: int)
    requires 1 <= n <= total
    ensures total / n >= 1 && total == (total / n) * n + total % n
  {
  }

  /** The statement months: consecutive from the purchase's own statement, or from the open month if that comes later. */
  function PlaceInstallments(total: Cents, n: int, purchase: Date, closingDay: int, open: Month): (r: Option<seq<Installment>>)
    ensures r.Some? <==> 1 <= closingDay <= 31 && Splittable(total, n)
    ensures r.Some? ==> |r.value| == n && forall i :: 0 <= i < n ==>
              && r.value[i].number == i + 1
              && r.value[i].amount >= 1
              && r.value[i].month >= open
              && r.value[i].month == r.value[0].month + i
  {
    if closingDay < 1 || closingDay > 31 || !Splittable(total, n) then None
    else
      var own := StatementFor(purchase, closingDay);
      var first := if own < open then open else own;
      BaseIsPositive(total, n);
      Some(seq(n, i requires 0 <= i < n => Installment(i + 1, PartOf(total, n, i), first + i)))
  }

  lemma {:induction false} PlanSumsParts(plan: seq<Installment>, parts: seq<Cents>)
    requires |plan| == |parts|
    requires forall i :: 0 <= i < |plan| ==> plan[i].amount == parts[i]
    ensures PlanTotal(plan) == Sum(parts)
  {
    if plan != [] {
      PlanSumsParts(plan[..|plan| - 1], parts[..|parts| - 1]);
    }
  }

  /** However late the purchase lands, its parts sum to its total. */
  lemma PlacedPlanSumsToTotal(total: Cents, n: int, purchase: Date, closingDay: int, open: Month)
    requires PlaceInstallments(total, n, purchase, closingDay, open).Some?
    ensures PlanTotal(PlaceInstallments(total, n, purchase, closingDay, open).value) == total
  {
    var plan := PlaceInstallments(total, n, purchase, closingDay, open).value;
    var parts := seq(n, i requires 0 <= i < n => PartOf(total, n, i));
    SumOfParts(parts, total, n);
    PlanSumsParts(plan, parts);
    BaseIsPositive(total, n);
  }

  /** The day falls in the period of statement m: after the closing date before, not after its own. */
  predicate InPeriod(day: Date, m: Month, closingDay: int) {
    !Before(ClosingDate(m, closingDay), day) && Before(ClosingDate(m - 1, closingDay), day)
  }

  /** Every day falls in the period of exactly one statement. */
  lemma OnePeriod(day: Date, closingDay: int) returns (m: Month)
    requires ValidDate(day) && 1 <= closingDay <= 31
    ensures InPeriod(day, m, closingDay) && forall x :: InPeriod(day, x, closingDay) ==> x == m
  {
    m := StatementFor(day, closingDay);
    forall x ensures InPeriod(day, x, closingDay) <==> x == m {
      StatementForIsThePeriod(day, closingDay, x);
    }
  }

  /**
   Part i is billed i months after the later of the open statement and the one whose period holds the purchase's day; the
   parts are equal but for the first, which carries what is left of the total.
   */
  lemma PlacedInItsPeriod(total: Cents, n: int, purchase: Date, closingDay: int, open: Month, m: Month)
    requires ValidDate(purchase) && PlaceInstallments(total, n, purchase, closingDay, open).Some? && InPeriod(purchase, m, closingDay)
    ensures var plan := PlaceInstallments(total, n, purchase, closingDay, open).value;
            && |plan| == n
            && (forall i :: 0 <= i < n ==> plan[i].number == i + 1 && plan[i].month == (if m < open then open else m) + i)
            && (forall i :: 1 <= i < n ==> plan[i].amount == plan[n - 1].amount)
            && plan[0].amount == total - (n - 1) * plan[n - 1].amount
            && plan[n - 1].amount <= plan[0].amount < plan[n - 1].amount + n
  {
    StatementForIsThePeriod(purchase, closingDay, m);
    BaseIsPositive(total, n);
    var plan := PlaceInstallments(total, n, purchase, closingDay, open).value;
    FirstCarries(total, n);
  }

  lemma FirstCarries(total: Cents, n: int)
    requires 1 <= n <= total
    ensures PartOf(total, n, 0) == total - (n - 1) * PartOf(total, n, n - 1)
    ensures PartOf(total, n, n - 1) <= PartOf(total, n, 0) < PartOf(total, n, n - 1) + n
  {
    var q, r := total / n, total % n;
    BaseIsPositive(total, n);
    assert (n - 1) * q == q * n - q;
  }

  /** Moves every installment billed after open onto open; amounts and numbers never change. */
  method AdvancePlan(plan: seq<Installment>, open: Month) returns (out: seq<Installment>)
    ensures |out| == |plan|
    ensures forall i :: 0 <= i < |plan| ==> out[i] == plan[i].(month := Min(plan[i].month, open))
    ensures PlanTotal(out) == PlanTotal(plan)
  {
    out := [];
    for i := 0 to |plan|
      invariant |out| == i
      invariant forall j :: 0 <= j < i ==> out[j] == plan[j].(month := Min(plan[j].month, open))
      invariant PlanTotal(out) == PlanTotal(plan[..i])
    {
      var inst := plan[i];
      if inst.month > open {
        inst := inst.(month := open);
      }
      out := out + [inst];
      assert out[..i] == out[..|out| - 1] && plan[..i + 1][..i] == plan[..i];
    }
    assert plan[..|plan|] == plan;
  }

  /** Splits a refunded plan: what was billed before open comes back as a credit, the rest was never charged. */
  method RefundPlan(plan: seq<Installment>, open: Month) returns (credit: Cents, removed: seq<Installment>)
    ensures credit + PlanTotal(removed) == PlanTotal(plan)
    ensures forall i :: 0 <= i < |removed| ==> removed[i] in plan && removed[i].month >= open
    ensures forall i :: 0 <= i < |plan| && plan[i].month >= open ==> plan[i] in removed
  {
    credit, removed := 0, [];
    for i := 0 to |plan|
      invariant credit + PlanTotal(removed) == PlanTotal(plan[..i])
      invariant forall j :: 0 <= j < |removed| ==> removed[j] in plan && removed[j].month >= open
      invariant forall j :: 0 <= j < i && plan[j].month >= open ==> plan[j] in removed
    {
      var inst := plan[i];
      assert plan[..i + 1][..i] == plan[..i];
      if inst.month < open {
        credit := credit + inst.amount;
      } else {
        assert (removed + [inst])[..|removed|] == removed;
        removed := removed + [inst];
      }
    }
    assert plan[..|plan|] == plan;
  }
}
