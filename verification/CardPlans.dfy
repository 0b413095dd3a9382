/** What a purchase's stored plan says about its items: sums by part, and what deleting a set of keys leaves. */
module CardPlans {
  import opened Calendar
  import opened Installments
  import opened Sums
  import opened CardModel

  function Filter(parts: seq<Part>, keep: Part -> bool): seq<Part> {
    if parts == [] then []
    else Filter(parts[..|parts| - 1], keep) + (if keep(parts[|parts| - 1]) then [parts[|parts| - 1]] else [])
  }

  /** The items a plan names sum, under any selection, to the parts the selection reaches. */
  lemma {:induction false} PlanSum(id: string, parts: seq<Part>, q: ItemKey -> bool, p: Part -> bool)
    requires forall i :: 0 <= i < |parts| ==> p(parts[i]) == q(KeyOf(id, parts[i]))
    ensures SumWhere(PlanItems(id, parts), q) == SumParts(parts, p)
  {
    if parts != [] {
      var m := |parts| - 1;
      PlanSum(id, parts[..m], q, p);
      SumBump(PlanItems(id, parts[..m]), q, KeyOf(id, parts[m]), parts[m].amount);
    }
  }

  lemma SumBump(m: map<ItemKey, Cents>, q: ItemKey -> bool, k: ItemKey, a: Cents)
    ensures SumWhere(Bump(m, k, a), q) == SumWhere(m, q) + (if q(k) then a else 0)
  {
    SumPut(m, q, k, (if k in m then m[k] else 0) + a);
  }

  /** A plan names exactly the keys of its parts. */
  lemma {:induction false} PlanKeys(id: string, parts: seq<Part>, k: ItemKey)
    ensures k in PlanItems(id, parts) <==> exists i :: 0 <= i < |parts| && KeyOf(id, parts[i]) == k
  {
    if parts != [] {
      var m := |parts| - 1;
      PlanKeys(id, parts[..m], k);
      if k in PlanItems(id, parts[..m]) {
        var i :| 0 <= i < m && KeyOf(id, parts[..m][i]) == k;
        assert KeyOf(id, parts[i]) == k;
      }
      if exists i :: 0 <= i < |parts| && KeyOf(id, parts[i]) == k {
        var i :| 0 <= i < |parts| && KeyOf(id, parts[i]) == k;
        if i < m {
          assert KeyOf(id, parts[..m][i]) == k;
        }
      }
    }
  }

  /** Deleting the keys of some parts leaves the items of the others. */
  lemma {:induction false} DeleteParts(id: string, parts: seq<Part>, gone: set<ItemKey>, keep: Part -> bool)
    requires forall i :: 0 <= i < |parts| ==> (KeyOf(id, parts[i]) in gone <==> !keep(parts[i]))
    ensures PlanItems(id, parts) - gone == PlanItems(id, Filter(parts, keep))
  {
    if parts != [] {
      var m := |parts| - 1;
      DeleteParts(id, parts[..m], gone, keep);
      var kept := Filter(parts[..m], keep);
      if keep(parts[m]) {
        assert Filter(parts, keep)[..|kept|] == kept;
      } else {
        assert Filter(parts, keep) == kept;
      }
    }
  }

  lemma {:induction false} FilterSum(parts: seq<Part>, keep: Part -> bool, p: Part -> bool, both: Part -> bool)
    requires forall i :: 0 <= i < |parts| ==> both(parts[i]) == (keep(parts[i]) && p(parts[i]))
    ensures SumParts(Filter(parts, keep), p) == SumParts(parts, both)
  {
    if parts != [] {
      var m := |parts| - 1;
      FilterSum(parts[..m], keep, p, both);
      var kept := Filter(parts[..m], keep);
      if keep(parts[m]) {
        assert Filter(parts, keep)[..|kept|] == kept;
      } else {
        assert Filter(parts, keep) == kept;
      }
    }
  }

  lemma {:induction false} FilterMember(parts: seq<Part>, keep: Part -> bool, i: int)
    requires 0 <= i < |Filter(parts, keep)|
    ensures Filter(parts, keep)[i] in parts && keep(Filter(parts, keep)[i])
  {
    var m := |parts| - 1;
    var kept := Filter(parts[..m], keep);
    if i < |kept| {
      FilterMember(parts[..m], keep, i);
    }
  }

  /** Plans with equal amounts sum alike where the selections agree part by part. */
  lemma {:induction false} SumPartsSame(a: seq<Part>, b: seq<Part>, p: Part -> bool, q: Part -> bool)
    requires |a| == |b|
    requires forall i :: 0 <= i < |a| ==> a[i].amount == b[i].amount && p(a[i]) == q(b[i])
    ensures SumParts(a, p) == SumParts(b, q)
  {
    if a != [] {
      SumPartsSame(a[..|a| - 1], b[..|b| - 1], p, q);
    }
  }

  lemma {:induction false} SumPartsSplit(parts: seq<Part>, p: Part -> bool, q: Part -> bool, r: Part -> bool)
    requires forall i :: 0 <= i < |parts| ==> (p(parts[i]) <==> q(parts[i]) || r(parts[i])) && !(q(parts[i]) && r(parts[i]))
    ensures SumParts(parts, p) == SumParts(parts, q) + SumParts(parts, r)
  {
    if parts != [] {
      SumPartsSplit(parts[..|parts| - 1], p, q, r);
    }
  }

  /** With positive amounts a selection sums to zero exactly when it selects nothing. */
  lemma {:induction false} SumPartsZero(parts: seq<Part>, p: Part -> bool)
    requires forall i :: 0 <= i < |parts| ==> parts[i].amount > 0
    ensures SumParts(parts, p) >= 0
    ensures SumParts(parts, p) == 0 <==> forall i :: 0 <= i < |parts| ==> !p(parts[i])
  {
    if parts != [] {
      var m := |parts| - 1;
      SumPartsZero(parts[..m], p);
      if SumParts(parts, p) == 0 {
        forall i | 0 <= i < |parts| ensures !p(parts[i]) {
          if i < m {
            assert parts[..m][i] == parts[i];
          }
        }
      }
    }
  }

  lemma {:induction false} FreshPartsTotal(plan: seq<Installment>)
    ensures SumParts(FreshParts(plan), AnyPart()) == PlanTotal(plan)
  {
    if plan != [] {
      var m := |plan| - 1;
      FreshPartsTotal(plan[..m]);
      assert FreshParts(plan)[..m] == FreshParts(plan[..m]);
    }
  }

  lemma BumpApart(m: map<ItemKey, Cents>, k: ItemKey, a: Cents, j: ItemKey, v: Cents)
    requires k != j
    ensures Bump(m[j := v], k, a) == Bump(m, k, a)[j := v]
  {
  }

  lemma PlanUnfold(id: string, parts: seq<Part>, p: Part)
    ensures PlanItems(id, parts + [p]) == Bump(PlanItems(id, parts), KeyOf(id, p), p.amount)
  {
    assert (parts + [p])[..|parts|] == parts;
  }

  /** The items an advance leaves: the untouched ones, and one "adv" item if anything moved. */
  function Moved(id: string, kept: map<ItemKey, Cents>, open: Month, sum: Cents): map<ItemKey, Cents> {
    if sum == 0 then kept else kept[AdvKey(id, open) := sum]
  }

  lemma MovedMore(id: string, kept: map<ItemKey, Cents>, open: Month, sum: Cents, more: Cents)
    requires AdvKey(id, open) !in kept && more > 0 && sum >= 0
    ensures Bump(Moved(id, kept, open, sum), AdvKey(id, open), more) == Moved(id, kept, open, sum + more)
  {
    if sum == 0 {
      assert Moved(id, kept, open, sum) == kept;
    } else {
      assert kept[AdvKey(id, open) := sum][AdvKey(id, open) := sum + more] == kept[AdvKey(id, open) := sum + more];
    }
  }

  /** The advanced plan of parts names the kept items and one "adv" item with the rest. */
  ghost predicate NamesMoved(id: string, parts: seq<Part>, open: Month, keep: Part -> bool) {
    var kept := PlanItems(id, Filter(parts, keep));
    && AdvKey(id, open) !in kept
    && PlanItems(id, AdvancedParts(parts, open)) == Moved(id, kept, open, SumParts(parts, After(open)))
  }

  function AdvancedPart(p: Part, open: Month): Part { if p.month > open then p.(month := open, advanced := true) else p }

  lemma AdvancedSnoc(init: seq<Part>, p: Part, open: Month)
    ensures AdvancedParts(init + [p], open) == AdvancedParts(init, open) + [AdvancedPart(p, open)]
  {
  }

  lemma PartsSnoc(init: seq<Part>, p: Part, keep: Part -> bool)
    ensures Filter(init + [p], keep) == Filter(init, keep) + (if keep(p) then [p] else [])
    ensures SumParts(init + [p], keep) == SumParts(init, keep) + (if keep(p) then p.amount else 0)
  {
    assert (init + [p])[..|init|] == init;
  }

  lemma KeptNamed(id: string, init: seq<Part>, p: Part, open: Month, keep: Part -> bool)
    requires NamesMoved(id, init, open, keep) && keep(p) && p.month <= open && !p.advanced
    ensures NamesMoved(id, init + [p], open, keep)
  {
    AdvancedSnoc(init, p, open);
    PartsSnoc(init, p, keep);
    PartsSnoc(init, p, After(open));
    PlanUnfold(id, AdvancedParts(init, open), p);
    PlanUnfold(id, Filter(init, keep), p);
    BumpApart(PlanItems(id, Filter(init, keep)), KeyOf(id, p), p.amount, AdvKey(id, open), SumParts(init, After(open)));
  }

  lemma MovedNamed(id: string, init: seq<Part>, p: Part, open: Month, keep: Part -> bool)
    requires NamesMoved(id, init, open, keep) && !keep(p) && p.month > open && p.amount > 0 && SumParts(init, After(open)) >= 0
    ensures NamesMoved(id, init + [p], open, keep)
  {
    Dropped(init, p, keep);
    PartsSnoc(init, p, After(open));
    MovedPart(id, init, p, open);
    MovedMore(id, PlanItems(id, Filter(init, keep)), open, SumParts(init, After(open)), p.amount);
  }

  lemma Dropped(init: seq<Part>, p: Part, keep: Part -> bool)
    requires !keep(p)
    ensures Filter(init + [p], keep) == Filter(init, keep)
  {
    PartsSnoc(init, p, keep);
  }

  lemma MovedPart(id: string, init: seq<Part>, p: Part, open: Month)
    requires p.month > open
    ensures PlanItems(id, AdvancedParts(init + [p], open)) == Bump(PlanItems(id, AdvancedParts(init, open)), AdvKey(id, open), p.amount)
  {
    AdvancedSnoc(init, p, open);
    PlanUnfold(id, AdvancedParts(init, open), AdvancedPart(p, open));
  }

  /** A plan no part of which was advanced, once advanced, names its untouched items and one "adv" item with the rest. */
  lemma {:induction false} AdvancedPlan(id: string, parts: seq<Part>, open: Month, keep: Part -> bool)
    requires forall i :: 0 <= i < |parts| ==> !parts[i].advanced && parts[i].amount > 0
    requires forall i :: 0 <= i < |parts| ==> keep(parts[i]) == (parts[i].month <= open)
    ensures NamesMoved(id, parts, open, keep)
  {
    if parts != [] {
      var m := |parts| - 1;
      var p, init := parts[m], parts[..m];
      AdvancedPlan(id, init, open, keep);
      SumPartsZero(init, After(open));
      assert init + [p] == parts;
      if p.month <= open {
        KeptNamed(id, init, p, open, keep);
      } else {
        MovedNamed(id, init, p, open, keep);
      }
    }
  }

  /** FirstAdvanced finds a month exactly when some advanced part is at or after open. */
  lemma {:induction false} FirstAdvancedFinds(parts: seq<Part>, open: Month)
    ensures FirstAdvanced(parts, open).Some?
       <==> exists i :: 0 <= i < |parts| && parts[i].month >= open && parts[i].advanced
    ensures FirstAdvanced(parts, open).Some?
        ==> exists i :: 0 <= i < |parts| && parts[i].month >= open && parts[i].advanced
                        && parts[i].month == FirstAdvanced(parts, open).value
  {
    if parts != [] && !(parts[0].month >= open && parts[0].advanced) {
      FirstAdvancedFinds(parts[1..], open);
      if FirstAdvanced(parts[1..], open).Some? {
        var i :| 0 <= i < |parts[1..]| && parts[1..][i].month >= open && parts[1..][i].advanced
                 && parts[1..][i].month == FirstAdvanced(parts[1..], open).value;
        assert parts[i + 1] == parts[1..][i];
      }
      forall i | 0 <= i < |parts| && parts[i].month >= open && parts[i].advanced
        ensures FirstAdvanced(parts, open).Some?
      {
        assert parts[1..][i - 1] == parts[i];
      }
    }
  }
}
