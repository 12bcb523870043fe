/** Grouping the uncharged view by advertiser and deciding what to do with each advertiser. */
module Planning {
  import opened Basics
  import opened ChargeProtocol

  /** A row of uncharged_advertiser_billings. */
  datatype ViewRow = ViewRow(group: Id, advertiser: Id, micros: nat, house: bool, mode: Mode)

  datatype Action = SkipHouseGroups | SkipBelowMinimum | DrawPrepay | ChargeCard

  datatype Plan = Plan(advertiser: Id, house: bool, mode: Mode, rows: seq<ViewRow>, micros: nat)

  /** House first, then the route, then Stripe's minimum, which a draw-down does not have. */
  function ActionOf(p: Plan): Action {
    if p.house then SkipHouseGroups
    else if p.mode == Prepay then DrawPrepay
    else if MicrosToCents(p.micros) < STRIPE_MINIMUM_CENTS then SkipBelowMinimum
    else ChargeCard
  }

  // ---------------------------------------------------------------- what a plan list must be

  /** The rows of one advertiser, in view order. */
  function Select(rows: seq<ViewRow>, a: Id): seq<ViewRow> {
    if rows == [] then []
    else
      var last := |rows| - 1;
      Select(rows[..last], a) + if rows[last].advertiser == a then [rows[last]] else []
  }

  function RowMicros(rows: seq<ViewRow>): nat {
    if rows == [] then 0 else RowMicros(rows[..|rows| - 1]) + rows[|rows| - 1].micros
  }

  /** The advertisers of a view, in order of first appearance. */
  function Advertisers(rows: seq<ViewRow>): seq<Id> {
    if rows == [] then []
    else
      var last := |rows| - 1;
      var earlier := Advertisers(rows[..last]);
      if rows[last].advertiser in earlier then earlier else earlier + [rows[last].advertiser]
  }

  ghost predicate PlanFor(p: Plan, rows: seq<ViewRow>, a: Id) {
    && p.advertiser == a
    && p.rows == Select(rows, a)
    && p.rows != []
    && p.house == p.rows[0].house
    && p.mode == p.rows[0].mode
    && p.micros == RowMicros(p.rows)
  }

  ghost predicate PlansFor(plans: seq<Plan>, rows: seq<ViewRow>) {
    && |plans| == |Advertisers(rows)|
    && forall i: nat | i < |plans| :: PlanFor(plans[i], rows, Advertisers(rows)[i])
  }

  lemma SelectExtends(rows: seq<ViewRow>, r: ViewRow, a: Id)
    ensures Select(rows + [r], a) == Select(rows, a) + if r.advertiser == a then [r] else []
    ensures Advertisers(rows + [r]) ==
            if r.advertiser in Advertisers(rows) then Advertisers(rows) else Advertisers(rows) + [r.advertiser]
    ensures RowMicros(rows + [r]) == RowMicros(rows) + r.micros
  {
    assert (rows + [r])[..|rows|] == rows;
  }

  lemma {:induction false} AdvertisersDistinct(rows: seq<ViewRow>)
    ensures forall i: nat, j: nat | i < j < |Advertisers(rows)| :: Advertisers(rows)[i] != Advertisers(rows)[j]
    ensures forall a: Id :: a in Advertisers(rows) <==> Select(rows, a) != []
  {
    if rows != [] {
      AdvertisersDistinct(rows[..|rows| - 1]);
    }
  }

  // ---------------------------------------------------------------- the planning loop

  function Push(p: Plan, r: ViewRow): Plan {
    p.(rows := p.rows + [r], micros := p.micros + r.micros)
  }

  function OpenPlan(r: ViewRow): Plan {
    Plan(r.advertiser, r.house, r.mode, [], 0)
  }

  /** A row of another advertiser leaves a plan as it is. */
  lemma PlanStays(p: Plan, rows: seq<ViewRow>, r: ViewRow, a: Id)
    requires PlanFor(p, rows, a) && r.advertiser != a
    ensures PlanFor(p, rows + [r], a)
  {
    SelectExtends(rows, r, a);
  }

  lemma RowJoinsPlan(plans: seq<Plan>, rows: seq<ViewRow>, r: ViewRow, i: nat)
    requires PlansFor(plans, rows)
    requires i < |plans| && plans[i].advertiser == r.advertiser
    ensures PlansFor(plans[i := Push(plans[i], r)], rows + [r])
  {
    AdvertisersDistinct(rows);
    SelectExtends(rows, r, r.advertiser);
    SelectExtends(plans[i].rows, r, r.advertiser);
    assert PlanFor(plans[i], rows, r.advertiser);
    assert PlanFor(Push(plans[i], r), rows + [r], r.advertiser);
    forall j: nat | j < |plans| && j != i
      ensures PlanFor(plans[j], rows + [r], Advertisers(rows)[j])
    {
      PlanStays(plans[j], rows, r, Advertisers(rows)[j]);
    }
  }

  lemma PlanOpens(rows: seq<ViewRow>, r: ViewRow)
    requires r.advertiser !in Advertisers(rows)
    ensures PlanFor(Push(OpenPlan(r), r), rows + [r], r.advertiser)
  {
    AdvertisersDistinct(rows);
    SelectExtends(rows, r, r.advertiser);
    SelectExtends([], r, r.advertiser);
    assert [] + [r] == [r];
  }

  lemma RowOpensPlan(plans: seq<Plan>, rows: seq<ViewRow>, r: ViewRow)
    requires PlansFor(plans, rows) && r.advertiser !in Advertisers(rows)
    ensures PlansFor(plans + [Push(OpenPlan(r), r)], rows + [r])
  {
    SelectExtends(rows, r, r.advertiser);
    PlanOpens(rows, r);
    forall j: nat | j < |plans|
      ensures PlanFor(plans[j], rows + [r], Advertisers(rows)[j])
    {
      PlanStays(plans[j], rows, r, Advertisers(rows)[j]);
    }
  }

  method PlanAdvertiserCharges(view: seq<ViewRow>) returns (plans: seq<Plan>)
    ensures PlansFor(plans, view)
  {
    plans := [];
    var byAdvertiser: map<Id, nat> := map[];
    for k := 0 to |view|
      invariant PlansFor(plans, view[..k])
      invariant forall a: Id :: a in byAdvertiser <==> a in Advertisers(view[..k])
      invariant forall a <- byAdvertiser :: byAdvertiser[a] < |plans| && plans[byAdvertiser[a]].advertiser == a
    {
      var r := view[k];
      assert view[..k + 1] == view[..k] + [r];
      SelectExtends(view[..k], r, r.advertiser);
      if r.advertiser in byAdvertiser {
        var i := byAdvertiser[r.advertiser];
        RowJoinsPlan(plans, view[..k], r, i);
        plans := plans[i := Push(plans[i], r)];
      } else {
        RowOpensPlan(plans, view[..k], r);
        byAdvertiser := byAdvertiser[r.advertiser := |plans|];
        plans := plans + [Push(OpenPlan(r), r)];
      }
    }
    assert view[..|view|] == view;
  }

  // ---------------------------------------------------------------- a plan list is a partition

  /** The rows of all plans, as a multiset. */
  function AllRows(plans: seq<Plan>): multiset<ViewRow> {
    if plans == [] then multiset{} else AllRows(plans[..|plans| - 1]) + multiset(plans[|plans| - 1].rows)
  }

  function AllMicros(plans: seq<Plan>): nat {
    if plans == [] then 0 else AllMicros(plans[..|plans| - 1]) + plans[|plans| - 1].micros
  }

  lemma {:induction false} AllRowsPush(plans: seq<Plan>, i: nat, r: ViewRow)
    requires i < |plans|
    ensures AllRows(plans[i := Push(plans[i], r)]) == AllRows(plans) + multiset{r}
  {
    var last := |plans| - 1;
    var grown := plans[i := Push(plans[i], r)];
    if i < last {
      AllRowsPush(plans[..last], i, r);
      assert grown[..last] == plans[..last][i := Push(plans[i], r)];
    } else {
      assert grown[..last] == plans[..last];
      assert multiset(plans[last].rows + [r]) == multiset(plans[last].rows) + multiset{r};
    }
  }

  lemma {:induction false} AllMicrosPush(plans: seq<Plan>, i: nat, r: ViewRow)
    requires i < |plans|
    ensures AllMicros(plans[i := Push(plans[i], r)]) == AllMicros(plans) + r.micros
  {
    var last := |plans| - 1;
    var grown := plans[i := Push(plans[i], r)];
    if i < last {
      AllMicrosPush(plans[..last], i, r);
      assert grown[..last] == plans[..last][i := Push(plans[i], r)];
    } else {
      assert grown[..last] == plans[..last];
    }
  }

  lemma AllRowsOpen(plans: seq<Plan>, r: ViewRow)
    ensures var plans' := plans + [Push(OpenPlan(r), r)];
            AllRows(plans') == AllRows(plans) + multiset{r} && AllMicros(plans') == AllMicros(plans) + r.micros
  {
    var plans' := plans + [Push(OpenPlan(r), r)];
    assert plans'[..|plans|] == plans;
  }

  /** Any two plan lists for the same view are the same list. */
  lemma PlansUnique(plans: seq<Plan>, others: seq<Plan>, view: seq<ViewRow>)
    requires PlansFor(plans, view) && PlansFor(others, view)
    ensures plans == others
  {
    forall i: nat | i < |plans|
      ensures plans[i] == others[i]
    {
      assert PlanFor(plans[i], view, Advertisers(view)[i]) && PlanFor(others[i], view, Advertisers(view)[i]);
    }
  }

  /** What one more row does to a plan list. */
  lemma PlansStep(earlier: seq<Plan>, rows: seq<ViewRow>, r: ViewRow) returns (plans: seq<Plan>)
    requires PlansFor(earlier, rows)
    ensures PlansFor(plans, rows + [r])
    ensures AllRows(plans) == AllRows(earlier) + multiset{r}
    ensures AllMicros(plans) == AllMicros(earlier) + r.micros
  {
    if r.advertiser in Advertisers(rows) {
      var i: nat :| i < |earlier| && Advertisers(rows)[i] == r.advertiser;
      assert PlanFor(earlier[i], rows, r.advertiser);
      RowJoinsPlan(earlier, rows, r, i);
      AllRowsPush(earlier, i, r);
      AllMicrosPush(earlier, i, r);
      plans := earlier[i := Push(earlier[i], r)];
    } else {
      RowOpensPlan(earlier, rows, r);
      AllRowsOpen(earlier, r);
      plans := earlier + [Push(OpenPlan(r), r)];
    }
  }

  /** Planning loses no row, invents none and keeps every cent: the plans partition the view. */
  lemma {:induction false} PlansPartition(plans: seq<Plan>, view: seq<ViewRow>)
    requires PlansFor(plans, view)
    ensures AllRows(plans) == multiset(view)
    ensures AllMicros(plans) == RowMicros(view)
    decreases |view|
  {
    if view != [] {
      var last := |view| - 1;
      var rows, r := view[..last], view[last];
      assert view == rows + [r];
      var earlier := SomePlans(rows);
      PlansPartition(earlier, rows);
      var grown := PlansStep(earlier, rows, r);
      PlansUnique(plans, grown, view);
      assert RowMicros(view) == RowMicros(rows) + r.micros;
    }
  }

  ghost function SomePlans(rows: seq<ViewRow>): (plans: seq<Plan>)
    ensures PlansFor(plans, rows)
  {
    AdvertisersDistinct(rows);
    seq(|Advertisers(rows)|, i requires 0 <= i < |Advertisers(rows)| =>
      var own := Select(rows, Advertisers(rows)[i]);
      Plan(Advertisers(rows)[i], own[0].house, own[0].mode, own, RowMicros(own)))
  }

  /** Every row of a plan was in the view. */
  lemma PlannedRowsAreViewRows(view: seq<ViewRow>, a: Id)
    ensures |Select(view, a)| <= |view|
    ensures forall r <- Select(view, a) :: r in view && r.advertiser == a
  {
  }
}
