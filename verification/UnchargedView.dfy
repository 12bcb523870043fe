/** What the uncharged view shows a run, told without the query: the oldest free groups, each once. */
module UnchargedView {
  import opened Basics
  import opened ChargeProtocol
  import opened Planning
  import opened BillingStore

  /** How many of the first n groups no row claims. */
  function FreeBelow(charges: map<Id, Row>, n: nat): nat {
    if n == 0 then 0 else FreeBelow(charges, n - 1) + if n - 1 in charges then 0 else 1
  }

  /** One of the 500 oldest groups no row claims. */
  predicate Seen(w: World, g: Id) {
    g < |w.groups| && g !in w.charges && FreeBelow(w.charges, g) < 500
  }

  /** What a run is shown of one advertiser. */
  function SeenOf(w: World, a: Id): set<Id> {
    set g | 0 <= g < |w.groups| && Seen(w, g) && w.groups[g].advertiser == a
  }

  /** The row the view shows for a free group. */
  function RowOf(w: World, g: Id): ViewRow
    requires g < |w.groups|
  {
    var a := w.groups[g].advertiser;
    ViewRow(g, a, w.groups[g].micros, a in w.house, if a in w.prepayNow then Prepay else Postpay)
  }

  /** What the view shows a run: the 500 oldest uncharged groups. */
  function View(w: World): seq<ViewRow> {
    var all := Uncharged(w.groups, w.charges, w.house, w.prepayNow, |w.groups|);
    if |all| <= 500 then all else all[..500]
  }

  /** The rows of the free groups among the first n. */
  function FirstRows(w: World, n: nat): seq<ViewRow>
    requires n <= |w.groups|
  {
    Uncharged(w.groups, w.charges, w.house, w.prepayNow, n)
  }

  lemma RowsStep(w: World, n: nat)
    requires n < |w.groups|
    ensures FirstRows(w, n + 1) == FirstRows(w, n) + if n in w.charges then [] else [RowOf(w, n)]
  {
  }

  lemma {:induction false} RowsCount(w: World, n: nat)
    requires n <= |w.groups|
    ensures |FirstRows(w, n)| == FreeBelow(w.charges, n)
  {
    if n > 0 {
      RowsCount(w, n - 1);
      RowsStep(w, n - 1);
    }
  }

  /** A free group's row stands after those of the older free groups. */
  lemma {:induction false} RowStandsAt(w: World, n: nat, g: Id)
    requires g < n <= |w.groups| && g !in w.charges
    ensures FreeBelow(w.charges, g) < |FirstRows(w, n)| && FirstRows(w, n)[FreeBelow(w.charges, g)] == RowOf(w, g)
  {
    RowsStep(w, n - 1);
    RowsCount(w, n - 1);
    if g < n - 1 {
      RowStandsAt(w, n - 1, g);
    }
  }

  /** Nothing else is in the view. */
  lemma {:induction false} RowIsOf(w: World, n: nat, k: nat)
    requires n <= |w.groups| && k < |FirstRows(w, n)|
    ensures var g := FirstRows(w, n)[k].group;
            g < n && g !in w.charges && FreeBelow(w.charges, g) == k && FirstRows(w, n)[k] == RowOf(w, g)
  {
    if n > 0 {
      RowsStep(w, n - 1);
      RowsCount(w, n - 1);
      if k < |FirstRows(w, n - 1)| {
        RowIsOf(w, n - 1, k);
      }
    }
  }

  /** The view shows exactly the 500 oldest free groups, each once and in order. */
  lemma ViewShowsSeen(w: World)
    ensures forall g: Id :: Seen(w, g) ==> RowOf(w, g) in View(w)
    ensures forall r <- View(w) :: Seen(w, r.group) && r == RowOf(w, r.group)
    ensures forall i: nat, j: nat | i < j < |View(w)| :: View(w)[i].group != View(w)[j].group
  {
    var all := FirstRows(w, |w.groups|);
    forall g: Id | Seen(w, g)
      ensures RowOf(w, g) in View(w)
    {
      RowStandsAt(w, |w.groups|, g);
      assert View(w)[FreeBelow(w.charges, g)] == RowOf(w, g);
    }
    forall k: nat | k < |View(w)|
      ensures Seen(w, View(w)[k].group) && View(w)[k] == RowOf(w, View(w)[k].group)
      ensures FreeBelow(w.charges, View(w)[k].group) == k
    {
      assert View(w)[k] == all[k];
      RowIsOf(w, |w.groups|, k);
    }
  }

  lemma {:induction false} TotalAdd(groups: seq<Group>, s: set<Id>, g: Id)
    requires g < |groups| && g !in s
    ensures Total(groups, s + {g}) == Total(groups, s) + groups[g].micros
  {
    var last := |groups| - 1;
    if g < last {
      TotalAdd(groups[..last], s, g);
    } else {
      TotalSame(groups[..last], s, s + {g});
    }
  }

  lemma {:induction false} TotalSame(groups: seq<Group>, s: set<Id>, t: set<Id>)
    requires forall g: Id | g < |groups| :: g in s <==> g in t
    ensures Total(groups, s) == Total(groups, t)
  {
    if groups != [] {
      TotalSame(groups[..|groups| - 1], s, t);
    }
  }

  /** The groups among some rows that are one advertiser's. */
  function GroupsOf(rows: seq<ViewRow>, a: Id): set<Id> {
    set r <- rows | r.advertiser == a :: r.group
  }

  /** Rows of the view, each of another group. */
  ghost predicate FromView(w: World, rows: seq<ViewRow>) {
    && (forall r <- rows :: r.group < |w.groups| && r == RowOf(w, r.group))
    && forall i: nat, j: nat | i < j < |rows| :: rows[i].group != rows[j].group
  }

  lemma GroupsOfStep(w: World, rows: seq<ViewRow>, a: Id)
    requires rows != [] && FromView(w, rows)
    ensures var before, r := rows[..|rows| - 1], rows[|rows| - 1];
            && FromView(w, before) && r.group < |w.groups| && r.micros == w.groups[r.group].micros
            && (if r.advertiser == a
                then r.group !in GroupsOf(before, a) && GroupsOf(rows, a) == GroupsOf(before, a) + {r.group}
                else GroupsOf(rows, a) == GroupsOf(before, a))
  {
    var before, r := rows[..|rows| - 1], rows[|rows| - 1];
    assert rows == before + [r];
  }

  /** Selecting an advertiser's rows keeps their sum. */
  lemma {:induction false} SelectTotal(w: World, rows: seq<ViewRow>, a: Id)
    requires FromView(w, rows)
    ensures RowMicros(Select(rows, a)) == Total(w.groups, GroupsOf(rows, a))
  {
    if rows == [] {
      TotalOfNone(w.groups);
      assert GroupsOf(rows, a) == {};
    } else {
      var before, r := rows[..|rows| - 1], rows[|rows| - 1];
      GroupsOfStep(w, rows, a);
      SelectTotal(w, before, a);
      if r.advertiser == a {
        TotalAdd(w.groups, GroupsOf(before, a), r.group);
        SelectExtends(Select(before, a), r, a);
      } else {
        assert Select(rows, a) == Select(before, a);
      }
    }
  }

  /** Selecting an advertiser's rows keeps its groups. */
  lemma {:induction false} SelectGroups(rows: seq<ViewRow>, a: Id)
    ensures forall r: ViewRow :: r in Select(rows, a) <==> r in rows && r.advertiser == a
  {
    if rows != [] {
      SelectGroups(rows[..|rows| - 1], a);
    }
  }

  lemma {:induction false} TotalOfNone(groups: seq<Group>)
    ensures Total(groups, {}) == 0
  {
    if groups != [] {
      TotalOfNone(groups[..|groups| - 1]);
    }
  }

  /** An advertiser's plan has all that is seen of it, its sum, and its house mark and billing mode now. */
  lemma PlanIsSeen(w: World, p: Plan)
    requires PlanFor(p, View(w), p.advertiser)
    ensures (set r <- p.rows :: r.group) == SeenOf(w, p.advertiser) != {}
    ensures p.micros == Total(w.groups, SeenOf(w, p.advertiser))
    ensures p.house <==> p.advertiser in w.house
    ensures p.mode == if p.advertiser in w.prepayNow then Prepay else Postpay
    ensures forall r <- p.rows :: r.group < |w.groups| && r.micros == w.groups[r.group].micros
  {
    var a := p.advertiser;
    ViewShowsSeen(w);
    SelectTotal(w, View(w), a);
    SelectGroups(View(w), a);
    forall g: Id
      ensures g in SeenOf(w, a) <==> g in GroupsOf(View(w), a)
    {
      if g in SeenOf(w, a) {
        assert RowOf(w, g) in View(w) && RowOf(w, g).advertiser == a;
      }
    }
    assert GroupsOf(View(w), a) == SeenOf(w, a);
    assert p.rows[0] in p.rows && p.rows[0].group in GroupsOf(View(w), a);
  }

  /** Every advertiser something is seen of has its plan. */
  lemma SeenHasPlan(w: World, plans: seq<Plan>, a: Id)
    requires PlansFor(plans, View(w)) && SeenOf(w, a) != {}
    ensures exists i: nat :: i < |plans| && plans[i].advertiser == a
  {
    var g :| g in SeenOf(w, a);
    ViewShowsSeen(w);
    SelectGroups(View(w), a);
    assert RowOf(w, g) in Select(View(w), a);
    AdvertisersDistinct(View(w));
    assert a in Advertisers(View(w));
    var i: nat :| i < |plans| && Advertisers(View(w))[i] == a;
    assert PlanFor(plans[i], View(w), a);
  }
}
