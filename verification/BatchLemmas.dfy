/** What a batch reads back about itself, compared with what it claimed. */
module BatchLemmas {
  import opened Basics
  import opened ChargeProtocol
  import opened ChargeSafety
  import opened BillingStore

  function Ids(rows: seq<PendingGroup>): (ids: seq<Id>)
    ensures |ids| == |rows| && forall i | 0 <= i < |rows| :: ids[i] == rows[i].group
  {
    seq(|rows|, i requires 0 <= i < |rows| => rows[i].group)
  }

  function SumMicros(rows: seq<PendingGroup>): nat {
    if rows == [] then 0 else SumMicros(rows[..|rows| - 1]) + rows[|rows| - 1].micros
  }

  lemma PendingOfMembers(charges: map<Id, Row>, b: Id, n: nat)
    ensures forall r <- PendingOf(charges, b, n) ::
              r.group < n && r.group in charges && charges[r.group].batch == Some(b) && Awaiting(charges[r.group])
    ensures forall g: Id | g < n && g in charges && charges[g].batch == Some(b) && Awaiting(charges[g]) ::
              PendingGroup(g, charges[g].micros) in PendingOf(charges, b, n)
  {
  }

  ghost function GroupSet(rows: seq<PendingGroup>): set<Id> {
    set r <- rows :: r.group
  }

  lemma PendingOfSize(charges: map<Id, Row>, b: Id, n: nat)
    ensures |PendingOf(charges, b, n)| == |GroupSet(PendingOf(charges, b, n))|
  {
    if n > 0 {
      var g := n - 1;
      var less, more := PendingOf(charges, b, g), PendingOf(charges, b, n);
      PendingOfSize(charges, b, g);
      PendingOfMembers(charges, b, g);
      if more != less {
        assert GroupSet(more) == GroupSet(less) + {g};
      }
    }
  }

  /** Rows of a batch are pending exactly while the batch is open. */
  lemma PendingMeansOpen(w: World, b: Id, g: Id)
    requires Inv(w)
    requires g in w.charges && w.charges[g].batch == Some(b) && Awaiting(w.charges[g])
    ensures Open(w, b) && g in w.claims[b].members
  {
    assert w.charges[g] == MemberRow(w.groups[g], b, w.claims[b]);
  }

  /** A closed batch reads back nothing. */
  lemma ClosedReadsNothing(w: World, b: Id)
    requires Inv(w) && !Open(w, b)
    ensures PendingOf(w.charges, b, |w.groups|) == []
  {
    PendingOfMembers(w.charges, b, |w.groups|);
    if PendingOf(w.charges, b, |w.groups|) != [] {
      var r := PendingOf(w.charges, b, |w.groups|)[0];
      PendingMeansOpen(w, b, r.group);
    }
  }

  lemma {:induction false} PendingSum(w: World, b: Id, n: nat)
    requires Inv(w) && Open(w, b) && n <= |w.groups|
    ensures SumMicros(PendingOf(w.charges, b, n)) == Total(w.groups[..n], w.claims[b].members)
  {
    if n > 0 {
      var g := n - 1;
      PendingSum(w, b, g);
      assert w.groups[..n][..g] == w.groups[..g];
      var less, more := PendingOf(w.charges, b, g), PendingOf(w.charges, b, n);
      if g in w.claims[b].members {
        assert more == less + [PendingGroup(g, w.groups[g].micros)];
        assert more[..|less|] == less;
      } else {
        assert more == less;
      }
    }
  }

  /**
   An open batch reads back exactly what it claimed: never cut by the query's limit, never another
   batch's group, and so with the sum it was reserved with.
   */
  lemma OpenReadsItself(w: World, b: Id)
    requires Inv(w) && Open(w, b)
    ensures var rows := PendingOf(w.charges, b, |w.groups|);
            && 0 < |rows| <= 500
            && (forall g: Id :: g in Ids(rows) <==> g in w.claims[b].members)
            && SumMicros(rows) == BatchMicros(w, b)
  {
    var rows := PendingOf(w.charges, b, |w.groups|);
    PendingOfMembers(w.charges, b, |w.groups|);
    forall g: Id
      ensures g in GroupSet(rows) <==> g in w.claims[b].members
    {
      if g in w.claims[b].members {
        assert PendingGroup(g, w.charges[g].micros) in rows;
      } else if g in GroupSet(rows) {
        PendingMeansOpen(w, b, g);
      }
    }
    assert GroupSet(rows) == w.claims[b].members;
    PendingOfSize(w.charges, b, |w.groups|);
    PendingSum(w, b, |w.groups|);
    assert w.groups[..|w.groups|] == w.groups;
    forall g: Id
      ensures g in Ids(rows) <==> g in GroupSet(rows)
    {
      if g in GroupSet(rows) {
        var r :| r in rows && r.group == g;
        var i :| 0 <= i < |rows| && rows[i] == r;
        assert Ids(rows)[i] == g;
      }
      if g in Ids(rows) {
        var i :| 0 <= i < |rows| && Ids(rows)[i] == g;
        assert rows[i] in rows;
      }
    }
  }

  /** The pending-filtered UPDATE over a batch's ids is the settling of that batch and of no other. */
  lemma UpdateIsSettle(w: World, b: Id, ids: seq<Id>, phase: Phase, charges: map<Id, Row>)
    requires RowsOk(w) && ClaimsOk(w) && Open(w, b) && phase != Released && phase != Reserved
    requires forall g: Id :: g in ids <==> g in w.claims[b].members
    requires charges.Keys == w.charges.Keys
    requires forall g <- charges ::
               charges[g] ==
               if g in ids && w.charges[g].status == Pending
               then w.charges[g].(status := if phase == Declined then Failed else Succeeded,
                                  pi := if phase.Charged? then Some(phase.pi) else None,
                                  viaBalance := phase.DrawnDown?)
               else w.charges[g]
    ensures charges == Settle(w, b, phase).charges
  {
    var c := w.claims[b].(phase := phase);
    var rows := MemberRows(w.groups, b, c);
    forall g <- w.claims[b].members
      ensures g in charges && charges[g] == MemberRow(w.groups[g], b, c)
    {
      assert w.charges[g] == MemberRow(w.groups[g], b, w.claims[b]);
    }
    assert charges == w.charges + rows;
  }

  /** The pending-filtered DELETE over a batch's ids releases that batch and no other. */
  lemma DeleteIsRelease(w: World, b: Id, ids: seq<Id>)
    requires Inv(w) && Open(w, b)
    requires forall g: Id :: g in ids <==> g in w.claims[b].members
    ensures (map g <- w.charges | !(g in ids && Awaiting(w.charges[g])) :: w.charges[g])
            == w.charges - w.claims[b].members
  {
    forall g <- w.claims[b].members
      ensures g in w.charges && Awaiting(w.charges[g])
    {
      assert w.charges[g] == MemberRow(w.groups[g], b, w.claims[b]);
    }
  }

  lemma ReachableUpdateIsSettle(w0: World, es: seq<Event>, w: World, b: Id, ids: seq<Id>, phase: Phase, charges: map<Id, Row>)
    requires Initial(w0) && Reaches(w0, es, w) && Open(w, b) && phase != Released && phase != Reserved
    requires forall g: Id :: g in ids <==> g in w.claims[b].members
    requires charges.Keys == w.charges.Keys
    requires forall g <- charges ::
               charges[g] ==
               if g in ids && w.charges[g].status == Pending
               then w.charges[g].(status := if phase == Declined then Failed else Succeeded,
                                  pi := if phase.Charged? then Some(phase.pi) else None,
                                  viaBalance := phase.DrawnDown?)
               else w.charges[g]
    ensures charges == Settle(w, b, phase).charges
  {
    InitialInv(w0);
    ReachesInv(w0, es, w);
    UpdateIsSettle(w, b, ids, phase, charges);
  }

  lemma ReachableDeleteIsRelease(w0: World, es: seq<Event>, w: World, b: Id, ids: seq<Id>)
    requires Initial(w0) && Reaches(w0, es, w) && Open(w, b)
    requires forall g: Id :: g in ids <==> g in w.claims[b].members
    ensures (map g <- w.charges | !(g in ids && Awaiting(w.charges[g])) :: w.charges[g])
            == w.charges - w.claims[b].members
  {
    InitialInv(w0);
    ReachesInv(w0, es, w);
    DeleteIsRelease(w, b, ids);
  }

  lemma KeysPointToIntents(w0: World, es: seq<Event>, w: World)
    requires Initial(w0) && Reaches(w0, es, w)
    ensures forall b <- w.keys :: w.keys[b].intent < |w.intents| && w.intents[w.keys[b].intent].batch == b
  {
    InitialInv(w0);
    ReachesInv(w0, es, w);
  }

  lemma TotalOfPrefix(groups: seq<Group>, more: seq<Group>, s: set<Id>)
    requires groups <= more && forall g <- s :: g < |groups|
    ensures Total(more, s) == Total(groups, s)
    decreases |more|
  {
    if |groups| < |more| {
      TotalOfPrefix(groups, more[..|more| - 1], s);
    } else {
      assert groups == more;
    }
  }

  /** A batch's sum does not move once it is reserved, however many groups clear later. */
  lemma BatchMicrosLasts(w0: World, es: seq<Event>, w: World, fs: seq<Event>, w': World, b: Id)
    requires Initial(w0) && Reaches(w0, es, w) && Reaches(w0, fs, w') && es <= fs && b < |w.claims|
    ensures b < |w'.claims| && w'.claims[b].members == w.claims[b].members
    ensures BatchMicros(w', b) == BatchMicros(w, b)
  {
    InitialInv(w0);
    ReachesInv(w0, es, w);
    LaterKept(w0, es, w, fs, w');
    assert w'.claims[b].(phase := w.claims[b].phase) == w.claims[b];
    TotalOfPrefix(w.groups, w'.groups, w.claims[b].members);
  }
}
