/** What GET /billing/reconcile reports, for every reachable world, and where every cleared micro is. */
module Reconcile {
  import opened Basics
  import opened ChargeProtocol
  import opened ChargeSafety

  // ---------------------------------------------------------------- the two totals

  /**
   The groups billing_recon_totals counts: their legs still cleared, none of clawed, and their
   advertiser not on prepay at this moment.
   */
  function Counted(w: World, clawed: set<Id>): set<Id> {
    set g: nat | g < |w.groups| && g !in clawed && w.groups[g].advertiser !in w.prepayNow
  }

  function DbTotal(w: World, clawed: set<Id>): nat {
    Total(w.groups, Counted(w, clawed))
  }

  /** Ten thousand micros for every cent of every succeeded PaymentIntent. */
  function SucceededMicros(intents: seq<Intent>): nat {
    if intents == [] then 0
    else
      var last := |intents| - 1;
      SucceededMicros(intents[..last])
      + if intents[last].status == PiSucceeded then intents[last].cents * MICROS_PER_CENT else 0
  }

  /** How many PaymentIntents succeeded. */
  function SucceededCount(intents: seq<Intent>): nat {
    if intents == [] then 0
    else
      var last := |intents| - 1;
      SucceededCount(intents[..last]) + if intents[last].status == PiSucceeded then 1 else 0
  }

  function Discrepancy(w: World, clawed: set<Id>): int {
    DbTotal(w, clawed) - SucceededMicros(w.intents)
  }

  // ---------------------------------------------------------------- what they should be made of

  ghost predicate PaidBy(w: World, i: Id, g: Id) {
    && i < |w.intents| && w.intents[i].status == PiSucceeded
    && w.intents[i].batch < |w.claims|
    && g in w.claims[w.intents[i].batch].members
  }

  /** The groups in the batch of some succeeded PaymentIntent. */
  ghost function CardPaid(w: World): set<Id> {
    set g: nat | g < |w.groups| && IsCardPaid(w, g)
  }

  ghost predicate IsCardPaid(w: World, g: Id) {
    exists i: Id :: PaidBy(w, i, g)
  }

  /** Counted, but in no succeeded PaymentIntent. */
  ghost function Uncovered(w: World, clawed: set<Id>): set<Id> {
    Counted(w, clawed) - CardPaid(w)
  }

  /** Paid by card, but no longer counted: clawed back since, or the advertiser went to prepay. */
  ghost function Hidden(w: World, clawed: set<Id>): set<Id> {
    CardPaid(w) - Counted(w, clawed)
  }

  function Remainder(w: World, i: Id): int
    requires i < |w.intents| && w.intents[i].batch < |w.claims|
  {
    BatchMicros(w, w.intents[i].batch) - w.intents[i].cents * MICROS_PER_CENT
  }

  /** The sub-cent parts left over by the first n intents that succeeded. */
  function Remainders(w: World, n: nat): int
    requires n <= |w.intents| && forall i: Id | i < n :: w.intents[i].batch < |w.claims|
  {
    if n == 0 then 0
    else Remainders(w, n - 1) + if w.intents[n - 1].status == PiSucceeded then Remainder(w, n - 1) else 0
  }

  // ---------------------------------------------------------------- sums over sets of groups

  lemma TotalUnion(groups: seq<Group>, s: set<Id>, t: set<Id>)
    requires s !! t
    ensures Total(groups, s + t) == Total(groups, s) + Total(groups, t)
  {
  }

  lemma TotalSplit(groups: seq<Group>, s: set<Id>, t: set<Id>)
    ensures Total(groups, s) == Total(groups, s - t) + Total(groups, s * t)
  {
    TotalUnion(groups, s - t, s * t);
    assert (s - t) + (s * t) == s;
  }

  lemma {:induction false} TotalZero(groups: seq<Group>, s: set<Id>)
    requires forall g: Id | g < |groups| :: groups[g].micros > 0
    ensures Total(groups, s) == 0 <==> forall g <- s :: g >= |groups|
  {
    if groups != [] {
      var last := |groups| - 1;
      TotalZero(groups[..last], s);
      if last in s {
        assert Total(groups, s) > 0;
      } else {
        assert forall g <- s :: g >= last <==> g >= |groups|;
      }
    }
  }

  // ---------------------------------------------------------------- card-paid groups, intent by intent

  ghost function PaidByFirst(w: World, n: nat): set<Id>
    requires n <= |w.intents| && forall i: Id | i < n :: w.intents[i].batch < |w.claims|
  {
    if n == 0 then {}
    else PaidByFirst(w, n - 1)
         + if w.intents[n - 1].status == PiSucceeded then w.claims[w.intents[n - 1].batch].members else {}
  }

  lemma {:induction false} PaidByFirstMembers(w: World, n: nat, g: Id)
    requires n <= |w.intents| && forall i: Id | i < n :: w.intents[i].batch < |w.claims|
    ensures g in PaidByFirst(w, n) <==> exists i: Id :: i < n && PaidBy(w, i, g)
  {
    if n > 0 {
      PaidByFirstMembers(w, n - 1, g);
      assert PaidBy(w, n - 1, g) <==>
             w.intents[n - 1].status == PiSucceeded && g in w.claims[w.intents[n - 1].batch].members;
    }
  }

  /** Two succeeded intents never share a group. */
  lemma PaidOnce(w: World, i: Id, j: Id, g: Id)
    requires Inv(w) && PaidBy(w, i, g) && j < |w.intents| && w.intents[j].status == PiSucceeded
    ensures PaidBy(w, j, g) ==> i == j
  {
    MembersDisjoint(w, w.intents[i].batch, w.intents[j].batch, g);
    assert LiveIntent(w, w.intents[i].batch, i) && LiveIntent(w, w.intents[j].batch, j);
  }

  lemma PaidByFirstDisjoint(w: World, i: Id)
    requires Inv(w) && i < |w.intents| && w.intents[i].status == PiSucceeded
    ensures PaidByFirst(w, i) !! w.claims[w.intents[i].batch].members
  {
    forall g | g in PaidByFirst(w, i)
      ensures g !in w.claims[w.intents[i].batch].members
    {
      PaidByFirstMembers(w, i, g);
      var j: Id :| j < i && PaidBy(w, j, g);
      PaidOnce(w, j, i, g);
    }
  }

  lemma {:induction false} PaidByFirstTotal(w: World, n: nat)
    requires n <= |w.intents| && forall i: Id | i < n :: w.intents[i].batch < |w.claims|
    requires forall i: Id | i < n && w.intents[i].status == PiSucceeded ::
               PaidByFirst(w, i) !! w.claims[w.intents[i].batch].members
    ensures Total(w.groups, PaidByFirst(w, n)) == SucceededMicros(w.intents[..n]) + Remainders(w, n)
  {
    if n == 0 {
      NothingTotal(w.groups);
    } else {
      var i := n - 1;
      PaidByFirstTotal(w, i);
      assert w.intents[..n][..i] == w.intents[..i];
      if w.intents[i].status == PiSucceeded {
        TotalUnion(w.groups, PaidByFirst(w, i), w.claims[w.intents[i].batch].members);
      } else {
        assert PaidByFirst(w, n) == PaidByFirst(w, i);
      }
    }
  }

  lemma NothingTotal(groups: seq<Group>)
    ensures Total(groups, {}) == 0
  {
  }

  lemma CardPaidTotal(w: World)
    requires Inv(w)
    ensures Total(w.groups, CardPaid(w)) == SucceededMicros(w.intents) + Remainders(w, |w.intents|)
  {
    forall g: Id
      ensures g in CardPaid(w) <==> g in PaidByFirst(w, |w.intents|)
    {
      PaidByFirstMembers(w, |w.intents|, g);
      if g in PaidByFirst(w, |w.intents|) {
        var i: Id :| PaidBy(w, i, g);
      }
    }
    assert CardPaid(w) == PaidByFirst(w, |w.intents|);
    forall i: Id | i < |w.intents| && w.intents[i].status == PiSucceeded
      ensures PaidByFirst(w, i) !! w.claims[w.intents[i].batch].members
    {
      PaidByFirstDisjoint(w, i);
    }
    PaidByFirstTotal(w, |w.intents|);
    assert w.intents[..|w.intents|] == w.intents;
  }

  lemma {:induction false} RemaindersBounds(w: World, n: nat)
    requires Inv(w) && n <= |w.intents|
    ensures 0 <= Remainders(w, n)
    ensures Remainders(w, n) == 0 <==>
            forall i: Id | i < n && w.intents[i].status == PiSucceeded :: Remainder(w, i) == 0
    ensures forall i: Id | i < n :: 0 <= Remainder(w, i) < MICROS_PER_CENT
  {
    if n > 0 {
      RemaindersBounds(w, n - 1);
      assert w.intents[n - 1].cents == BatchCents(w, w.intents[n - 1].batch);
    }
  }

  // ---------------------------------------------------------------- the meaning of the report

  /**
   Over the full period the reported discrepancy is what no succeeded PaymentIntent covers, plus
   the sub-cent part of every collected batch, minus what was collected for groups clawed back since
   and from advertisers that went to prepay since.
   */
  lemma DiscrepancyMeaning(w: World, clawed: set<Id>)
    requires Inv(w)
    ensures Discrepancy(w, clawed)
            == Total(w.groups, Uncovered(w, clawed)) + Remainders(w, |w.intents|) - Total(w.groups, Hidden(w, clawed))
    ensures Uncovered(w, clawed)
            == set g: nat | g < |w.groups| && !IsCardPaid(w, g) && g !in clawed && w.groups[g].advertiser !in w.prepayNow
    ensures Hidden(w, clawed)
            == set g: nat | g < |w.groups| && IsCardPaid(w, g) && (g in clawed || w.groups[g].advertiser in w.prepayNow)
  {
    CardPaidTotal(w);
    TotalSplit(w.groups, Counted(w, clawed), CardPaid(w));
    TotalSplit(w.groups, CardPaid(w), Counted(w, clawed));
    assert Counted(w, clawed) * CardPaid(w) == CardPaid(w) * Counted(w, clawed);
  }

  /**
   The report never goes negative exactly when nothing collected is hidden, up to what is still
   uncovered; without hidden collections it is zero exactly when every counted group was collected
   in a batch of whole cents.
   */
  lemma ReportSound(w0: World, es: seq<Event>, w: World, clawed: set<Id>)
    requires Initial(w0) && Reaches(w0, es, w)
    requires forall g <- CardPaid(w) :: g !in clawed && w.groups[g].advertiser !in w.prepayNow
    ensures Discrepancy(w, clawed) >= 0
    ensures Discrepancy(w, clawed) == 0 <==>
            && (forall g <- Counted(w, clawed) :: g in CardPaid(w))
            && (forall i: Id | i < |w.intents| && w.intents[i].status == PiSucceeded ::
                  w.intents[i].batch < |w.claims| && Remainder(w, i) == 0)
  {
    ReachableMeaning(w0, es, w, clawed);
    NothingHidden(w, clawed);
    var rest := Remainders(w, |w.intents|);
    assert Discrepancy(w, clawed) == 0 <==> Total(w.groups, Uncovered(w, clawed)) == 0 && rest == 0;
  }

  lemma NothingHidden(w: World, clawed: set<Id>)
    requires GroupsOk(w) && forall g <- CardPaid(w) :: g !in clawed && w.groups[g].advertiser !in w.prepayNow
    ensures Total(w.groups, Hidden(w, clawed)) == 0
    ensures Total(w.groups, Uncovered(w, clawed)) == 0 <==> forall g <- Counted(w, clawed) :: g in CardPaid(w)
  {
    assert Hidden(w, clawed) == {};
    NothingTotal(w.groups);
    TotalZero(w.groups, Uncovered(w, clawed));
    if Total(w.groups, Uncovered(w, clawed)) == 0 {
      forall g <- Counted(w, clawed) ensures g in CardPaid(w) {
        assert g in Uncovered(w, clawed) || g in CardPaid(w);
      }
    }
  }

  lemma ReachableMeaning(w0: World, es: seq<Event>, w: World, clawed: set<Id>)
    requires Initial(w0) && Reaches(w0, es, w)
    ensures GroupsOk(w) && forall i: Id | i < |w.intents| :: w.intents[i].batch < |w.claims|
    ensures Discrepancy(w, clawed)
            == Total(w.groups, Uncovered(w, clawed)) + Remainders(w, |w.intents|) - Total(w.groups, Hidden(w, clawed))
    ensures 0 <= Remainders(w, |w.intents|)
    ensures Remainders(w, |w.intents|) == 0 <==>
            forall i: Id | i < |w.intents| && w.intents[i].status == PiSucceeded :: Remainder(w, i) == 0
  {
    InitialInv(w0);
    ReachesInv(w0, es, w);
    DiscrepancyMeaning(w, clawed);
    RemaindersBounds(w, |w.intents|);
  }

  /**
   With everything counted covered in whole cents, the report is negative exactly when something
   collected was clawed back or its advertiser went to prepay.
   */
  lemma HiddenTurnsReportNegative(w0: World, es: seq<Event>, w: World, clawed: set<Id>)
    requires Initial(w0) && Reaches(w0, es, w)
    requires Uncovered(w, clawed) == {}
    requires forall i: Id | i < |w.intents| && w.intents[i].status == PiSucceeded ::
               w.intents[i].batch < |w.claims| && Remainder(w, i) == 0
    ensures Discrepancy(w, clawed) < 0 <==>
            exists g: Id :: g in CardPaid(w) && (g in clawed || w.groups[g].advertiser in w.prepayNow)
  {
    ReachableMeaning(w0, es, w, clawed);
    NothingTotal(w.groups);
    TotalZero(w.groups, Hidden(w, clawed));
    HiddenCauses(w, clawed);
    if Hidden(w, clawed) != {} {
      var g :| g in Hidden(w, clawed);
      assert g < |w.groups|;
    }
  }

  lemma HiddenCauses(w: World, clawed: set<Id>)
    ensures Hidden(w, clawed) != {} <==>
            exists g: Id :: g in CardPaid(w) && (g in clawed || w.groups[g].advertiser in w.prepayNow)
  {
    if g: Id :| g in CardPaid(w) && (g in clawed || w.groups[g].advertiser in w.prepayNow) {
      assert g in Hidden(w, clawed);
    }
    if Hidden(w, clawed) != {} {
      var g :| g in Hidden(w, clawed);
      assert g in CardPaid(w) && (g in clawed || w.groups[g].advertiser in w.prepayNow);
    }
  }

  lemma NothingCounted(w: World, clawed: set<Id>)
    requires w.intents == [Intent(0, 50, PiSucceeded)] && Counted(w, clawed) == {}
    ensures Discrepancy(w, clawed) == -500000
  {
    NothingTotal(w.groups);
    assert w.intents[..0] == [];
    assert SucceededMicros(w.intents) == 500000;
  }

  /** Both do occur. One group, charged in full, and its advertiser switched to prepay afterwards. */
  lemma SwitchTurnsReportNegative()
    ensures var es := CRASH + [SetMode(7, Prepay)];
            var w := A_DAY_LATER.(prepayNow := {7});
            Initial(FRESH) && Reaches(FRESH, es, w) && Discrepancy(w, {}) == -500000
  {
    var e := SetMode(7, Prepay);
    var w := A_DAY_LATER.(prepayNow := {7});
    CrashReached();
    assert Next(A_DAY_LATER, e) == w;
    ReachesStep(FRESH, CRASH, A_DAY_LATER, e);
    NothingCounted(w, {});
  }

  /** One group, charged in full and clawed back afterwards, with no change of mode. */
  lemma ClawbackTurnsReportNegative()
    ensures Initial(FRESH) && Reaches(FRESH, CRASH, A_DAY_LATER) && Discrepancy(A_DAY_LATER, {0}) == -500000
  {
    CrashReached();
    NothingCounted(A_DAY_LATER, {0});
  }

  // ---------------------------------------------------------------- where every cleared micro is

  ghost function Unclaimed(w: World): set<Id> {
    set g: nat | g < |w.groups| && g !in w.charges
  }

  /** Rows that belong to no batch: skipped house groups, and rows older than batches. */
  ghost function Unbatched(w: World): set<Id> {
    set g: nat | g < |w.groups| && g in w.charges && w.charges[g].batch.None?
  }

  ghost function WithStatus(w: World, s: Status): set<Id> {
    set g: nat | g < |w.groups| && g in w.charges && w.charges[g].batch.Some? && w.charges[g].status == s
  }

  /** The micros of the first n batches that are in a given status, as reserved. */
  ghost function BatchesTotal(w: World, s: Status, n: nat): nat
    requires n <= |w.claims|
  {
    if n == 0 then 0
    else
      var c := w.claims[n - 1];
      BatchesTotal(w, s, n - 1) + if StatusOf(c.phase) == Some(s) then BatchMicros(w, n - 1) else 0
  }

  function StatusOf(phase: Phase): Option<Status> {
    match phase
    case Reserved => Some(Pending)
    case Declined => Some(Failed)
    case Released => None
    case _ => Some(Succeeded)
  }

  ghost function MembersWithStatus(w: World, s: Status, n: nat): set<Id>
    requires n <= |w.claims|
  {
    if n == 0 then {}
    else
      var c := w.claims[n - 1];
      MembersWithStatus(w, s, n - 1) + if StatusOf(c.phase) == Some(s) then c.members else {}
  }

  lemma {:induction false} MembersWithStatusMeans(w: World, s: Status, n: nat, g: Id)
    requires n <= |w.claims|
    ensures g in MembersWithStatus(w, s, n) <==>
              exists b: Id :: b < n && StatusOf(w.claims[b].phase) == Some(s) && g in w.claims[b].members
  {
    if n > 0 {
      MembersWithStatusMeans(w, s, n - 1, g);
    }
  }

  lemma MembersWithStatusDisjoint(w: World, s: Status, b: Id)
    requires RowsOk(w) && ClaimsOk(w) && b < |w.claims| && StatusOf(w.claims[b].phase) == Some(s)
    ensures MembersWithStatus(w, s, b) !! w.claims[b].members
  {
    forall g | g in MembersWithStatus(w, s, b)
      ensures g !in w.claims[b].members
    {
      MembersWithStatusMeans(w, s, b, g);
      var c: Id :| c < b && StatusOf(w.claims[c].phase) == Some(s) && g in w.claims[c].members;
      MembersDisjoint(w, c, b, g);
    }
  }

  lemma {:induction false} MembersTotal(w: World, s: Status, n: nat)
    requires n <= |w.claims|
    requires forall b: Id | b < n && StatusOf(w.claims[b].phase) == Some(s) ::
               MembersWithStatus(w, s, b) !! w.claims[b].members
    ensures Total(w.groups, MembersWithStatus(w, s, n)) == BatchesTotal(w, s, n)
  {
    if n == 0 {
      NothingTotal(w.groups);
    } else {
      var b := n - 1;
      MembersTotal(w, s, b);
      if StatusOf(w.claims[b].phase) == Some(s) {
        TotalUnion(w.groups, MembersWithStatus(w, s, b), w.claims[b].members);
      } else {
        assert MembersWithStatus(w, s, n) == MembersWithStatus(w, s, b);
      }
    }
  }

  lemma RowIsMember(w: World, s: Status, g: Id)
    requires Inv(w)
    ensures g in WithStatus(w, s) <==>
              exists b: Id :: b < |w.claims| && StatusOf(w.claims[b].phase) == Some(s) && g in w.claims[b].members
  {
    if g in WithStatus(w, s) {
      var b := w.charges[g].batch.value;
      assert w.charges[g] == MemberRow(w.groups[g], b, w.claims[b]);
    }
    if b: Id :| b < |w.claims| && StatusOf(w.claims[b].phase) == Some(s) && g in w.claims[b].members {
      assert w.charges[g] == MemberRow(w.groups[g], b, w.claims[b]);
    }
  }

  lemma RowsAreMembers(w: World, s: Status)
    requires Inv(w)
    ensures WithStatus(w, s) == MembersWithStatus(w, s, |w.claims|)
  {
    forall g: Id
      ensures g in WithStatus(w, s) <==> g in MembersWithStatus(w, s, |w.claims|)
    {
      MembersWithStatusMeans(w, s, |w.claims|, g);
      RowIsMember(w, s, g);
    }
  }

  /**
   Conservation: in every reachable world each cleared group is in one place only, so all micros
   ever cleared are those no row claims, those of rows without a batch, and those of the batches
   that are pending, succeeded or failed, each at the sum it was reserved with.
   */
  lemma EveryMicroHasOnePlace(w0: World, es: seq<Event>, w: World)
    requires Initial(w0) && Reaches(w0, es, w)
    ensures ClearedMicros(w.groups)
            == Total(w.groups, Unclaimed(w)) + Total(w.groups, Unbatched(w))
               + BatchesTotal(w, Pending, |w.claims|)
               + BatchesTotal(w, Succeeded, |w.claims|)
               + BatchesTotal(w, Failed, |w.claims|)
    ensures forall s: Status :: Total(w.groups, WithStatus(w, s)) == BatchesTotal(w, s, |w.claims|)
  {
    InitialInv(w0);
    ReachesInv(w0, es, w);
    forall s: Status
      ensures Total(w.groups, WithStatus(w, s)) == BatchesTotal(w, s, |w.claims|)
    {
      StatusTotal(w, s);
    }
    NeverSkipped(w);
    PlacesPartition(w);
  }

  lemma StatusTotal(w: World, s: Status)
    requires Inv(w)
    ensures Total(w.groups, WithStatus(w, s)) == BatchesTotal(w, s, |w.claims|)
  {
    RowsAreMembers(w, s);
    forall b: Id | b < |w.claims| && StatusOf(w.claims[b].phase) == Some(s)
      ensures MembersWithStatus(w, s, b) !! w.claims[b].members
    {
      MembersWithStatusDisjoint(w, s, b);
    }
    MembersTotal(w, s, |w.claims|);
  }

  lemma PlacesPartition(w: World)
    requires forall g <- w.charges | w.charges[g].batch.Some? :: w.charges[g].status != Skipped
    ensures ClearedMicros(w.groups)
            == Total(w.groups, Unclaimed(w)) + Total(w.groups, Unbatched(w))
               + Total(w.groups, WithStatus(w, Pending))
               + Total(w.groups, WithStatus(w, Succeeded))
               + Total(w.groups, WithStatus(w, Failed))
  {
    var u, n := Unclaimed(w), Unbatched(w);
    var p, s, f := WithStatus(w, Pending), WithStatus(w, Succeeded), WithStatus(w, Failed);
    TotalUnion(w.groups, u, n);
    TotalUnion(w.groups, u + n, p);
    TotalUnion(w.groups, u + n + p, s);
    TotalUnion(w.groups, u + n + p + s, f);
    TotalOfAll(w.groups, u + n + p + s + f);
  }

  function ClearedMicros(groups: seq<Group>): nat {
    if groups == [] then 0 else ClearedMicros(groups[..|groups| - 1]) + groups[|groups| - 1].micros
  }

  lemma TotalOfAll(groups: seq<Group>, s: set<Id>)
    requires forall g: Id | g < |groups| :: g in s
    ensures Total(groups, s) == ClearedMicros(groups)
  {
  }

  /** A row with a batch id is never a skipped one. */
  lemma NeverSkipped(w: World)
    requires Inv(w)
    ensures forall g <- w.charges | w.charges[g].batch.Some? :: w.charges[g].status != Skipped
  {
    forall g <- w.charges | w.charges[g].batch.Some?
      ensures w.charges[g].status != Skipped
    {
      var b := w.charges[g].batch.value;
      assert w.charges[g] == MemberRow(w.groups[g], b, w.claims[b]);
    }
  }
}
