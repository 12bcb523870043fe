/** POST /charge: recovery of every pending batch, then the plans, under the single-flight lock. */
module ChargeRun {
  import opened Basics
  import opened ChargeProtocol
  import opened ChargeSafety
  import opened Planning
  import opened BillingStore
  import opened Partition
  import opened BatchLemmas
  import opened UnchargedView
  import opened BillingRun

  // ---------------------------------------------------------------- what recovery read stays true

  /** An entry of recovery's work list still describes its batch, or rows nobody batched. */
  ghost predicate Described(w: World, p: PendingBatch) {
    && p.rows != []
    && match p.batch
       case Some(b) =>
         b < |w.claims| && w.claims[b].advertiser == p.advertiser && p.rows[0].mode == Some(w.claims[b].mode)
       case None =>
         forall r <- p.rows ::
           r.group in w.charges && w.charges[r.group].batch.None? && w.charges[r.group].status == Pending
  }

  /** The batches recovery has still to settle. */
  ghost function Todo(batches: seq<PendingBatch>, k: nat): set<Id> {
    set i: nat | k <= i < |batches| && batches[i].batch.Some? :: batches[i].batch.value
  }

  /** Rows without a batch id wait only while their entry is still to come. */
  ghost predicate OrphansAhead(w: World, batches: seq<PendingBatch>, k: nat) {
    forall g <- w.charges | w.charges[g].batch.None? && Awaiting(w.charges[g]) ::
      exists i: nat :: k <= i < |batches| && batches[i].batch.None? && g in EntryGroups(batches[i])
  }

  ghost function EntryGroups(p: PendingBatch): set<Id> {
    set r <- p.rows :: r.group
  }

  lemma AllPendingMembers(charges: map<Id, Row>, n: nat)
    ensures forall r <- AllPending(charges, n) ::
              && r.group < n && r.group in charges && Awaiting(charges[r.group])
              && r == PendingRow(charges[r.group].batch, r.group, charges[r.group].advertiser, charges[r.group].mode)
    ensures forall g: Id | g < n && g in charges && Awaiting(charges[g]) ::
              PendingRow(charges[g].batch, g, charges[g].advertiser, charges[g].mode) in AllPending(charges, n)
  {
  }

  lemma EntriesDescribed(w: World, rows: seq<PendingRow>, batches: seq<PendingBatch>, i: nat)
    requires Inv(w) && IsPartition(batches, rows) && i < |batches|
    requires forall r <- rows :: r in AllPending(w.charges, |w.groups|)
    ensures Described(w, batches[i])
  {
    AllPendingMembers(w.charges, |w.groups|);
    OfBatchMembers(rows, batches[i].batch);
    assert forall r <- batches[i].rows :: r in OfBatch(rows, batches[i].batch);
    var r := batches[i].rows[0];
    assert r in batches[i].rows;
    if batches[i].batch.Some? {
      var b := batches[i].batch.value;
      assert w.charges[r.group] == MemberRow(w.groups[r.group], b, w.claims[b]);
    }
  }

  /** A complete read lists every open batch and every waiting row without a batch id. */
  lemma EverythingListed(w: World, batches: seq<PendingBatch>)
    requires Inv(w) && IsPartition(batches, AllPending(w.charges, |w.groups|))
    ensures RecoveredUpTo(w, batches, 0) && AllOpenAhead(w, Todo(batches, 0))
  {
    var rows := AllPending(w.charges, |w.groups|);
    AllPendingMembers(w.charges, |w.groups|);
    forall b: Id | Open(w, b)
      ensures b in Todo(batches, 0)
    {
      var g :| g in w.claims[b].members;
      assert w.charges[g] == MemberRow(w.groups[g], b, w.claims[b]);
      var r := PendingRow(w.charges[g].batch, g, w.charges[g].advertiser, w.charges[g].mode);
      assert r in rows;
    }
    forall g <- w.charges | w.charges[g].batch.None? && Awaiting(w.charges[g])
      ensures exists i: nat :: 0 <= i < |batches| && batches[i].batch.None? && g in EntryGroups(batches[i])
    {
      var r := PendingRow(w.charges[g].batch, g, w.charges[g].advertiser, w.charges[g].mode);
      assert r in rows;
      var i: nat :| i < |batches| && batches[i].batch == r.batch;
      OfBatchMembers(rows, batches[i].batch);
      assert r in batches[i].rows;
    }
  }

  lemma DescribedStays(w: World, w': World, b: Id, p: PendingBatch)
    requires OnlyBatch(w, w', b) && Described(w, p)
    ensures Described(w', p)
  {
  }

  lemma OrphansStayAhead(w: World, w': World, b: Id, batches: seq<PendingBatch>, k: nat)
    requires OnlyBatch(w, w', b) && OrphansAhead(w, batches, k)
    requires k < |batches| && batches[k].batch == Some(b)
    ensures OrphansAhead(w', batches, k + 1)
  {
    forall g <- w'.charges | w'.charges[g].batch.None? && Awaiting(w'.charges[g])
      ensures exists i: nat :: k + 1 <= i < |batches| && batches[i].batch.None? && g in EntryGroups(batches[i])
    {
      assert g in w.charges && w.charges[g] == w'.charges[g];
      var i: nat :| k <= i < |batches| && batches[i].batch.None? && g in EntryGroups(batches[i]);
      assert i != k;
    }
  }

  lemma TodoStep(w: World, batches: seq<PendingBatch>, k: nat)
    requires k < |batches|
    ensures batches[k].batch.Some? ==> Todo(batches, k) - {batches[k].batch.value} <= Todo(batches, k + 1)
    ensures batches[k].batch.None? ==> Todo(batches, k) <= Todo(batches, k + 1)
  {
  }

  lemma SettledButMore(w: World, todo: set<Id>, more: set<Id>)
    requires SettledBut(w, todo) && todo <= more
    ensures SettledBut(w, more)
  {
  }

  // ---------------------------------------------------------------- what the open batches will draw

  /** The micros the advertiser's open prepay batches among the first n will still draw. */
  ghost function Need(w: World, a: Id, n: nat): nat
    requires n <= |w.claims|
  {
    if n == 0 then 0
    else
      var b := n - 1;
      Need(w, a, b)
      + if Open(w, b) && w.claims[b].mode == Prepay && w.claims[b].advertiser == a && b !in w.drawn
        then BatchMicros(w, b) else 0
  }

  /** Every advertiser's balance covers all its open prepay batches together. */
  ghost predicate Covered(w: World) {
    forall a: Id :: Need(w, a, |w.claims|) <= Balance(w, a)
  }

  lemma {:induction false} NeedFollowsPayment(w: World, w': World, b: Id, a: Id, n: nat)
    requires OnlyBatch(w, w', b) && PaidExactly(w, w', b) && w'.groups == w.groups && n <= |w.claims|
    requires Open(w', b) ==> Open(w, b)
    ensures Need(w', a, n) <= Need(w, a, n)
    ensures Open(w, b) && !Open(w', b) && w.claims[b].mode == Prepay && b !in w.drawn
            && w.claims[b].advertiser == a && b < n
            ==> Need(w', a, n) + BatchMicros(w, b) <= Need(w, a, n)
  {
    if n > 0 {
      NeedFollowsPayment(w, w', b, a, n - 1);
      var c := n - 1;
      assert c != b ==> w'.claims[c] == w.claims[c];
    }
  }

  lemma CoveredStays(w: World, w': World, b: Id)
    requires OnlyBatch(w, w', b) && PaidExactly(w, w', b) && w'.groups == w.groups
    requires Open(w', b) ==> Open(w, b)
    requires Covered(w)
    ensures Covered(w')
  {
    forall a: Id
      ensures Need(w', a, |w'.claims|) <= Balance(w', a)
    {
      NeedFollowsPayment(w, w', b, a, |w.claims|);
    }
  }

  lemma {:induction false} NeedIncludes(w: World, b: Id, n: nat)
    requires b < n <= |w.claims| && Open(w, b) && w.claims[b].mode == Prepay && b !in w.drawn
    ensures BatchMicros(w, b) <= Need(w, w.claims[b].advertiser, n)
  {
    if b < n - 1 {
      NeedIncludes(w, b, n - 1);
    }
  }

  lemma CoveredIsNotShort(w: World, b: Id)
    requires Covered(w) && Open(w, b) && b !in w.drawn
    ensures !Short(w, b)
  {
    if w.claims[b].mode == Prepay {
      NeedIncludes(w, b, |w.claims|);
    }
  }

  // ---------------------------------------------------------------- recovery

  /**
   What became of an open batch over its frozen route: drawn or short on the balance; on the card released
   below the minimum, else charged or declined by what Stripe has of it or was asked to make for it.
   */
  ghost predicate EntryDone(w: World, w': World, b: Id)
    requires b < |w.claims|
  {
    && b < |w'.claims|
    && if w.claims[b].mode == Prepay then (w'.claims[b].phase == DrawnDown && b in w'.drawn) || Short(w', b)
       else if BatchMicros(w, b) < 500000 then w'.claims[b].phase == Released
       else
         match w'.claims[b].phase
         case Charged(i) => SettlesOnto(w, w', b, Some(i))
         case Declined => SettlesOnto(w, w', b, None)
         case _ => false
  }

  /** recoverBatch: a batch left reserved on the card route; without a payment method it stays pending. */
  method RecoverBatch(billing: Billing, b: Id, isHouse: bool, r: Resolution, calm: bool) returns (alive: bool, outcome: Outcome)
    requires billing.Valid() && (calm ==> r == Usable)
    requires b < |billing.claims| ==>
               billing.claims[b].mode == Postpay && (isHouse ==> billing.claims[b].advertiser in billing.db.house)
    modifies billing, billing.db, billing.stripe
    ensures billing.db.charges.Keys <= old(billing.db.charges.Keys)
    ensures billing.Valid() && old(billing.log) <= billing.log
    ensures OnlyBatch(old(billing.World()), billing.World(), b)
    ensures r == NoneSaved <==> outcome.NoPaymentMethod?
    ensures r == LookupError <==> outcome.CustomerError?
    ensures r != Usable ==> alive && billing.World() == old(billing.World())
    ensures outcome.CardCharged? ==>
              outcome.pi < |billing.stripe.intents| && billing.stripe.intents[outcome.pi].batch == b
    ensures calm ==> alive && !Open(billing.World(), b) && billing.db.groups == old(billing.db.groups)
    ensures calm ==> billing.db.balances == old(billing.db.balances) && billing.db.drawn == old(billing.db.drawn)
    ensures calm && old(Open(billing.World(), b)) ==> EntryDone(old(billing.World()), billing.World(), b)
    ensures calm ==> OnlyUnderKey(old(billing.World()), billing.World(), b)
  {
    if r == NoneSaved {
      return true, NoPaymentMethod;
    }
    if r == LookupError {
      return true, CustomerError;
    }
    alive, outcome := billing.SettleReservedBatch(b, isHouse, calm);
  }

  /** One work-list entry with a batch id: re-read the advertiser, then settle over the frozen route. */
  method RecoverEntry(billing: Billing, p: PendingBatch, b: Id, calm: bool) returns (alive: bool)
    requires billing.Valid() && Described(billing.World(), p) && p.batch == Some(b)
    modifies billing, billing.db, billing.stripe
    ensures billing.db.charges.Keys <= old(billing.db.charges.Keys)
    ensures billing.Valid() && old(billing.log) <= billing.log
    ensures OnlyBatch(old(billing.World()), billing.World(), b)
    ensures calm ==> alive && billing.db.groups == old(billing.db.groups)
    ensures calm ==> PaidExactly(old(billing.World()), billing.World(), b)
    ensures calm && Open(billing.World(), b) ==>
              old(Open(billing.World(), b)) && Short(billing.World(), b) && b !in billing.db.drawn
    ensures calm && old(Open(billing.World(), b)) ==> EntryDone(old(billing.World()), billing.World(), b)
    ensures calm ==> OnlyUnderKey(old(billing.World()), billing.World(), b)
  {
    var readFails: bool := *;
    var found := calm || !readFails;
    var isHouse := found && p.advertiser in billing.db.house;
    var current := if found && p.advertiser in billing.db.prepayNow then Prepay else Postpay;
    billing.Interleave(calm);
    var outcome;
    if ChooseSettleRoute(p.rows[0].mode, current) == Prepay {
      alive, outcome := billing.SettlePrepayBatch(b, p.advertiser, isHouse, calm);
    } else {
      var r := billing.ResolveCustomerAndPm(calm);
      alive, outcome := RecoverBatch(billing, b, isHouse, r, calm);
    }
  }

  /** Rows no run ever batched go back to the view; nothing is charged for them. */
  method ReleaseUnbatched(billing: Billing, p: PendingBatch, calm: bool) returns (alive: bool)
    requires billing.Valid() && Described(billing.World(), p) && p.batch.None?
    modifies billing, billing.db, billing.stripe
    ensures billing.db.charges.Keys <= old(billing.db.charges.Keys)
    ensures billing.Valid() && old(billing.log) <= billing.log
    ensures billing.claims == old(billing.claims) && SameIntents(old(billing.World()), billing.World())
    ensures billing.db.drawn == old(billing.db.drawn)
    ensures calm ==> alive && billing.World() == old(billing.World()).(charges := old(billing.db.charges) - EntryGroups(p))
  {
    ghost var before := billing.World();
    var ids := seq(|p.rows|, i requires 0 <= i < |p.rows| => p.rows[i].group);
    var arrives: bool := *;
    if calm || arrives {
      billing.HasInv();
      UnbatchedDelete(before, p, ids);
      billing.db.DeletePending(ids);
      billing.Record(before, ReleaseOrphans(EntryGroups(p)));
    }
    alive := billing.Afterwards(calm);
  }

  lemma UnbatchedDelete(w: World, p: PendingBatch, ids: seq<Id>)
    requires Inv(w) && Described(w, p) && p.batch.None?
    requires |ids| == |p.rows| && forall i | 0 <= i < |ids| :: ids[i] == p.rows[i].group
    ensures Legal(w, ReleaseOrphans(EntryGroups(p)))
    ensures (map g <- w.charges | !(g in ids && Awaiting(w.charges[g])) :: w.charges[g]) == w.charges - EntryGroups(p)
  {
    forall g: Id
      ensures g in ids <==> g in EntryGroups(p)
    {
      if g in ids {
        var i :| 0 <= i < |ids| && ids[i] == g;
        assert p.rows[i] in p.rows;
      }
      if g in EntryGroups(p) {
        var r :| r in p.rows && r.group == g;
        var i :| 0 <= i < |p.rows| && p.rows[i] == r;
        assert ids[i] == g;
      }
    }
  }

  /** What recovery has achieved before entry k, in an undisturbed run whose read was complete. */
  ghost predicate RecoveredUpTo(w: World, batches: seq<PendingBatch>, k: nat) {
    SettledBut(w, Todo(batches, k)) && OrphansAhead(w, batches, k)
  }

  ghost predicate AllOpenAhead(w: World, todo: set<Id>) {
    forall b: Id | Open(w, b) :: b in todo
  }

  lemma EntryCovered(w: World, w': World, batches: seq<PendingBatch>, k: nat, b: Id)
    requires k < |batches| && batches[k].batch == Some(b)
    requires Covered(w) && AllOpenAhead(w, Todo(batches, k))
    requires OnlyBatch(w, w', b) && PaidExactly(w, w', b) && w'.groups == w.groups
    requires Open(w', b) ==> Open(w, b) && Short(w', b) && b !in w'.drawn
    ensures Covered(w') && AllOpenAhead(w', Todo(batches, k + 1))
  {
    CoveredStays(w, w', b);
    TodoStep(w, batches, k);
    if Open(w', b) {
      CoveredIsNotShort(w', b);
    }
    forall c: Id | Open(w', c) ensures c in Todo(batches, k + 1) {
      assert c != b ==> Open(w, c);
    }
  }

  lemma EntrySettled(w: World, w': World, batches: seq<PendingBatch>, k: nat, b: Id)
    requires k < |batches| && batches[k].batch == Some(b)
    requires RecoveredUpTo(w, batches, k)
    requires OnlyBatch(w, w', b) && PaidExactly(w, w', b) && w'.groups == w.groups
    requires Open(w', b) ==> Short(w', b)
    ensures RecoveredUpTo(w', batches, k + 1)
  {
    StepSettled(w, w', Todo(batches, k), b);
    TodoStep(w, batches, k);
    SettledButMore(w', Todo(batches, k) - {b}, Todo(batches, k + 1));
    OrphansStayAhead(w, w', b, batches, k);
  }

  lemma UnbatchedReleased(w: World, w': World, batches: seq<PendingBatch>, k: nat)
    requires k < |batches| && batches[k].batch.None?
    requires forall i: nat, j: nat | i < j < |batches| :: batches[i].batch != batches[j].batch
    requires RecoveredUpTo(w, batches, k)
    requires w' == w.(charges := w.charges - EntryGroups(batches[k]))
    ensures RecoveredUpTo(w', batches, k + 1)
    ensures Covered(w) && AllOpenAhead(w, Todo(batches, k)) ==> Covered(w') && AllOpenAhead(w', Todo(batches, k + 1))
  {
    TodoStep(w, batches, k);
    forall b: Id | Open(w', b) && b !in Todo(batches, k + 1)
      ensures Short(w', b)
    {
      assert Open(w, b);
      assert Short(w, b);
    }
    if Covered(w) && AllOpenAhead(w, Todo(batches, k)) {
      forall b: Id | Open(w', b) ensures b in Todo(batches, k + 1) {
        assert Open(w, b);
      }
      forall a: Id ensures Need(w', a, |w'.claims|) <= Balance(w', a) {
        NeedIgnoresCharges(w, w', a, |w.claims|);
      }
    }
  }

  lemma {:induction false} NeedIgnoresCharges(w: World, w': World, a: Id, n: nat)
    requires w' == w.(charges := w'.charges) && n <= |w.claims|
    ensures Need(w', a, n) == Need(w, a, n)
  {
    if n > 0 {
      NeedIgnoresCharges(w, w', a, n - 1);
    }
  }

  /** Every entry from k on still describes its batch, and after the only unbatched one all carry a batch id. */
  ghost predicate AllDescribed(w: World, batches: seq<PendingBatch>, k: nat) {
    forall i: nat | k <= i < |batches| :: Described(w, batches[i])
  }

  lemma DescribedOnward(w: World, w': World, batches: seq<PendingBatch>, k: nat, b: Id)
    requires AllDescribed(w, batches, k) && OnlyBatch(w, w', b)
    ensures AllDescribed(w', batches, k + 1)
  {
    forall i: nat | k + 1 <= i < |batches| ensures Described(w', batches[i]) {
      DescribedStays(w, w', b, batches[i]);
    }
  }

  lemma DescribedPastUnbatched(w: World, w': World, batches: seq<PendingBatch>, k: nat)
    requires AllDescribed(w, batches, k) && w'.claims == w.claims
    requires k < |batches| && batches[k].batch.None?
    requires forall i: nat, j: nat | i < j < |batches| :: batches[i].batch != batches[j].batch
    ensures AllDescribed(w', batches, k + 1)
  {
    forall i: nat | k + 1 <= i < |batches| ensures Described(w', batches[i]) {
      assert batches[i].batch.Some?;
      assert Described(w, batches[i]);
    }
  }

  /** The read that recovery starts from, at most 1000 rows; a failed read looks like an empty one. */
  method ReadWorkList(billing: Billing, calm: bool) returns (batches: seq<PendingBatch>)
    requires billing.Valid()
    ensures AllDescribed(billing.World(), batches, 0)
    ensures forall i: nat, j: nat | i < j < |batches| :: batches[i].batch != batches[j].batch
    ensures calm && |AllPending(billing.db.charges, |billing.db.groups|)| <= 1000 ==>
              RecoveredUpTo(billing.World(), batches, 0) && AllOpenAhead(billing.World(), Todo(batches, 0))
  {
    billing.HasInv();
    var rows := billing.db.SelectPending();
    var fails: bool := *;
    if fails && !calm {
      rows := [];
    }
    batches := PartitionPendingByBatch(rows);
    forall i: nat | i < |batches| ensures Described(billing.World(), batches[i]) {
      EntriesDescribed(billing.World(), rows, batches, i);
    }
    if calm && |AllPending(billing.db.charges, |billing.db.groups|)| <= 1000 {
      EverythingListed(billing.World(), batches);
    }
  }

  /** A card batch left open whose charge is under way at Stripe, while its key no longer answers. */
  ghost predicate LeftUnderway(w: World, b: Id, i: Id) {
    Open(w, b) && w.claims[b].mode == Postpay && !KeyLive(w, b) && ChargeUnderway(w, b, i)
  }

  /** Of the batches left with a charge under way, those before k are settled onto it and the others are as they were. */
  ghost predicate AdoptedUpTo(w0: World, w: World, todo: set<Id>) {
    forall b: Id, i: Id | LeftUnderway(w0, b, i) ::
      b < |w.claims| && if b in todo then LeftUnderway(w, b, i) else w.claims[b].phase == Charged(i)
  }

  lemma UnderwayStays(w: World, w': World, b: Id, c: Id, i: Id)
    requires OnlyBatch(w, w', b) && OnlyUnderKey(w, w', b) && c != b && LeftUnderway(w, c, i)
    ensures LeftUnderway(w', c, i)
  {
  }

  lemma EntryAdopts(w0: World, w: World, w': World, batches: seq<PendingBatch>, k: nat, b: Id)
    requires k < |batches| && batches[k].batch == Some(b) && AdoptedUpTo(w0, w, Todo(batches, k))
    requires forall i: nat, j: nat | i < j < |batches| :: batches[i].batch != batches[j].batch
    requires OnlyBatch(w, w', b) && OnlyUnderKey(w, w', b)
    requires Open(w, b) ==> EntryDone(w, w', b)
    requires forall i: Id, j: Id :: ChargeUnderway(w, b, i) && ChargeUnderway(w, b, j) ==> i == j
    requires forall i: Id :: ChargeUnderway(w, b, i) ==> b < |w.claims| && BatchCents(w, b) >= STRIPE_MINIMUM_CENTS
    ensures AdoptedUpTo(w0, w', Todo(batches, k + 1))
  {
    TodoStep(w, batches, k);
    assert b !in Todo(batches, k + 1);
    forall c: Id, i: Id | LeftUnderway(w0, c, i)
      ensures c < |w'.claims| && if c in Todo(batches, k + 1) then LeftUnderway(w', c, i) else w'.claims[c].phase == Charged(i)
    {
      if c in Todo(batches, k) && c != b {
        UnderwayStays(w, w', b, c, i);
      }
    }
  }

  lemma UnbatchedAdopts(w0: World, w: World, w': World, batches: seq<PendingBatch>, k: nat)
    requires k < |batches| && batches[k].batch.None? && AdoptedUpTo(w0, w, Todo(batches, k))
    requires w' == w.(charges := w'.charges)
    ensures AdoptedUpTo(w0, w', Todo(batches, k + 1))
  {
    assert Todo(batches, k + 1) == Todo(batches, k);
    forall c: Id, i: Id | LeftUnderway(w, c, i)
      ensures LeftUnderway(w', c, i)
    {
    }
  }

  /**
   The recovery loop. Undisturbed, and with the read complete, it leaves no batch open but those its
   advertiser cannot pay for, and no waiting row without a batch id; when the balances cover what
   is open, it leaves nothing open at all. A batch whose charge was under way is settled onto that charge.
   */
  method Recover(billing: Billing, calm: bool) returns (alive: bool)
    requires billing.Valid()
    modifies billing, billing.db, billing.stripe
    ensures billing.db.charges.Keys <= old(billing.db.charges.Keys)
    ensures billing.Valid() && old(billing.log) <= billing.log
    ensures calm ==> alive && billing.db.groups == old(billing.db.groups)
    ensures |billing.claims| == |old(billing.claims)|
    ensures calm && old(|AllPending(billing.db.charges, |billing.db.groups|)|) <= 1000 ==>
              && Settled(billing.World())
              && (old(Covered(billing.World())) ==> forall b: Id :: !Open(billing.World(), b))
              && AdoptedUpTo(old(billing.World()), billing.World(), {})
  {
    ghost var complete := calm && |AllPending(billing.db.charges, |billing.db.groups|)| <= 1000;
    ghost var covered := Covered(billing.World());
    var batches := ReadWorkList(billing, calm);
    ghost var w0, log0 := billing.World(), billing.log;
    ghost var n := |billing.claims|;
    alive := true;
    var k := 0;
    while k < |batches| && alive
      invariant 0 <= k <= |batches|
      invariant |billing.claims| == n && billing.db.charges.Keys <= old(billing.db.charges.Keys)
      invariant billing.Valid() && log0 <= billing.log
      invariant AllDescribed(billing.World(), batches, k)
      invariant calm ==> alive && billing.db.groups == old(billing.db.groups)
      invariant complete ==> RecoveredUpTo(billing.World(), batches, k)
      invariant complete ==> AdoptedUpTo(w0, billing.World(), Todo(batches, k))
      invariant complete && covered ==> Covered(billing.World()) && AllOpenAhead(billing.World(), Todo(batches, k))
    {
      ghost var w, es := billing.World(), billing.log;
      match batches[k].batch {
        case None =>
          alive := ReleaseUnbatched(billing, batches[k], calm);
          DescribedPastUnbatched(w, billing.World(), batches, k);
          if complete {
            UnbatchedReleased(w, billing.World(), batches, k);
            UnbatchedAdopts(w0, w, billing.World(), batches, k);
          }
        case Some(b) =>
          alive := RecoverEntry(billing, batches[k], b, calm);
          DescribedOnward(w, billing.World(), batches, k, b);
          if complete {
            EntrySettled(w, billing.World(), batches, k, b);
            UnderwayOnce(billing.start, es, w, b);
            EntryAdopts(w0, w, billing.World(), batches, k, b);
            if covered {
              EntryCovered(w, billing.World(), batches, k, b);
            }
          }
      }
      k := k + 1;
    }
  }

  // ---------------------------------------------------------------- fresh plans

  lemma UnchargedRows(groups: seq<Group>, charges: map<Id, Row>, house: set<Id>, prepay: set<Id>, n: nat)
    requires n <= |groups|
    ensures forall r <- Uncharged(groups, charges, house, prepay, n) ::
              && r.group < n && r.group !in charges
              && groups[r.group] == Group(r.advertiser, r.micros)
              && (r.house <==> r.advertiser in house)
              && (r.mode == Prepay <==> r.advertiser in prepay)
  {
  }

  ghost predicate AllFit(w: World, plans: seq<Plan>) {
    forall i: nat | i < |plans| :: PlanFits(w, plans[i])
  }

  lemma PlansFit(w: World, view: seq<ViewRow>, plans: seq<Plan>)
    requires forall r <- view :: r in Uncharged(w.groups, w.charges, w.house, w.prepayNow, |w.groups|)
    requires |view| <= 500 && PlansFor(plans, view)
    ensures AllFit(w, plans)
  {
    UnchargedRows(w.groups, w.charges, w.house, w.prepayNow, |w.groups|);
    forall i: nat | i < |plans|
      ensures PlanFits(w, plans[i])
    {
      var p := plans[i];
      assert PlanFor(p, view, Advertisers(view)[i]);
      PlannedRowsAreViewRows(view, p.advertiser);
      assert p.rows[0] in p.rows;
      forall r <- p.rows
        ensures r.group < |w.groups| && w.groups[r.group] == Group(p.advertiser, r.micros)
      {
        assert r in Select(view, p.advertiser);
      }
    }
  }

  /** A plan made earlier still fits, however much happened since: groups and houses never change. */
  lemma StalePlansFit(w0: World, es: seq<Event>, w: World, fs: seq<Event>, w': World, plans: seq<Plan>)
    requires Initial(w0) && Reaches(w0, es, w) && Reaches(w0, fs, w') && es <= fs
    requires AllFit(w, plans)
    ensures AllFit(w', plans)
  {
    InitialInv(w0);
    LaterKept(w0, es, w, fs, w');
    forall i: nat | i < |plans| ensures PlanFits(w', plans[i]) {
      assert PlanFits(w, plans[i]);
    }
  }

  predicate Charges(p: Plan) {
    ActionOf(p).ChargeCard? || ActionOf(p).DrawPrepay?
  }

  /** The plans that reserve a batch, in order. */
  function Charging(plans: seq<Plan>): seq<Plan> {
    if plans == [] then []
    else
      var last := |plans| - 1;
      Charging(plans[..last]) + if Charges(plans[last]) then [plans[last]] else []
  }

  /**
   What became of a plan's batch: its advertiser and route, and if it claimed anything, charged by an
   intent that took its money, declined by its key or released below the minimum on the card route,
   drawn once or short on the other.
   */
  ghost predicate BatchDone(w: World, b: Id, p: Plan) {
    && b < |w.claims|
    && w.claims[b].advertiser == p.advertiser
    && w.claims[b].mode == (if ActionOf(p).DrawPrepay? then Prepay else Postpay)
    && (w.claims[b].members != {} ==>
          if ActionOf(p).DrawPrepay? then (w.claims[b].phase.DrawnDown? && b in w.drawn) || Short(w, b)
          else
            match w.claims[b].phase
            case Charged(i) => TookMoney(w, b, i)
            case Declined => KeyDeclined(w, b)
            case Released => BatchCents(w, b) < STRIPE_MINIMUM_CENTS
            case _ => false)
  }

  function SkippedRow(a: Id, r: ViewRow): Row {
    Row(a, r.micros, None, None, Skipped, None, false)
  }

  /** Every group of a house plan has a terminal skipped row, or the row it had before. */
  ghost predicate HouseDone(w: World, w': World, p: Plan) {
    forall r <- p.rows ::
      && r.group in w'.charges
      && w'.charges[r.group] == (if r.group in w.charges then w.charges[r.group] else SkippedRow(p.advertiser, r))
  }

  /** Rows without a batch id stay, and new ones are the plan's. */
  ghost predicate OrphansWithin(w: World, w': World, p: Plan) {
    && OrphansKept(w, w')
    && forall g <- w'.charges | w'.charges[g].batch.None? :: g in w.charges || g in PlanGroups(p)
  }

  /** What running one plan undisturbed did. */
  ghost predicate PlanDone(w: World, w': World, p: Plan) {
    && w'.groups == w.groups && BalancesFall(w, w') && OrphansWithin(w, w', p)
    && w.claims <= w'.claims && OnlyUnderKey(w, w', |w.claims|) && w.drawn.Keys <= w'.drawn.Keys
    && (if Charges(p)
        then
          && |w'.claims| == |w.claims| + 1
          && w'.claims[|w.claims|].members == Unclaimed(w, PlanGroups(p))
          && BatchDone(w', |w.claims|, p)
        else w'.claims == w.claims)
    && (p.house ==> HouseDone(w, w', p))
  }

  /**
   What running plans undisturbed did: one batch per charging plan, claiming exactly those of its groups
   that were free to begin with, and a row for every house group.
   */
  ghost predicate PlansDone(w0: World, w: World, plans: seq<Plan>) {
    && w.groups == w0.groups && BalancesFall(w0, w) && OrphansKept(w0, w)
    && w0.claims <= w.claims
    && |w.claims| == |w0.claims| + |Charging(plans)|
    && (forall j: nat | j < |Charging(plans)| ::
          && w.claims[|w0.claims| + j].members == Unclaimed(w0, PlanGroups(Charging(plans)[j]))
          && BatchDone(w, |w0.claims| + j, Charging(plans)[j]))
    && forall i: nat | i < |plans| && plans[i].house :: HouseDone(w0, w, plans[i])
  }

  /** The groups of the plans still to come are as free as they were. */
  ghost predicate StillFree(w0: World, w: World, plans: seq<Plan>, k: nat) {
    forall i: nat, g: Id | k <= i < |plans| && g in PlanGroups(plans[i]) :: g in w.charges <==> g in w0.charges
  }

  predicate DistinctAdvertisers(plans: seq<Plan>) {
    forall i: nat, j: nat | i < j < |plans| :: plans[i].advertiser != plans[j].advertiser
  }

  lemma PlansAreDistinct(plans: seq<Plan>, view: seq<ViewRow>)
    requires PlansFor(plans, view)
    ensures DistinctAdvertisers(plans)
  {
    AdvertisersDistinct(view);
    forall i: nat, j: nat | i < j < |plans|
      ensures plans[i].advertiser != plans[j].advertiser
    {
      assert PlanFor(plans[i], view, Advertisers(view)[i]) && PlanFor(plans[j], view, Advertisers(view)[j]);
    }
  }

  /** A plan leaves groups outside it claimed or free, as they were. */
  lemma ClaimedOutside(w: World, w': World, p: Plan, g: Id)
    requires RowsOk(w) && ClaimsOk(w) && RowsOk(w') && ClaimsOk(w')
    requires PlanDone(w, w', p) && g !in PlanGroups(p)
    ensures g in w'.charges <==> g in w.charges
  {
    if g in w.charges && w.charges[g].batch.Some? {
      assert w'.claims[w.charges[g].batch.value] == w.claims[w.charges[g].batch.value];
    }
    if g in w'.charges && w'.charges[g].batch.Some? {
      var b := w'.charges[g].batch.value;
      assert b < |w.claims| ==> w'.claims[b] == w.claims[b];
    }
  }

  lemma PlansApart(w: World, plans: seq<Plan>, i: nat, j: nat, g: Id)
    requires AllFit(w, plans) && DistinctAdvertisers(plans) && i < j < |plans| && g in PlanGroups(plans[j])
    ensures g !in PlanGroups(plans[i])
  {
    assert PlanFits(w, plans[i]) && PlanFits(w, plans[j]);
    assert w.groups[g].advertiser == plans[j].advertiser;
  }

  lemma BatchesStayDone(w0: World, w: World, w': World, plans: seq<Plan>, p: Plan)
    requires PlansDone(w0, w, plans) && PlanDone(w, w', p)
    ensures forall j: nat | j < |Charging(plans)| ::
              && w'.claims[|w0.claims| + j].members == Unclaimed(w0, PlanGroups(Charging(plans)[j]))
              && BatchDone(w', |w0.claims| + j, Charging(plans)[j])
  {
    forall j: nat | j < |Charging(plans)|
      ensures w'.claims[|w0.claims| + j] == w.claims[|w0.claims| + j]
      ensures BatchDone(w', |w0.claims| + j, Charging(plans)[j])
    {
      assert BatchDone(w, |w0.claims| + j, Charging(plans)[j]);
    }
  }

  /** A house advertiser's group never has a row in a batch. */
  ghost predicate HouseUnbatched(w: World) {
    forall g <- w.charges | w.charges[g].batch.Some? :: g < |w.groups| && w.groups[g].advertiser !in w.house
  }

  lemma HouseStaysDone(w0: World, w: World, w': World, p: Plan)
    requires HouseDone(w0, w, p) && OrphansKept(w, w') && HouseUnbatched(w) && PlanFits(w, p) && p.house
    ensures HouseDone(w0, w', p)
  {
    forall r <- p.rows
      ensures r.group in w'.charges && w'.charges[r.group] == w.charges[r.group]
    {
    }
  }

  lemma HouseDoneSince(w0: World, w: World, w': World, p: Plan)
    requires OrphansKept(w0, w) && HouseUnbatched(w0) && PlanFits(w0, p) && p.house
    requires forall g <- PlanGroups(p) :: g in w.charges <==> g in w0.charges
    requires HouseDone(w, w', p)
    ensures HouseDone(w0, w', p)
  {
    forall r <- p.rows
      ensures r.group in w'.charges
      ensures w'.charges[r.group] == (if r.group in w0.charges then w0.charges[r.group] else SkippedRow(p.advertiser, r))
    {
      assert r.group in PlanGroups(p);
    }
  }

  lemma StillFreeNext(w0: World, w: World, w': World, plans: seq<Plan>, k: nat)
    requires RowsOk(w) && ClaimsOk(w) && RowsOk(w') && ClaimsOk(w')
    requires AllFit(w, plans) && DistinctAdvertisers(plans) && k < |plans|
    requires StillFree(w0, w, plans, k) && PlanDone(w, w', plans[k])
    ensures StillFree(w0, w', plans, k + 1)
  {
    forall i: nat, g: Id | k + 1 <= i < |plans| && g in PlanGroups(plans[i])
      ensures g in w'.charges <==> g in w0.charges
    {
      PlansApart(w, plans, k, i, g);
      ClaimedOutside(w, w', plans[k], g);
    }
  }

  lemma FreeMembers(w0: World, w: World, p: Plan)
    requires forall g <- PlanGroups(p) :: g in w.charges <==> g in w0.charges
    ensures Unclaimed(w, PlanGroups(p)) == Unclaimed(w0, PlanGroups(p))
  {
  }

  lemma PlansDoneNext(w0: World, w: World, w': World, plans: seq<Plan>, k: nat)
    requires k < |plans| && PlansDone(w0, w, plans[..k]) && PlanDone(w, w', plans[k]) && StillFree(w0, w, plans, k)
    requires AllFit(w0, plans) && AllFit(w, plans) && HouseUnbatched(w0) && HouseUnbatched(w)
    ensures PlansDone(w0, w', plans[..k + 1])
  {
    var n := |w0.claims|;
    assert plans[..k + 1][..k] == plans[..k];
    var before, after := Charging(plans[..k]), Charging(plans[..k + 1]);
    assert after == before + if Charges(plans[k]) then [plans[k]] else [];
    BatchesStayDone(w0, w, w', plans[..k], plans[k]);
    FreeMembers(w0, w, plans[k]);
    assert |before| < |after| ==> after[|before|] == plans[k];
    forall i: nat | i < k + 1 && plans[i].house
      ensures HouseDone(w0, w', plans[i])
    {
      assert PlanFits(w, plans[i]) && PlanFits(w0, plans[i]);
      if i < k {
        assert plans[..k][i] == plans[i];
        HouseStaysDone(w0, w, w', plans[i]);
      } else {
        HouseDoneSince(w0, w, w', plans[i]);
      }
    }
  }

  /** The same for reachable worlds. */
  lemma PlanStep(start: World, log0: seq<Event>, w0: World, es: seq<Event>, w: World, fs: seq<Event>, w': World, plans: seq<Plan>, k: nat)
    requires Initial(start) && Reaches(start, log0, w0) && Reaches(start, es, w) && Reaches(start, fs, w')
    requires k < |plans| && PlansDone(w0, w, plans[..k]) && PlanDone(w, w', plans[k]) && StillFree(w0, w, plans, k)
    requires AllFit(w0, plans) && AllFit(w, plans) && DistinctAdvertisers(plans)
    ensures PlansDone(w0, w', plans[..k + 1]) && StillFree(w0, w', plans, k + 1)
  {
    TablesInOrder(start, es, w);
    TablesInOrder(start, fs, w');
    BatchedNeverHouse(start, log0, w0);
    BatchedNeverHouse(start, es, w);
    StillFreeNext(w0, w, w', plans, k);
    PlansDoneNext(w0, w, w', plans, k);
  }

  lemma TablesInOrder(w0: World, es: seq<Event>, w: World)
    requires Initial(w0) && Reaches(w0, es, w)
    ensures RowsOk(w) && ClaimsOk(w)
  {
    InitialInv(w0);
    ReachesInv(w0, es, w);
  }

  /** insertCharge for a house group: a terminal skipped row, unless some row claims the group already. */
  method InsertSkipped(billing: Billing, r: ViewRow, a: Id, calm: bool) returns (alive: bool)
    requires billing.Valid() && r.group < |billing.db.groups|
    requires billing.db.groups[r.group] == Group(a, r.micros) && a in billing.db.house
    modifies billing, billing.db, billing.stripe
    ensures billing.Valid() && old(billing.log) <= billing.log
    ensures billing.claims == old(billing.claims) && OrphansKept(old(billing.World()), billing.World())
    ensures calm ==> alive && (old(Settled(billing.World())) ==> Settled(billing.World()))
    ensures calm ==> billing.World() == Next(old(billing.World()), SkipHouse(r.group))
  {
    ghost var before := billing.World();
    var arrives: bool := *;
    if calm || arrives {
      billing.db.InsertIgnoringDuplicates(map[r.group := SkippedRow(a, r)]);
      billing.Record(before, SkipHouse(r.group));
      SkipSettled(before, r.group);
    }
    alive := billing.Afterwards(calm);
  }

  lemma BatchedNeverHouse(w0: World, es: seq<Event>, w: World)
    requires Initial(w0) && Reaches(w0, es, w)
    ensures HouseUnbatched(w)
  {
    InitialInv(w0);
    ReachesInv(w0, es, w);
    forall g <- w.charges | w.charges[g].batch.Some?
      ensures g < |w.groups| && w.groups[g].advertiser !in w.house
    {
      assert w.groups[g].advertiser == w.claims[w.charges[g].batch.value].advertiser;
    }
  }

  lemma SkipSettled(w: World, g: Id)
    requires Legal(w, SkipHouse(g))
    ensures Settled(w) ==> Settled(Next(w, SkipHouse(g)))
  {
    var w' := Next(w, SkipHouse(g));
    if Settled(w) {
      forall b: Id | Open(w', b) ensures Short(w', b) {
        assert Open(w, b);
        assert Short(w, b);
      }
    }
  }

  method SkipHousePlan(billing: Billing, p: Plan, calm: bool) returns (alive: bool)
    requires billing.Valid() && PlanFits(billing.World(), p) && p.house
    modifies billing, billing.db, billing.stripe
    ensures billing.Valid() && old(billing.log) <= billing.log
    ensures billing.claims == old(billing.claims)
    ensures calm ==> alive && (old(Settled(billing.World())) ==> Settled(billing.World()))
    ensures calm ==> PlanDone(old(billing.World()), billing.World(), p)
  {
    ghost var w0, log0 := billing.World(), billing.log;
    assert AllFit(w0, [p]);
    alive := true;
    var k := 0;
    while k < |p.rows| && alive
      invariant 0 <= k <= |p.rows|
      invariant billing.Valid() && log0 <= billing.log && billing.claims == w0.claims
      invariant calm ==> SkippedUpTo(w0, billing.World(), p, k)
      invariant calm ==> alive && (Settled(w0) ==> Settled(billing.World()))
    {
      StalePlansFit(billing.start, log0, w0, billing.log, billing.World(), [p]);
      assert PlanFits(billing.World(), [p][0]);
      assert p.rows[k] in p.rows;
      ghost var w := billing.World();
      alive := InsertSkipped(billing, p.rows[k], p.advertiser, calm);
      if calm {
        SkippedOneMore(w0, w, billing.World(), p, k);
      }
      k := k + 1;
    }
    if calm {
      AllSkipped(w0, billing.World(), p);
    }
  }

  /** Only charge rows changed, by skipped rows for the plan's first k groups. */
  ghost predicate SkippedUpTo(w0: World, w: World, p: Plan, k: nat) {
    && w == w0.(charges := w.charges)
    && (forall g <- w0.charges :: g in w.charges && w.charges[g] == w0.charges[g])
    && (forall g <- w.charges :: g in w0.charges || SkippedFor(p, g, w.charges[g]))
    && forall i: nat | i < k && i < |p.rows| ::
         && p.rows[i].group in w.charges
         && (p.rows[i].group !in w0.charges ==> w.charges[p.rows[i].group] == SkippedRow(p.advertiser, p.rows[i]))
  }

  ghost predicate SkippedFor(p: Plan, g: Id, row: Row) {
    exists r :: r in p.rows && r.group == g && row == SkippedRow(p.advertiser, r)
  }

  lemma SkippedOneMore(w0: World, w: World, w': World, p: Plan, k: nat)
    requires SkippedUpTo(w0, w, p, k) && PlanFits(w, p) && p.house && k < |p.rows|
    requires Legal(w, SkipHouse(p.rows[k].group)) && w' == Next(w, SkipHouse(p.rows[k].group))
    ensures SkippedUpTo(w0, w', p, k + 1)
  {
    var x := p.rows[k];
    assert x in p.rows;
    assert SkippedFor(p, x.group, SkippedRow(p.advertiser, x));
    forall i: nat | i < |p.rows| && p.rows[i].group == x.group
      ensures SkippedRow(p.advertiser, p.rows[i]) == SkippedRow(p.advertiser, x)
    {
      assert p.rows[i] in p.rows;
    }
    if x.group in w.charges && x.group !in w0.charges {
      var r :| r in p.rows && r.group == x.group && w.charges[x.group] == SkippedRow(p.advertiser, r);
    }
  }

  lemma AllSkipped(w0: World, w: World, p: Plan)
    requires SkippedUpTo(w0, w, p, |p.rows|) && p.house
    ensures PlanDone(w0, w, p)
  {
    forall r <- p.rows
      ensures r.group in w.charges
      ensures w.charges[r.group] == (if r.group in w0.charges then w0.charges[r.group] else SkippedRow(p.advertiser, r))
    {
      var i :| 0 <= i < |p.rows| && p.rows[i] == r;
    }
  }

  /** One plan, by its action. */
  method RunPlan(billing: Billing, p: Plan, calm: bool) returns (alive: bool, outcome: Outcome)
    requires billing.Valid() && PlanFits(billing.World(), p)
    modifies billing, billing.db, billing.stripe
    ensures billing.Valid() && old(billing.log) <= billing.log
    ensures old(billing.claims) <= billing.claims
    ensures calm ==> PlanDone(old(billing.World()), billing.World(), p)
    ensures ActionOf(p).SkipHouseGroups? || ActionOf(p).SkipBelowMinimum? ==> billing.claims == old(billing.claims)
    ensures ActionOf(p).SkipBelowMinimum? ==> billing.World() == old(billing.World())
    ensures calm ==> alive && (old(Settled(billing.World())) ==> Settled(billing.World()))
  {
    match ActionOf(p) {
      case SkipHouseGroups =>
        alive := SkipHousePlan(billing, p, calm);
        outcome := HouseSkipped;
      case SkipBelowMinimum =>
        alive, outcome := true, BelowMinimumKept;
      case DrawPrepay =>
        alive, outcome := billing.ChargePrepayBatch(p, calm);
      case ChargeCard =>
        var r := billing.ResolveCustomerAndPm(calm);
        alive, outcome := billing.ChargeFreshBatch(p, r, calm);
    }
  }

  method RunPlans(billing: Billing, plans: seq<Plan>, calm: bool) returns (alive: bool)
    requires billing.Valid() && AllFit(billing.World(), plans) && DistinctAdvertisers(plans)
    modifies billing, billing.db, billing.stripe
    ensures billing.Valid() && old(billing.log) <= billing.log
    ensures old(billing.claims) <= billing.claims
    ensures calm ==> alive && (old(Settled(billing.World())) ==> Settled(billing.World()))
    ensures calm ==> PlansDone(old(billing.World()), billing.World(), plans)
  {
    ghost var w0, log0 := billing.World(), billing.log;
    alive := true;
    var k := 0;
    while k < |plans| && alive
      invariant 0 <= k <= |plans|
      invariant billing.Valid() && log0 <= billing.log && w0.claims <= billing.claims
      invariant calm ==> alive && (Settled(w0) ==> Settled(billing.World()))
      invariant calm ==> PlansDone(w0, billing.World(), plans[..k]) && StillFree(w0, billing.World(), plans, k)
    {
      StalePlansFit(billing.start, log0, w0, billing.log, billing.World(), plans);
      ghost var w, es := billing.World(), billing.log;
      var outcome;
      alive, outcome := RunPlan(billing, plans[k], calm);
      if calm {
        PlanStep(billing.start, log0, w0, es, w, billing.log, billing.World(), plans, k);
      }
      k := k + 1;
    }
    assert k == |plans| ==> plans[..k] == plans;
  }

  // ---------------------------------------------------------------- the whole run

  /** No group of any plan has a row. */
  ghost predicate AllFree(w: World, plans: seq<Plan>) {
    forall i: nat, g: Id | i < |plans| && g in PlanGroups(plans[i]) :: g !in w.charges
  }

  /**
   Everything planned was charged: from claim number n on there is one batch per charging plan, of all its
   groups and no other, charged, declined, drawn, short or released below the minimum; and every group of
   a house plan has its terminal skipped row.
   */
  ghost predicate AllCharged(n: nat, w: World, plans: seq<Plan>) {
    && |w.claims| == n + |Charging(plans)|
    && (forall j: nat | j < |Charging(plans)| ::
          && w.claims[n + j].members == PlanGroups(Charging(plans)[j])
          && BatchDone(w, n + j, Charging(plans)[j]))
    && forall i: nat, r: ViewRow | i < |plans| && plans[i].house && r in plans[i].rows ::
         r.group in w.charges && w.charges[r.group] == SkippedRow(plans[i].advertiser, r)
  }

  lemma {:induction false} ChargingAreFree(w: World, plans: seq<Plan>)
    requires AllFree(w, plans)
    ensures forall j: nat | j < |Charging(plans)| :: Unclaimed(w, PlanGroups(Charging(plans)[j])) == PlanGroups(Charging(plans)[j])
  {
    if plans != [] {
      var last := |plans| - 1;
      assert forall i: nat | i < last :: plans[..last][i] == plans[i];
      ChargingAreFree(w, plans[..last]);
      assert forall g <- PlanGroups(plans[last]) :: g !in w.charges;
    }
  }

  lemma FreeAreCharged(w: World, w': World, plans: seq<Plan>)
    requires AllFree(w, plans) && PlansDone(w, w', plans)
    ensures AllCharged(|w.claims|, w', plans)
  {
    ChargingAreFree(w, plans);
    forall i: nat, r: ViewRow | i < |plans| && plans[i].house && r in plans[i].rows
      ensures r.group in w'.charges && w'.charges[r.group] == SkippedRow(plans[i].advertiser, r)
    {
      assert HouseDone(w, w', plans[i]);
      assert r.group in PlanGroups(plans[i]);
    }
  }

  /** The part of /charge that holds the lock: recovery, then the plans, which may be stale by now. */
  method LiveRun(billing: Billing, plans: seq<Plan>, calm: bool) returns (alive: bool)
    requires billing.Valid() && AllFit(billing.World(), plans) && DistinctAdvertisers(plans)
    modifies billing, billing.db, billing.stripe
    ensures billing.Valid() && old(billing.log) <= billing.log
    ensures calm ==> alive && billing.db.groups == old(billing.db.groups)
    ensures calm && old(AllFree(billing.World(), plans)) ==> AllCharged(|old(billing.claims)|, billing.World(), plans)
    ensures calm && old(|AllPending(billing.db.charges, |billing.db.groups|)|) <= 1000 ==>
              && Settled(billing.World())
              && (old(Covered(billing.World())) ==>
                    forall b: Id | b < |old(billing.claims)| :: !Open(billing.World(), b))
  {
    ghost var w0, log0 := billing.World(), billing.log;
    alive := Recover(billing, calm);
    StalePlansFit(billing.start, log0, w0, billing.log, billing.World(), plans);
    if alive {
      ghost var w1, log1 := billing.World(), billing.log;
      ClaimsGrow(billing.start, log0, w0, log1, w1);
      alive := RunPlans(billing, plans, calm);
      if calm && AllFree(w0, plans) {
        FreeAreCharged(w1, billing.World(), plans);
      }
      assert forall b: Id | b < |w1.claims| :: Open(billing.World(), b) ==> Open(w1, b);
    }
  }

  lemma ClaimsGrow(w0: World, es: seq<Event>, w: World, fs: seq<Event>, w': World)
    requires Initial(w0) && Reaches(w0, es, w) && Reaches(w0, fs, w') && es <= fs
    ensures |w.claims| <= |w'.claims|
  {
    InitialInv(w0);
    LaterKept(w0, es, w, fs, w');
  }

  /** The view read and the planning, both before the lock is taken. */
  method ReadAndPlan(billing: Billing) returns (plans: seq<Plan>)
    requires billing.Valid()
    ensures AllFit(billing.World(), plans) && PlansFor(plans, View(billing.World()))
    ensures AllFree(billing.World(), plans) && DistinctAdvertisers(plans)
  {
    var view := billing.db.SelectUncharged();
    plans := PlanAdvertiserCharges(view);
    ghost var all := Uncharged(billing.db.groups, billing.db.charges, billing.db.house, billing.db.prepayNow, |billing.db.groups|);
    assert forall r <- view :: r in all;
    PlansFit(billing.World(), view, plans);
    PlansAreDistinct(plans, view);
    PlansFree(billing.World(), view, plans);
  }

  lemma PlansFree(w: World, view: seq<ViewRow>, plans: seq<Plan>)
    requires forall r <- view :: r in Uncharged(w.groups, w.charges, w.house, w.prepayNow, |w.groups|)
    requires PlansFor(plans, view)
    ensures AllFree(w, plans)
  {
    UnchargedRows(w.groups, w.charges, w.house, w.prepayNow, |w.groups|);
    forall i: nat, g: Id | i < |plans| && g in PlanGroups(plans[i])
      ensures g !in w.charges
    {
      assert PlanFor(plans[i], view, Advertisers(view)[i]);
      PlannedRowsAreViewRows(view, plans[i].advertiser);
      var r :| r in plans[i].rows && r.group == g;
      assert r in Select(view, plans[i].advertiser);
    }
  }

  /** No batch from number n on is the advertiser's. */
  ghost predicate NoNewBatch(w: World, n: nat, a: Id) {
    forall b: Id | n <= b < |w.claims| :: w.claims[b].advertiser != a
  }

  /** Exactly one batch from number n on is the advertiser's: over that route, of those groups, and settled. */
  ghost predicate OneNewBatch(w: World, n: nat, a: Id, mode: Mode, members: set<Id>) {
    exists b: Id ::
      && n <= b < |w.claims| && IsNewBatch(w, b, a, mode, members)
      && forall c: Id | n <= c < |w.claims| && w.claims[c].advertiser == a :: c == b
  }

  ghost predicate IsNewBatch(w: World, b: Id, a: Id, mode: Mode, members: set<Id>) {
    && b < |w.claims|
    && w.claims[b].advertiser == a && w.claims[b].mode == mode && w.claims[b].members == members
    && if mode == Prepay
       then
         || (w.claims[b].phase == DrawnDown && b in w.drawn)
         || Balance(w, a) < Total(w.groups, members)
       else
         match w.claims[b].phase
         case Charged(i) => TookMoney(w, b, i)
         case Declined => KeyDeclined(w, b)
         case _ => false
  }

  /**
   What an undisturbed run does for an advertiser it was shown groups of. House: no batch, and a terminal
   skipped row for each group. Prepay at that moment: one batch of all of it, drawn or short of balance,
   however little it is. Postpay: one batch of all of it, charged or declined, if it comes to fifty
   cents; otherwise none.
   */
  ghost predicate EndsAsSeen(w: World, w': World, a: Id) {
    var n := |w.claims|;
    if a in w.house then
      && NoNewBatch(w', n, a)
      && forall g <- SeenOf(w, a) ::
           g in w'.charges && w'.charges[g] == Row(a, w.groups[g].micros, None, None, Skipped, None, false)
    else if a in w.prepayNow then OneNewBatch(w', n, a, Prepay, SeenOf(w, a))
    else if Total(w.groups, SeenOf(w, a)) >= 500000 then OneNewBatch(w', n, a, Postpay, SeenOf(w, a))
    else NoNewBatch(w', n, a)
  }

  /** The same for every advertiser; of one it was shown nothing of, there is no new batch. */
  ghost predicate ChargedAsSeen(w: World, w': World) {
    && |w.claims| <= |w'.claims|
    && forall a: Id :: if SeenOf(w, a) == {} then NoNewBatch(w', |w.claims|, a) else EndsAsSeen(w, w', a)
  }

  lemma {:induction false} ChargingHas(plans: seq<Plan>, i: nat)
    requires i < |plans| && Charges(plans[i])
    ensures exists j: nat :: j < |Charging(plans)| && Charging(plans)[j] == plans[i]
  {
    var last := |plans| - 1;
    if i < last {
      ChargingHas(plans[..last], i);
      var j: nat :| j < |Charging(plans[..last])| && Charging(plans[..last])[j] == plans[i];
      assert Charging(plans)[j] == plans[i];
    } else {
      assert Charging(plans)[|Charging(plans[..last])|] == plans[i];
    }
  }

  /** The charging plans are plans, each of another advertiser. */
  lemma {:induction false} ChargingArePlans(plans: seq<Plan>)
    requires DistinctAdvertisers(plans)
    ensures forall p <- Charging(plans) :: Charges(p) && p in plans
    ensures DistinctAdvertisers(Charging(plans))
  {
    if plans != [] {
      var last := |plans| - 1;
      assert forall i: nat | i < last :: plans[..last][i] == plans[i];
      ChargingArePlans(plans[..last]);
      forall p <- Charging(plans[..last])
        ensures p.advertiser != plans[last].advertiser
      {
        var i: nat :| i < last && plans[..last][i] == p;
        assert plans[i].advertiser != plans[last].advertiser;
      }
    }
  }

  /** The batch of an advertiser's plan is its only new one. */
  lemma OnlyItsPlan(n: nat, w': World, plans: seq<Plan>, a: Id, b: Id)
    requires DistinctAdvertisers(plans) && AllCharged(n, w', plans) && n <= b < |w'.claims| && w'.claims[b].advertiser == a
    ensures b - n < |Charging(plans)| && Charging(plans)[b - n].advertiser == a
    ensures Charging(plans)[b - n] in plans && Charges(Charging(plans)[b - n])
    ensures forall c: Id | n <= c < |w'.claims| && w'.claims[c].advertiser == a :: c == b
  {
    ChargingArePlans(plans);
    assert BatchDone(w', n + (b - n), Charging(plans)[b - n]);
    forall c: Id | n <= c < |w'.claims| && w'.claims[c].advertiser == a
      ensures c == b
    {
      assert BatchDone(w', n + (c - n), Charging(plans)[c - n]);
    }
  }

  /** An advertiser with a new batch has a plan that charges. */
  lemma NewBatchHasPlan(w: World, w': World, plans: seq<Plan>, a: Id)
    requires PlansFor(plans, View(w)) && DistinctAdvertisers(plans) && AllCharged(|w.claims|, w', plans)
    requires !NoNewBatch(w', |w.claims|, a)
    ensures exists i: nat :: i < |plans| && plans[i].advertiser == a && Charges(plans[i])
  {
    var b: Id :| |w.claims| <= b < |w'.claims| && w'.claims[b].advertiser == a;
    OnlyItsPlan(|w.claims|, w', plans, a, b);
  }

  lemma PlanOfAdvertiser(w: World, plans: seq<Plan>, i: nat)
    requires PlansFor(plans, View(w)) && i < |plans|
    ensures PlanFor(plans[i], View(w), plans[i].advertiser)
  {
    assert PlanFor(plans[i], View(w), Advertisers(View(w))[i]);
  }

  lemma PlansBatchIsNew(w: World, w': World, p: Plan, b: Id)
    requires BatchDone(w', b, p) && PlanFor(p, View(w), p.advertiser) && Charges(p)
    requires w'.groups == w.groups && w'.claims[b].members == PlanGroups(p)
    ensures IsNewBatch(w', b, p.advertiser, if p.advertiser in w.prepayNow then Prepay else Postpay, SeenOf(w, p.advertiser))
  {
    PlanIsSeen(w, p);
  }

  /** One plan's advertiser ends as it should. */
  lemma PlanEndsAsSeen(w: World, w': World, plans: seq<Plan>, i: nat)
    requires PlansFor(plans, View(w)) && DistinctAdvertisers(plans) && AllCharged(|w.claims|, w', plans)
    requires w'.groups == w.groups && i < |plans| && Charges(plans[i])
    ensures var a := plans[i].advertiser;
            OneNewBatch(w', |w.claims|, a, if a in w.prepayNow then Prepay else Postpay, SeenOf(w, a))
  {
    var p, n := plans[i], |w.claims|;
    PlanOfAdvertiser(w, plans, i);
    ChargingHas(plans, i);
    var j: nat :| j < |Charging(plans)| && Charging(plans)[j] == p;
    assert BatchDone(w', n + j, p);
    OnlyItsPlan(n, w', plans, p.advertiser, n + j);
    PlansBatchIsNew(w, w', p, n + j);
  }

  lemma SkippedAsSeen(w: World, w': World, plans: seq<Plan>, i: nat, g: Id)
    requires PlansFor(plans, View(w)) && AllCharged(|w.claims|, w', plans)
    requires i < |plans| && plans[i].house && g in SeenOf(w, plans[i].advertiser)
    ensures g in w'.charges && w'.charges[g] == Row(plans[i].advertiser, w.groups[g].micros, None, None, Skipped, None, false)
  {
    PlanOfAdvertiser(w, plans, i);
    PlanIsSeen(w, plans[i]);
    var r :| r in plans[i].rows && r.group == g;
  }

  lemma AdvertiserEndsAsSeen(w: World, w': World, plans: seq<Plan>, i: nat)
    requires PlansFor(plans, View(w)) && DistinctAdvertisers(plans) && AllCharged(|w.claims|, w', plans)
    requires w'.groups == w.groups && i < |plans|
    ensures EndsAsSeen(w, w', plans[i].advertiser)
  {
    var a := plans[i].advertiser;
    PlanOfAdvertiser(w, plans, i);
    PlanIsSeen(w, plans[i]);
    if Charges(plans[i]) {
      PlanEndsAsSeen(w, w', plans, i);
    } else if !NoNewBatch(w', |w.claims|, a) {
      NewBatchHasPlan(w, w', plans, a);
      assert false;
    }
    if plans[i].house {
      forall g <- SeenOf(w, a)
        ensures g in w'.charges && w'.charges[g] == Row(a, w.groups[g].micros, None, None, Skipped, None, false)
      {
        SkippedAsSeen(w, w', plans, i, g);
      }
    }
  }

  /** Charging every plan of the view is what a run does with what it was shown. */
  lemma PlansEndAsSeen(w: World, w': World, plans: seq<Plan>)
    requires PlansFor(plans, View(w)) && DistinctAdvertisers(plans) && AllCharged(|w.claims|, w', plans)
    requires w'.groups == w.groups
    ensures ChargedAsSeen(w, w')
  {
    forall a: Id
      ensures if SeenOf(w, a) == {} then NoNewBatch(w', |w.claims|, a) else EndsAsSeen(w, w', a)
    {
      if SeenOf(w, a) != {} {
        SeenHasPlan(w, plans, a);
        var i: nat :| i < |plans| && plans[i].advertiser == a;
        AdvertiserEndsAsSeen(w, w', plans, i);
      } else if !NoNewBatch(w', |w.claims|, a) {
        NewBatchHasPlan(w, w', plans, a);
        var i: nat :| i < |plans| && plans[i].advertiser == a;
        PlanOfAdvertiser(w, plans, i);
        PlanIsSeen(w, plans[i]);
        assert false;
      }
    }
  }

  /**
   POST /charge. Up to rivals other runs may plan before and run between this run's planning and
   its taking of the lock; they, and this run, may be cut short anywhere. A dry run changes nothing.
   */
  method Charge(billing: Billing, dryRun: bool, rivals: nat, calm: bool) returns (finished: bool)
    requires billing.Valid()
    modifies billing, billing.db, billing.stripe
    ensures billing.Valid() && old(billing.log) <= billing.log
    ensures dryRun && rivals == 0 ==> SameBilling(old(billing.World()), billing.World())
    ensures dryRun && rivals == 0 && calm ==> billing.World() == old(billing.World())
    ensures !dryRun && calm && rivals == 0 ==>
              exists plans: seq<Plan> ::
                && PlansFor(plans, old(View(billing.World())))
                && AllCharged(|old(billing.claims)|, billing.World(), plans)
    ensures !dryRun && calm && rivals == 0 ==> ChargedAsSeen(old(billing.World()), billing.World())
    ensures !dryRun && calm && rivals == 0 && old(|AllPending(billing.db.charges, |billing.db.groups|)|) <= 1000 ==>
              && finished
              && Settled(billing.World())
              && (old(Covered(billing.World())) ==>
                    forall b: Id | b < |old(billing.claims)| :: !Open(billing.World(), b))
    decreases rivals
  {
    var viewFails: bool := *;
    if viewFails && !calm {
      return false;
    }
    var plans := ReadAndPlan(billing);
    ghost var w0, log0 := billing.World(), billing.log;
    billing.Interleave(calm);
    if rivals > 0 {
      var rivalDry: bool := *;
      var rivalFinished := Charge(billing, rivalDry, rivals - 1, false);
    }
    if dryRun {
      return true;
    }
    var locked: bool := *;
    if !calm && !locked {
      return false;
    }
    StalePlansFit(billing.start, log0, w0, billing.log, billing.World(), plans);
    ghost var w1 := billing.World();
    finished := LiveRun(billing, plans, calm);
    if calm && rivals == 0 {
      PlansEndAsSeen(w1, billing.World(), plans);
    }
  }

  /** After a settled run, a row that still waits belongs to a prepay batch its advertiser cannot pay for. */
  lemma NothingStranded(w0: World, es: seq<Event>, w: World, g: Id)
    requires Initial(w0) && Reaches(w0, es, w) && Settled(w)
    requires g in w.charges && w.charges[g].status == Pending
    ensures w.charges[g].batch.Some? && Short(w, w.charges[g].batch.value)
  {
    InitialInv(w0);
    ReachesInv(w0, es, w);
    assert Awaiting(w.charges[g]) by {
      if w.charges[g].batch.Some? {
        var b := w.charges[g].batch.value;
        assert w.charges[g] == MemberRow(w.groups[g], b, w.claims[b]);
      }
    }
    PendingMeansOpen(w, w.charges[g].batch.value, g);
  }
}
