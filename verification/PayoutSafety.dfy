/** Every payout event keeps the invariant; what that means for transfers, accounts and earnings. */
module PayoutSafety {
  import opened Basics
  import opened PayoutProtocol

  // ---------------------------------------------------------------- sums

  lemma PaidOutAppend(ledger: seq<Legs>, l: Legs, p: Id)
    ensures PaidOut(ledger + [l], p) == PaidOut(ledger, p) + if l.publisher == p then l.earnings else 0
  {
    assert (ledger + [l])[..|ledger|] == ledger;
  }

  lemma PayoutsAppend(payouts: seq<Payout>, row: Payout, p: Id)
    ensures BookedTo(payouts + [row], p) == BookedTo(payouts, p) + if row.publisher == p then Booked(row) else 0
    ensures PendingMicros(payouts + [row], p)
            == PendingMicros(payouts, p) + if row.publisher == p && row.status == PayoutPending then row.micros else 0
  {
    assert (payouts + [row])[..|payouts|] == payouts;
  }

  lemma {:induction false} PayoutsUpdate(payouts: seq<Payout>, po: nat, row: Payout, p: Id)
    requires po < |payouts| && row.publisher == payouts[po].publisher
    ensures BookedTo(payouts[po := row], p)
            == BookedTo(payouts, p) + if row.publisher == p then Booked(row) - Booked(payouts[po]) else 0
    ensures PendingMicros(payouts[po := row], p)
            == PendingMicros(payouts, p)
               - (if row.publisher == p && payouts[po].status == PayoutPending then payouts[po].micros else 0)
               + (if row.publisher == p && row.status == PayoutPending then row.micros else 0)
  {
    var last := |payouts| - 1;
    var changed := payouts[po := row];
    if po < last {
      PayoutsUpdate(payouts[..last], po, row, p);
      assert changed[..last] == payouts[..last][po := row];
    } else {
      assert changed[..last] == payouts[..last];
    }
  }

  lemma {:induction false} NoPendingMeansZero(w: World, p: Id, n: nat)
    requires !HasPending(w, p) && n <= |w.payouts|
    ensures PendingMicros(w.payouts[..n], p) == 0
  {
    if n > 0 {
      NoPendingMeansZero(w, p, n - 1);
      assert w.payouts[..n][..n - 1] == w.payouts[..n - 1];
    }
  }

  lemma NothingPending(w: World, p: Id)
    requires !HasPending(w, p)
    ensures PendingMicros(w.payouts, p) == 0
  {
    NoPendingMeansZero(w, p, |w.payouts|);
    assert w.payouts[..|w.payouts|] == w.payouts;
  }

  // ---------------------------------------------------------------- accounts, eligibility, earnings

  /** Events that write no payout, ledger group, transfer or key. */
  predicate Quiet(e: Event) {
    || e.Tick? || e.Join? || e.Earn? || e.Approve? || e.Administer? || e.OpenAccount? || e.LinkAccount? || e.Submit? || e.Enable?
    || e.DeleteAccount? || e.UnlinkAccount? || e.StampIneligible? || e.AccountUpdated? || e.Erase?
  }

  /** While a publisher has a pending payout, a quiet event leaves its account alone and its earnings standing. */
  ghost predicate PendingUndisturbed(w: World, w': World) {
    forall po: Id | po < |w.payouts| && w.payouts[po].status == PayoutPending ::
      var p := w.payouts[po].publisher;
      p < |w.publishers| && p < |w'.publishers| && w'.publishers[p].account == w.publishers[p].account
      && Onboarded(w', p)
  }

  lemma QuietKeepsPublishers(w: World, e: Event)
    requires PublishersOk(w) && AccountsOk(w) && Legal(w, e) && Quiet(e)
    ensures PublishersOk(Next(w, e)) && AccountsOk(Next(w, e))
  {
    var w' := Next(w, e);
    forall p: Id | p < |w'.publishers| && w'.publishers[p].eligibility == Verified
      ensures Onboarded(w', p)
    {
      if e.AccountUpdated? && w.publishers[p].account == Some(e.account) {
        assert e.seen.submitted;
      } else {
        assert p < |w.publishers|;
        assert Onboarded(w, p);
      }
    }
  }

  lemma QuietLeavesPending(w: World, e: Event)
    requires PublishersOk(w) && AccountsOk(w) && PayoutsOk(w) && Legal(w, e) && Quiet(e)
    ensures PendingUndisturbed(w, Next(w, e))
  {
    var w' := Next(w, e);
    forall po: Id | po < |w.payouts| && w.payouts[po].status == PayoutPending
      ensures var p := w.payouts[po].publisher;
              p < |w.publishers| && p < |w'.publishers| && w'.publishers[p].account == w.publishers[p].account
              && Onboarded(w', p)
    {
      var p := w.payouts[po].publisher;
      assert Onboarded(w, p);
      assert HasPending(w, p);
    }
  }

  lemma QuietKeepsSolvent(w: World, e: Event)
    requires Solvent(w) && Legal(w, e) && Quiet(e)
    requires forall po: Id | po < |w.payouts| :: w.payouts[po].publisher < |w.publishers|
    requires forall p: Id :: PaidOut(w.ledger, p) == BookedTo(w.payouts, p)
    ensures Solvent(Next(w, e))
  {
    var w' := Next(w, e);
    forall p: Id | p < |w'.publishers| && p !in w'.overdrawn
      ensures PaidOut(w'.ledger, p) + PendingMicros(w'.payouts, p) <= w'.publishers[p].earned
    {
      if p < |w.publishers| {
        if e.Earn? && e.publisher == p && e.micros < w.publishers[p].earned {
          NothingPending(w, p);
        }
      } else {
        NothingForStrangers(w.payouts, p);
      }
    }
  }

  lemma NothingForStrangers(payouts: seq<Payout>, p: Id)
    requires forall po: Id | po < |payouts| :: payouts[po].publisher != p
    ensures BookedTo(payouts, p) == 0 && PendingMicros(payouts, p) == 0
  {
  }

  lemma QuietWritesNothing(w: World, e: Event)
    requires Legal(w, e) && Quiet(e)
    ensures var w' := Next(w, e);
            && w'.payouts == w.payouts && w'.transfers == w.transfers && w'.ledger == w.ledger && w'.keys == w.keys
            && w'.blind == w.blind && w'.now >= w.now && |w'.publishers| >= |w.publishers|
  {
  }

  lemma QuietKeepsInv(w: World, e: Event)
    requires Inv(w) && Legal(w, e) && Quiet(e)
    ensures Inv(Next(w, e))
  {
    QuietKeepsPublishers(w, e);
    QuietLeavesPending(w, e);
    QuietKeepsSolvent(w, e);
    QuietWritesNothing(w, e);
  }

  // ---------------------------------------------------------------- reserve

  lemma ReserveKeepsInv(w: World, p: Id, min: nat, max: nat)
    requires Inv(w) && Legal(w, Reserve(p, min, max))
    ensures Inv(Next(w, Reserve(p, min, max)))
  {
    var w' := Next(w, Reserve(p, min, max));
    if w' != w {
      var row := w'.payouts[|w.payouts|];
      assert Onboarded(w, p);
      forall q: Id
        ensures PaidOut(w'.ledger, q) == BookedTo(w'.payouts, q)
        ensures q < |w'.publishers| && q !in w'.overdrawn ==> PaidOut(w'.ledger, q) + PendingMicros(w'.payouts, q) <= w'.publishers[q].earned
      {
        PayoutsAppend(w.payouts, row, q);
        if q == p {
          NothingPending(w, p);
        }
      }
      ReserveKeepsRows(w, p, min, max);
    }
  }

  lemma ReserveKeepsRows(w: World, p: Id, min: nat, max: nat)
    requires PayoutsOk(w) && TransfersOk(w) && OnePending(w) && Legal(w, Reserve(p, min, max)) && Onboarded(w, p)
    requires MayReserve(w, p) && ReserveAmount(w, p, min, max).Some?
    ensures var w' := Next(w, Reserve(p, min, max)); PayoutsOk(w') && TransfersOk(w') && OnePending(w')
  {
    var w' := Next(w, Reserve(p, min, max));
    var n := |w.payouts|;
    assert forall po: Id | po < n :: w'.payouts[po] == w.payouts[po];
    assert w'.payouts[n].micros >= MICROS_PER_CENT;
    forall i: Id, j: Id | i < j < |w'.payouts| && w'.payouts[i].status == PayoutPending && w'.payouts[j].status == PayoutPending
      ensures w'.payouts[i].publisher != w'.payouts[j].publisher
    {
      assert w'.payouts[i] == w.payouts[i];
    }
  }

  // ---------------------------------------------------------------- transfers

  /** Where the scan of a pending payout shows nothing, nothing is. */
  lemma ScanIsEnough(w: World, po: Id)
    requires TransfersOk(w) && po < |w.payouts| && w.payouts[po].status == PayoutPending
    ensures ShowsNone(w, po) <==> !HasTransfer(w, po)
  {
    forall t: nat | t < |w.transfers| && w.transfers[t].payout == po
      ensures Listed(w, po, t)
    {
    }
  }

  lemma CreateAddsOne(w: World, po: Id, at: nat)
    requires PayoutsOk(w) && TransfersOk(w) && Legal(w, CreateTransfer(po, at, true)) && !KeyLive(w, po)
    ensures var w', n := MakeTransfer(w, po, at), |w.transfers|;
            && |w'.transfers| == n + 1 && w'.transfers[n].payout == po
            && forall t: Id | t < n :: w'.transfers[t] == w.transfers[t] && w.transfers[t].payout != po
  {
    ScanIsEnough(w, po);
  }

  lemma CreateKeepsTransfers(w: World, po: Id, at: nat)
    requires PayoutsOk(w) && TransfersOk(w) && OneTransfer(w) && KeysOk(w)
    requires Legal(w, CreateTransfer(po, at, true)) && !KeyLive(w, po)
    ensures var w' := MakeTransfer(w, po, at); TransfersOk(w') && OneTransfer(w') && KeysOk(w')
  {
    CreateAddsOne(w, po, at);
    assert w.payouts[po].micros % MICROS_PER_CENT == 0;
  }

  /** Payout rows do not mind more, or other, facts about transfers as long as transfers keep their payout. */
  lemma PayoutsKeep(w: World, w': World)
    requires PublishersOk(w) && AccountsOk(w) && PayoutsOk(w) && OnePending(w) && LedgerOk(w) && Solvent(w)
    requires w' == w.(transfers := w'.transfers, keys := w'.keys)
    requires |w.transfers| <= |w'.transfers|
    requires forall t: Id | t < |w.transfers| :: w'.transfers[t].payout == w.transfers[t].payout
    ensures PublishersOk(w') && AccountsOk(w') && PayoutsOk(w') && OnePending(w') && LedgerOk(w') && Solvent(w')
  {
    assert forall p: Id :: Onboarded(w', p) <==> Onboarded(w, p);
  }

  lemma CreateKeepsInv(w: World, po: Id, at: nat, made: bool)
    requires Inv(w) && Legal(w, CreateTransfer(po, at, made))
    ensures Inv(Next(w, CreateTransfer(po, at, made)))
  {
    if !KeyLive(w, po) && made {
      CreateKeepsTransfers(w, po, at);
      PayoutsKeep(w, MakeTransfer(w, po, at));
    }
  }

  lemma ReverseKeepsTransfers(w: World, t: Id, cents: nat)
    requires TransfersOk(w) && OneTransfer(w) && KeysOk(w) && Legal(w, ReverseTransfer(t, cents))
    ensures var w' := Next(w, ReverseTransfer(t, cents)); TransfersOk(w') && OneTransfer(w') && KeysOk(w')
  {
    var w' := Next(w, ReverseTransfer(t, cents));
    assert forall u: Id | u < |w.transfers| :: w'.transfers[u].(reversed := w.transfers[u].reversed) == w.transfers[u];
  }

  lemma ReverseTransferKeepsInv(w: World, t: Id, cents: nat)
    requires Inv(w) && Legal(w, ReverseTransfer(t, cents))
    ensures Inv(Next(w, ReverseTransfer(t, cents)))
  {
    ReverseKeepsTransfers(w, t, cents);
    PayoutsKeep(w, Next(w, ReverseTransfer(t, cents)));
  }

  // ---------------------------------------------------------------- one payout row and its ledger group

  /** A step that rewrites one payout row and appends the legs for what it booked. */
  ghost predicate RowStep(w: World, w': World, po: Id) {
    && po < |w.payouts|
    && |w'.payouts| == |w.payouts|
    && w.blind <= w'.blind
    && w' == w.(payouts := w.payouts[po := w'.payouts[po]], ledger := w'.ledger, blind := w'.blind)
    && w'.payouts[po].publisher == w.payouts[po].publisher
    && w'.payouts[po].micros == w.payouts[po].micros
    && w'.payouts[po].createdAt == w.payouts[po].createdAt
    && var booked := Booked(w'.payouts[po]) - Booked(w.payouts[po]);
       if booked == 0 then w'.ledger == w.ledger
       else w'.ledger == w.ledger + [Legs(po, w.payouts[po].publisher, booked, -booked)]
  }

  lemma RowStepKeepsMoney(w: World, w': World, po: Id)
    requires LedgerOk(w) && Solvent(w) && RowStep(w, w', po)
    requires w'.payouts[po].status != PayoutPending
    requires w.payouts[po].status == PayoutPending ==> Booked(w'.payouts[po]) <= w.payouts[po].micros && Booked(w.payouts[po]) == 0
    requires w.payouts[po].status != PayoutPending ==> Booked(w'.payouts[po]) <= Booked(w.payouts[po])
    ensures LedgerOk(w') && Solvent(w')
  {
    var row := w'.payouts[po];
    var booked := Booked(row) - Booked(w.payouts[po]);
    forall p: Id
      ensures PaidOut(w'.ledger, p) == BookedTo(w'.payouts, p)
      ensures p < |w'.publishers| && p !in w'.overdrawn ==> PaidOut(w'.ledger, p) + PendingMicros(w'.payouts, p) <= w'.publishers[p].earned
    {
      PayoutsUpdate(w.payouts, po, row, p);
      PaidOutAppend(w.ledger, Legs(po, row.publisher, booked, -booked), p);
    }
  }

  lemma RowStepKeepsRest(w: World, w': World, po: Id)
    requires PublishersOk(w) && AccountsOk(w) && PayoutsOk(w) && OnePending(w) && TransfersOk(w) && OneTransfer(w) && KeysOk(w)
    requires RowStep(w, w', po) && w'.payouts[po].status != PayoutPending
    requires w'.payouts[po].reversed <= w'.payouts[po].micros
    requires var row := w'.payouts[po];
             && (row.status == Paid ==> row.transfer.Some? && row.reversed < row.micros)
             && (row.status == PayoutFailed && row.transfer.Some? ==> row.reversed == row.micros)
             && (row.status == PayoutFailed && row.transfer.None? ==> !HasTransfer(w, po) || po in w'.blind)
             && (row.transfer.None? ==> row.reversed == 0)
             && (row.transfer.Some? ==> row.transfer.value < |w.transfers| && w.transfers[row.transfer.value].payout == po)
    ensures PublishersOk(w') && AccountsOk(w') && PayoutsOk(w') && OnePending(w') && TransfersOk(w') && OneTransfer(w') && KeysOk(w')
  {
    assert forall p: Id :: Onboarded(w', p) <==> Onboarded(w, p);
    assert forall i: Id | i < |w.payouts| && i != po :: w'.payouts[i] == w.payouts[i];
    assert forall t: Id | t < |w.transfers| && w.transfers[t].payout == po :: HasTransfer(w, po);
  }

  lemma ConfirmKeepsInv(w: World, po: Id, t: Id)
    requires Inv(w) && Legal(w, Confirm(po, t))
    ensures Inv(Next(w, Confirm(po, t)))
  {
    var w' := Next(w, Confirm(po, t));
    if w.payouts[po].status == PayoutPending {
      RowStepKeepsMoney(w, w', po);
      RowStepKeepsRest(w, w', po);
    }
  }

  lemma FailKeepsInv(w: World, po: Id)
    requires Inv(w) && Legal(w, Fail(po))
    ensures Inv(Next(w, Fail(po)))
  {
    var w' := Next(w, Fail(po));
    ScanIsEnough(w, po);
    RowStepKeepsMoney(w, w', po);
    RowStepKeepsRest(w, w', po);
  }

  lemma FailBlindKeepsInv(w: World, po: Id)
    requires Inv(w) && Legal(w, FailBlind(po))
    ensures Inv(Next(w, FailBlind(po)))
  {
    var w' := Next(w, FailBlind(po));
    RowStepKeepsMoney(w, w', po);
    RowStepKeepsRest(w, w', po);
  }

  lemma ReversePayoutKeepsInv(w: World, po: Id, cumulative: nat)
    requires Inv(w) && po < |w.payouts|
    ensures Inv(ReversePayout(w, po, cumulative))
  {
    var w' := ReversePayout(w, po, cumulative);
    if w' != w {
      RowStepKeepsMoney(w, w', po);
      RowStepKeepsRest(w, w', po);
    }
  }

  lemma NextKeepsInv(w: World, e: Event)
    requires Inv(w) && Legal(w, e)
    ensures Inv(Next(w, e))
  {
    match e
    case Reserve(p, min, max) => ReserveKeepsInv(w, p, min, max);
    case CreateTransfer(po, at, made) => CreateKeepsInv(w, po, at, made);
    case Confirm(po, t) => ConfirmKeepsInv(w, po, t);
    case Fail(po) => FailKeepsInv(w, po);
    case FailBlind(po) => FailBlindKeepsInv(w, po);
    case ReverseTransfer(t, cents) => ReverseTransferKeepsInv(w, t, cents);
    case TransferReversed(t, seen) =>
      var po := PayoutOfTransfer(w.payouts, t);
      if po.Some? {
        ReversePayoutKeepsInv(w, po.value, seen * MICROS_PER_CENT);
      }
    case _ => QuietKeepsInv(w, e);
  }

  // ---------------------------------------------------------------- whole runs

  lemma ReachesStep(w0: World, es: seq<Event>, w: World, e: Event)
    requires Reaches(w0, es, w) && Legal(w, e)
    ensures Reaches(w0, es + [e], Next(w, e))
  {
    assert (es + [e])[..|es|] == es;
  }

  lemma InitialInv(w: World)
    requires Initial(w)
    ensures Inv(w)
  {
  }

  lemma {:induction false} ReachesInv(w0: World, es: seq<Event>, w: World)
    requires Inv(w0) && Reaches(w0, es, w)
    ensures Inv(w)
  {
    if es != [] {
      var last := |es| - 1;
      var mid: World :| Reaches(w0, es[..last], mid) && Legal(mid, es[last]) && w == Next(mid, es[last]);
      ReachesInv(w0, es[..last], mid);
      NextKeepsInv(mid, es[last]);
    }
  }

  /** At most one transfer per payout, for its exact amount, over every run. */
  lemma AtMostOneTransfer(w0: World, es: seq<Event>, w: World, t: Id, u: Id)
    requires Initial(w0) && Reaches(w0, es, w)
    requires t < |w.transfers| && u < |w.transfers| && w.transfers[t].payout == w.transfers[u].payout
    ensures t == u
    ensures w.transfers[t].payout < |w.payouts|
    ensures w.transfers[t].cents * MICROS_PER_CENT == w.payouts[w.transfers[t].payout].micros
  {
    InitialInv(w0);
    ReachesInv(w0, es, w);
  }

  /** A create call for the payout reached Stripe at some point of the run, as Stripe's own log shows. */
  ghost predicate CreateReached(es: seq<Event>, po: Id) {
    exists k: nat :: k < |es| && MadeFor(es[k], po)
  }

  predicate MadeFor(e: Event, po: Id) {
    e.CreateTransfer? && e.payout == po && e.made
  }

  lemma TransferStep(w: World, e: Event, po: Id)
    requires Inv(w) && Legal(w, e)
    ensures HasTransfer(Next(w, e), po) <==> HasTransfer(w, po) || MadeFor(e, po)
  {
    var w' := Next(w, e);
    if e.CreateTransfer? && !KeyLive(w, e.payout) && e.made {
      var n := |w.transfers|;
      assert w'.transfers[n].payout == e.payout;
      assert forall t: nat | t < n :: w'.transfers[t] == w.transfers[t];
    } else if e.CreateTransfer? && e.made {
      assert w.transfers[w.keys[e.payout].transfer].payout == e.payout;
    } else {
      assert |w'.transfers| == |w.transfers|;
      assert forall t: nat | t < |w.transfers| :: w'.transfers[t].payout == w.transfers[t].payout;
    }
  }

  lemma CreateReachedStep(es: seq<Event>, po: Id)
    requires es != []
    ensures CreateReached(es, po) <==> CreateReached(es[..|es| - 1], po) || MadeFor(es[|es| - 1], po)
  {
    var last := |es| - 1;
    if CreateReached(es[..last], po) {
      var k: nat :| k < last && MadeFor(es[..last][k], po);
      assert MadeFor(es[k], po);
    }
    if CreateReached(es, po) {
      var k: nat :| k < |es| && MadeFor(es[k], po);
      assert k < last ==> MadeFor(es[..last][k], po);
    }
  }

  /** Transfers come from create calls that reached Stripe, and from nothing else. */
  lemma {:induction false} TransfersAreCreated(w0: World, es: seq<Event>, w: World, po: Id)
    requires Initial(w0) && Reaches(w0, es, w)
    ensures HasTransfer(w, po) <==> CreateReached(es, po)
  {
    if es != [] {
      var last := |es| - 1;
      var mid: World :| Reaches(w0, es[..last], mid) && Legal(mid, es[last]) && w == Next(mid, es[last]);
      TransfersAreCreated(w0, es[..last], mid, po);
      InitialInv(w0);
      ReachesInv(w0, es[..last], mid);
      TransferStep(mid, es[last], po);
      CreateReachedStep(es, po);
    }
  }

  /**
   Over every run, a payout failed without having been paid has a transfer if and only if it was
   failed blind, its publisher or its last scan not having answered, and an earlier create call for it
   had reached Stripe. Every other failed payout has none.
   */
  lemma FailedHasTransferExactly(w0: World, es: seq<Event>, w: World, po: Id)
    requires Initial(w0) && Reaches(w0, es, w)
    requires po < |w.payouts| && w.payouts[po].status == PayoutFailed && w.payouts[po].transfer.None?
    ensures HasTransfer(w, po) <==> po in w.blind && CreateReached(es, po)
  {
    InitialInv(w0);
    ReachesInv(w0, es, w);
    TransfersAreCreated(w0, es, w, po);
    assert forall t: nat | t < |w.transfers| && w.transfers[t].payout == po :: po in w.blind;
  }

  /** The bounded scan of a pending payout's current destination shows every transfer the payout has. */
  lemma ScanHidesNothing(w0: World, es: seq<Event>, w: World, po: Id, t: Id)
    requires Initial(w0) && Reaches(w0, es, w)
    requires po < |w.payouts| && w.payouts[po].status == PayoutPending
    requires t < |w.transfers| && w.transfers[t].payout == po
    ensures w.payouts[po].publisher < |w.publishers|
    ensures w.publishers[w.payouts[po].publisher].account == Some(w.transfers[t].destination)
    ensures w.payouts[po].createdAt - KEY_LIFETIME <= w.transfers[t].createdAt
  {
    InitialInv(w0);
    ReachesInv(w0, es, w);
  }

  /** A pending payout always has a connected account to go to: details submitted, never deleted, never unlinked. */
  lemma PendingHasAccount(w0: World, es: seq<Event>, w: World, po: Id)
    requires Initial(w0) && Reaches(w0, es, w)
    requires po < |w.payouts| && w.payouts[po].status == PayoutPending
    ensures Onboarded(w, w.payouts[po].publisher)
    ensures forall p: Id | Legal(w, UnlinkAccount(p)) || Legal(w, LinkAccount(p, 0)) || Legal(w, Erase(p)) ::
              p != w.payouts[po].publisher
  {
    InitialInv(w0);
    ReachesInv(w0, es, w);
    assert Onboarded(w, w.payouts[po].publisher);
    assert HasPending(w, w.payouts[po].publisher);
  }

  /** What is paid, net of reversals, and what is promised never exceeds matured earnings, unless an approved review overdrew. */
  lemma NeverOverpaid(w0: World, es: seq<Event>, w: World, p: Id)
    requires Initial(w0) && Reaches(w0, es, w) && p < |w.publishers|
    ensures PaidOut(w.ledger, p) == BookedTo(w.payouts, p)
    ensures p !in w.overdrawn ==> PendingMicros(w.payouts, p) <= Payable(w, p)
  {
    InitialInv(w0);
    ReachesInv(w0, es, w);
  }

  /** The publisher's payable amount does not cover what is promised to it. */
  ghost predicate Short(w: World, p: Id) {
    p < |w.publishers| && Payable(w, p) < PendingMicros(w.payouts, p)
  }

  /** An approval that takes more than is payable beyond what is promised. */
  predicate Overdraws(w: World, e: Event, p: Id) {
    e.Approve? && e.publisher == p && p < |w.publishers| && Payable(w, p) - PendingMicros(w.payouts, p) < e.micros
  }

  /** At some point of the run the promises were not covered. */
  ghost predicate EverShort(w0: World, es: seq<Event>, p: Id) {
    || (exists w: World :: Reaches(w0, es, w) && Short(w, p))
    || (es != [] && EverShort(w0, es[..|es| - 1], p))
  }

  /** At some point of the run an approval took too much. */
  ghost predicate TookTooMuch(w0: World, es: seq<Event>, p: Id) {
    es != [] &&
      var last := |es| - 1;
      || TookTooMuch(w0, es[..last], p)
      || exists w: World :: Reaches(w0, es[..last], w) && Overdraws(w, es[last], p)
  }

  lemma {:induction false} OneWorldReached(w0: World, es: seq<Event>, v: World, w: World)
    requires Reaches(w0, es, v) && Reaches(w0, es, w)
    ensures v == w
  {
    if es != [] {
      var last := |es| - 1;
      var before: World :| Reaches(w0, es[..last], before) && Legal(before, es[last]) && v == Next(before, es[last]);
      var mid: World :| Reaches(w0, es[..last], mid) && Legal(mid, es[last]) && w == Next(mid, es[last]);
      OneWorldReached(w0, es[..last], before, mid);
    }
  }

  lemma OverdrawnStep(w: World, e: Event, p: Id)
    requires Legal(w, e)
    ensures p in Next(w, e).overdrawn <==> p in w.overdrawn || Overdraws(w, e, p)
    ensures Overdraws(w, e, p) ==> Short(Next(w, e), p)
  {
  }

  /**
   Over every run, a publisher's promised payouts were covered at every point if and only if no approved
   review took more than was payable beyond what was promised.
   */
  lemma {:induction false} ApprovalOverdrawsExactly(w0: World, es: seq<Event>, w: World, p: Id)
    requires Initial(w0) && Reaches(w0, es, w)
    ensures EverShort(w0, es, p) <==> TookTooMuch(w0, es, p)
    ensures TookTooMuch(w0, es, p) <==> p in w.overdrawn
  {
    forall v: World | Reaches(w0, es, v) && Short(v, p)
      ensures p in w.overdrawn
    {
      OneWorldReached(w0, es, v, w);
      NeverOverpaid(w0, es, w, p);
    }
    if es != [] {
      var last := |es| - 1;
      var mid: World :| Reaches(w0, es[..last], mid) && Legal(mid, es[last]) && w == Next(mid, es[last]);
      ApprovalOverdrawsExactly(w0, es[..last], mid, p);
      OverdrawnStep(mid, es[last], p);
      forall v: World | Reaches(w0, es[..last], v)
        ensures v == mid
      {
        OneWorldReached(w0, es[..last], v, mid);
      }
    }
  }

  /**
   Confirming books one group that sums to zero and takes exactly the promised amount off what the
   publisher is owed; the promise is gone, nobody else is touched, and confirming again changes nothing.
   */
  lemma ConfirmBooksOnce(w0: World, es: seq<Event>, w: World, po: Id, t: Id, u: Id)
    requires Initial(w0) && Reaches(w0, es, w) && Legal(w, Confirm(po, t)) && u < |w.transfers|
    requires w.transfers[u].payout == po && w.payouts[po].status == PayoutPending
    ensures var w' := Next(w, Confirm(po, t));
            var p, micros := w.payouts[po].publisher, w.payouts[po].micros;
            && p < |w.publishers| && w'.publishers == w.publishers
            && |w'.ledger| == |w.ledger| + 1
            && w'.ledger[|w.ledger|].earnings + w'.ledger[|w.ledger|].cash == 0
            && Payable(w', p) == Payable(w, p) - micros
            && PendingMicros(w'.payouts, p) == PendingMicros(w.payouts, p) - micros
            && (forall q: Id | q < |w.publishers| && q != p :: Payable(w', q) == Payable(w, q))
            && w.transfers[t].cents * MICROS_PER_CENT == micros
            && Next(w', Confirm(po, u)) == w'
  {
    InitialInv(w0);
    ReachesInv(w0, es, w);
    var row := w.payouts[po];
    PayoutsUpdate(w.payouts, po, row.(status := Paid, transfer := Some(t)), row.publisher);
    forall q: Id
      ensures PaidOut(Next(w, Confirm(po, t)).ledger, q) == PaidOut(w.ledger, q) + if q == row.publisher then row.micros else 0
    {
      PaidOutAppend(w.ledger, Legs(po, row.publisher, row.micros, 0 - row.micros), q);
    }
  }

  /** A reserve takes all payable whole cents; less than a cent stays payable, and nothing is lost. */
  lemma RemainderCarried(w0: World, es: seq<Event>, w: World, p: Id, min: nat, max: nat)
    requires Initial(w0) && Reaches(w0, es, w) && p < |w.publishers| && min >= 1
    requires MayReserve(w, p) && ReserveAmount(w, p, min, max).Some?
    ensures var w' := Next(w, Reserve(p, min, max));
            && Payable(w', p) == Payable(w, p)
            && 0 <= Payable(w', p) - PendingMicros(w'.payouts, p) < MICROS_PER_CENT
  {
    InitialInv(w0);
    ReachesInv(w0, es, w);
    NothingPending(w, p);
    PayoutsAppend(w.payouts, Payout(p, ReserveAmount(w, p, min, max).value, PayoutPending, w.now, None, 0), p);
  }
}
