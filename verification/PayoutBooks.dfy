/** The books against Stripe: what the payout reconcile compares, and what breaks when a payout fails too early. */
module PayoutBooks {
  import opened Basics
  import opened PayoutProtocol
  import opened PayoutSafety

  // ---------------------------------------------------------------- destination stability

  lemma PendingStep(w: World, e: Event, po: Id)
    requires Inv(w) && Legal(w, e) && po < |w.payouts|
    requires Next(w, e).payouts[po].status == PayoutPending
    ensures w.payouts[po].status == PayoutPending
    ensures Next(w, e).payouts[po] == w.payouts[po]
    ensures w.payouts[po].publisher < |w.publishers|
    ensures Next(w, e).publishers[w.payouts[po].publisher].account == w.publishers[w.payouts[po].publisher].account
  {
    assert w.payouts[po].publisher < |w.publishers|;
    if Quiet(e) {
      QuietLeavesPending(w, e);
      QuietWritesNothing(w, e);
    }
  }

  lemma PayoutsStay(w: World, e: Event)
    requires Legal(w, e)
    ensures |w.payouts| <= |Next(w, e).payouts|
  {
  }

  /**
   From reserve to settlement a payout keeps its publisher, its amount and its destination, across
   onboarding requests, eligibility events, closures and everything else.
   */
  lemma {:induction false} DestinationStable(w: World, es: seq<Event>, w': World, po: Id)
    requires Inv(w) && Reaches(w, es, w') && po < |w.payouts|
    ensures po < |w'.payouts|
    ensures w'.payouts[po].status == PayoutPending ==>
              && w.payouts[po].status == PayoutPending
              && w'.payouts[po] == w.payouts[po]
              && w.payouts[po].publisher < |w.publishers| && w.payouts[po].publisher < |w'.publishers|
              && w'.publishers[w.payouts[po].publisher].account == w.publishers[w.payouts[po].publisher].account
              && w.publishers[w.payouts[po].publisher].account.Some?
  {
    if es == [] {
      assert Onboarded(w, w.payouts[po].publisher) || w.payouts[po].status != PayoutPending;
    } else {
      var last := |es| - 1;
      var mid: World :| Reaches(w, es[..last], mid) && Legal(mid, es[last]) && w' == Next(mid, es[last]);
      DestinationStable(w, es[..last], mid, po);
      PayoutsStay(mid, es[last]);
      ReachesInv(w, es[..last], mid);
      if w'.payouts[po].status == PayoutPending {
        PendingStep(mid, es[last], po);
        NextKeepsInv(mid, es[last]);
        assert Onboarded(w', w'.payouts[po].publisher);
      }
    }
  }

  // ---------------------------------------------------------------- books and Stripe

  /** The database side of the report: legs of paid payouts. */
  function DbTotal(payouts: seq<Payout>): int {
    if payouts == [] then 0
    else
      var row := payouts[|payouts| - 1];
      DbTotal(payouts[..|payouts| - 1]) + if row.status == Paid then row.micros - row.reversed else 0
  }

  /** The Stripe side: transfers net of reversals. */
  function NetMicros(transfers: seq<Transfer>): int {
    if transfers == [] then 0
    else
      var t := transfers[|transfers| - 1];
      NetMicros(transfers[..|transfers| - 1]) + (t.cents - t.reversed) * MICROS_PER_CENT
  }

  /** What the books do not know of the first n transfers: unconfirmed ones, less reversals not yet delivered. */
  function Unbooked(w: World, n: nat): int
    requires n <= |w.transfers| && forall t: Id | t < n :: w.transfers[t].payout < |w.payouts|
  {
    if n == 0 then 0 else Unbooked(w, n - 1) + Gap(w, n - 1)
  }

  function Gap(w: World, t: Id): int
    requires t < |w.transfers| && w.transfers[t].payout < |w.payouts|
  {
    var row := w.payouts[w.transfers[t].payout];
    if row.transfer.Some? then row.reversed - w.transfers[t].reversed * MICROS_PER_CENT
    else (w.transfers[t].cents - w.transfers[t].reversed) * MICROS_PER_CENT
  }

  function BookedIn(payouts: seq<Payout>, s: set<Id>): int {
    if payouts == [] then 0
    else
      var last := |payouts| - 1;
      BookedIn(payouts[..last], s) + if last in s then Booked(payouts[last]) else 0
  }

  ghost function PayoutsOf(w: World, n: nat): set<Id>
    requires n <= |w.transfers|
  {
    set t: nat | t < n :: w.transfers[t].payout
  }

  lemma BookedInMore(payouts: seq<Payout>, s: set<Id>, po: Id)
    requires po !in s && po < |payouts|
    ensures BookedIn(payouts, s + {po}) == BookedIn(payouts, s) + Booked(payouts[po])
  {
    var last := |payouts| - 1;
    if po < last {
      BookedInMore(payouts[..last], s, po);
    } else {
      BookedInUnseen(payouts[..last], s, po);
    }
  }

  lemma BookedInUnseen(payouts: seq<Payout>, s: set<Id>, po: Id)
    requires po >= |payouts|
    ensures BookedIn(payouts, s + {po}) == BookedIn(payouts, s)
  {
  }

  lemma BookedInNothing(payouts: seq<Payout>)
    ensures BookedIn(payouts, {}) == 0
  {
  }

  lemma {:induction false} TransfersMatch(w: World, n: nat)
    requires PayoutsOk(w) && TransfersOk(w) && OneTransfer(w) && n <= |w.transfers|
    ensures NetMicros(w.transfers[..n]) == BookedIn(w.payouts, PayoutsOf(w, n)) + Unbooked(w, n)
  {
    if n == 0 {
      BookedInNothing(w.payouts);
      assert PayoutsOf(w, 0) == {};
    } else {
      var t := n - 1;
      TransfersMatch(w, t);
      assert w.transfers[..n][..t] == w.transfers[..t];
      assert PayoutsOf(w, n) == PayoutsOf(w, t) + {w.transfers[t].payout};
      assert w.transfers[t].payout !in PayoutsOf(w, t);
      BookedInMore(w.payouts, PayoutsOf(w, t), w.transfers[t].payout);
    }
  }

  lemma {:induction false} OnlyTransferredIsBooked(payouts: seq<Payout>, s: set<Id>)
    requires forall po: Id | po < |payouts| && payouts[po].transfer.Some? :: po in s
    requires forall po: Id | po < |payouts| ::
               var row := payouts[po];
               && (row.status == Paid ==> row.transfer.Some?)
               && (row.status == PayoutPending ==> row.transfer.None?)
               && (row.status == PayoutFailed && row.transfer.Some? ==> row.reversed == row.micros)
    ensures BookedIn(payouts, s) == DbTotal(payouts)
  {
    if payouts != [] {
      OnlyTransferredIsBooked(payouts[..|payouts| - 1], s);
    }
  }

  /**
   The payout report, exactly: Stripe's net total exceeds the database's by the transfers not yet
   confirmed, less the reversals not yet delivered. Once all are, the two agree to the micro.
   */
  lemma BooksMatchStripe(w0: World, es: seq<Event>, w: World)
    requires Initial(w0) && Reaches(w0, es, w)
    ensures forall t: Id | t < |w.transfers| :: w.transfers[t].payout < |w.payouts|
    ensures NetMicros(w.transfers) - DbTotal(w.payouts) == Unbooked(w, |w.transfers|)
    ensures (forall t: Id | t < |w.transfers| :: Gap(w, t) == 0) ==> NetMicros(w.transfers) == DbTotal(w.payouts)
  {
    InitialInv(w0);
    ReachesInv(w0, es, w);
    MatchFromInv(w);
  }

  lemma MatchFromInv(w: World)
    requires PayoutsOk(w) && TransfersOk(w) && OneTransfer(w)
    ensures NetMicros(w.transfers) - DbTotal(w.payouts) == Unbooked(w, |w.transfers|)
    ensures (forall t: Id | t < |w.transfers| :: Gap(w, t) == 0) ==> Unbooked(w, |w.transfers|) == 0
  {
    TransfersMatch(w, |w.transfers|);
    assert w.transfers[..|w.transfers|] == w.transfers;
    OnlyTransferredIsBooked(w.payouts, PayoutsOf(w, |w.transfers|));
    if forall t: Id | t < |w.transfers| :: Gap(w, t) == 0 {
      NoGaps(w, |w.transfers|);
    }
  }

  lemma {:induction false} NoGaps(w: World, n: nat)
    requires n <= |w.transfers| && forall t: Id | t < |w.transfers| :: w.transfers[t].payout < |w.payouts| && Gap(w, t) == 0
    ensures Unbooked(w, n) == 0
  {
    if n > 0 {
      NoGaps(w, n - 1);
    }
  }

  // ---------------------------------------------------------------- failing a payout whose account could not be read

  // One verified publisher owed EUR 1; its transfer went out, the run died before confirming it.
  const OWED := World(
    [Publisher(Some(0), Verified, true, false, false, 1000000)],
    [Account(true, true, true, false)], [], [], [], map[], 0, {}, {})
  const PROMISED := OWED.(payouts := [Payout(0, 1000000, PayoutPending, 0, None, 0)])
  const SENT := PROMISED.(transfers := [Transfer(0, 0, 100, 0, 0)], keys := map[0 := TransferKey(0, 0)])
  const LOST := SENT.(payouts := [Payout(0, 1000000, PayoutFailed, 0, None, 0)], blind := {0})
  const AGAIN := LOST.(payouts := [LOST.payouts[0], Payout(0, 1000000, PayoutPending, 0, None, 0)])
  const TWICE := AGAIN.(
    transfers := [Transfer(0, 0, 100, 0, 0), Transfer(1, 0, 100, 0, 0)],
    keys := map[0 := TransferKey(0, 0), 1 := TransferKey(0, 1)])
  const RESERVE := Reserve(0, 1, 10000000000)
  const SENDING := [RESERVE] + [CreateTransfer(0, 0, true)]
  const SENDING_AGAIN := SENDING + [FailBlind(0)] + [RESERVE] + [CreateTransfer(1, 0, true)]

  lemma SentReached()
    ensures Initial(OWED) && Reaches(OWED, SENDING, SENT)
  {
    assert Onboarded(OWED, 0);
    assert Next(OWED, RESERVE) == PROMISED;
    ReachesStep(OWED, [], OWED, RESERVE);
    assert [] + [RESERVE] == [RESERVE];
    assert Next(PROMISED, CreateTransfer(0, 0, true)) == SENT;
    ReachesStep(OWED, [RESERVE], PROMISED, CreateTransfer(0, 0, true));
  }

  lemma LostReached()
    ensures Reaches(OWED, SENDING + [FailBlind(0)], LOST)
  {
    SentReached();
    assert Next(SENT, FailBlind(0)) == LOST;
    ReachesStep(OWED, SENDING, SENT, FailBlind(0));
  }

  lemma ReservedAgain()
    ensures Legal(LOST, RESERVE) && Next(LOST, RESERVE) == AGAIN
  {
    assert !HasPending(LOST, 0);
    assert ReserveAmount(LOST, 0, 1, 10000000000) == Some(1000000);
  }

  lemma SentAgain()
    ensures Legal(AGAIN, CreateTransfer(1, 0, true)) && Next(AGAIN, CreateTransfer(1, 0, true)) == TWICE
  {
  }

  lemma TwiceTheMoney()
    ensures NetMicros(TWICE.transfers) == 2000000
  {
    assert TWICE.transfers[..1] == [Transfer(0, 0, 100, 0, 0)];
    assert TWICE.transfers[..1][..0] == [];
  }

  /**
   A publisher that cannot be read between a transfer and its confirm: the payout is failed, reserved
   anew and paid a second time, twice what was earned.
   */
  lemma UnreadAccountPaysTwice()
    ensures Initial(OWED) && Reaches(OWED, SENDING_AGAIN, TWICE)
    ensures NetMicros(TWICE.transfers) == 2 * TWICE.publishers[0].earned
  {
    SentReached();
    LostReached();
    ReservedAgain();
    ReachesStep(OWED, SENDING + [FailBlind(0)], LOST, RESERVE);
    SentAgain();
    ReachesStep(OWED, SENDING + [FailBlind(0)] + [RESERVE], AGAIN, CreateTransfer(1, 0, true));
    TwiceTheMoney();
  }
}
