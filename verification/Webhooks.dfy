/**
 The stripe-connect webhook over a whole schedule of deliveries, and both webhooks over their shared
 dedup table.
 */
module Webhooks {
  import opened Basics
  import opened Deliveries
  import opened PayoutProtocol
  import opened PayoutSafety
  import DepositBooks
  import Deposits
  import PayoutRun

  /** What an event tells the stripe-connect webhook. */
  datatype ConnectNotice = AccountIs(account: Id, seen: Account) | TransferIs(transfer: Id, reversedCents: nat) | NothingHere

  type ConnectTurn = Turn<ConnectNotice, Event>

  function EventOf(n: ConnectNotice): Option<Event> {
    match n
    case AccountIs(a, seen) => Some(AccountUpdated(a, seen))
    case TransferIs(t, cents) => Some(TransferReversed(t, cents))
    case NothingHere => None
  }

  /** The notice shows something that was so at Stripe. */
  predicate Truthful(w: World, n: ConnectNotice) {
    EventOf(n).None? || Legal(w, EventOf(n).value)
  }

  function Handle(w: World, n: ConnectNotice): World {
    if EventOf(n).None? || !Truthful(w, n) then w else Next(w, EventOf(n).value)
  }

  /** Everything else that happens to payouts: batches, onboarding, earnings, time. */
  function Happens(w: World, e: Event): World {
    if e.AccountUpdated? || e.TransferReversed? || !Legal(w, e) then w else Next(w, e)
  }

  ghost function At(w0: World, turns: seq<ConnectTurn>): Desk<World> {
    After(Handle, Happens, w0, turns)
  }

  lemma HandleKeepsInv(w: World, n: ConnectNotice)
    requires Inv(w)
    ensures Inv(Handle(w, n))
  {
    if EventOf(n).Some? && Truthful(w, n) {
      NextKeepsInv(w, EventOf(n).value);
    }
  }

  lemma HappensKeepsInv(w: World, e: Event)
    requires Inv(w)
    ensures Inv(Happens(w, e))
  {
    if !e.AccountUpdated? && !e.TransferReversed? && Legal(w, e) {
      NextKeepsInv(w, e);
    }
  }

  lemma {:induction false} SchedulesKeepInv(w0: World, turns: seq<ConnectTurn>)
    requires Inv(w0)
    ensures Inv(At(w0, turns).state)
  {
    if turns != [] {
      var before := turns[..|turns| - 1];
      SchedulesKeepInv(w0, before);
      match turns[|turns| - 1]
      case Other(e) => HappensKeepsInv(At(w0, before).state, e);
      case Arrive(d) => HandleKeepsInv(At(w0, before).state, d.notice);
    }
  }

  // ---------------------------------------------------------------- reversals after the confirm

  /** How much is booked as reversed of the payout that carries a transfer; none if no payout does. */
  function BookedReversal(w: World, t: Id): Option<(nat, nat)> {
    var po := PayoutOfTransfer(w.payouts, t);
    if po.None? then None else Some((w.payouts[po.value].reversed, w.payouts[po.value].micros))
  }

  /** The notice the last turn handled, if it handled one. */
  ghost function Took(w0: World, turns: seq<ConnectTurn>): ConnectNotice
    requires turns != []
  {
    var before, t := At(w0, turns[..|turns| - 1]), turns[|turns| - 1];
    if t.Arrive? && ReplyTo(before.rows, t.delivery) == HandledNow && Truthful(before.state, t.delivery.notice)
    then t.delivery.notice else NothingHere
  }

  /** The largest cumulative reversal, in micros, handled while a payout carried the transfer. */
  ghost function MaxAfterConfirm(w0: World, turns: seq<ConnectTurn>, t: Id): nat {
    if turns == [] then 0
    else
      var before, n := turns[..|turns| - 1], Took(w0, turns);
      var earlier := MaxAfterConfirm(w0, before, t);
      if n.TransferIs? && n.transfer == t && BookedReversal(At(w0, before).state, t).Some?
         && n.reversedCents * MICROS_PER_CENT > earlier
      then n.reversedCents * MICROS_PER_CENT else earlier
  }

  /** Once a payout carries a transfer it is found by it, and no other payout is. */
  lemma CarrierIs(w: World, po: Id, t: Id)
    requires PayoutsOk(w) && po < |w.payouts| && w.payouts[po].transfer == Some(t)
    ensures PayoutOfTransfer(w.payouts, t) == Some(po)
  {
    var q := PayoutOfTransfer(w.payouts, t);
    assert q.Some? && w.transfers[t].payout == po && w.transfers[t].payout == q.value;
  }

  lemma SameRowsSameAnswer(w: World, w': World, t: Id)
    requires PayoutsOk(w) && PayoutsOk(w') && |w'.payouts| >= |w.payouts|
    requires forall po: Id | po < |w.payouts| ::
               && (w'.payouts[po].transfer == Some(t) <==> w.payouts[po].transfer == Some(t))
               && (w.payouts[po].transfer == Some(t) ==>
                     w'.payouts[po].reversed == w.payouts[po].reversed && w'.payouts[po].micros == w.payouts[po].micros)
    requires forall po: Id | |w.payouts| <= po < |w'.payouts| :: w'.payouts[po].transfer.None?
    ensures BookedReversal(w', t) == BookedReversal(w, t)
  {
    var q, q' := PayoutOfTransfer(w.payouts, t), PayoutOfTransfer(w'.payouts, t);
    if q.Some? {
      CarrierIs(w', q.value, t);
    }
  }

  lemma QuietLeavesPayouts(w: World, e: Event)
    requires Legal(w, e) && Quiet(e)
    ensures Next(w, e).payouts == w.payouts
  {
  }

  lemma PendingCarriesNothing(w: World, po: Id, t: Id)
    requires PayoutsOk(w) && po < |w.payouts| && w.payouts[po].status == PayoutPending
    requires t < |w.transfers| && w.transfers[t].payout == po
    ensures PayoutOfTransfer(w.payouts, t).None?
  {
    forall q: Id | q < |w.payouts|
      ensures w.payouts[q].transfer != Some(t)
    {
    }
  }

  lemma ConfirmAnswer(w: World, po: Id, u: Id, t: Id)
    requires Inv(w) && Legal(w, Confirm(po, u)) && PayoutsOk(ConfirmPayout(w, po, u))
    ensures var w' := ConfirmPayout(w, po, u);
            BookedReversal(w', t) ==
            if u == t && w.payouts[po].status == PayoutPending then Some((0, w.payouts[po].micros)) else BookedReversal(w, t)
    ensures u == t && w.payouts[po].status == PayoutPending ==> BookedReversal(w, t).None?
  {
    var w' := ConfirmPayout(w, po, u);
    if w.payouts[po].status == PayoutPending {
      if u == t {
        CarrierIs(w', po, t);
        PendingCarriesNothing(w, po, t);
      } else {
        SameRowsSameAnswer(w, w', t);
      }
    }
  }

  lemma FailAnswer(w: World, e: Event, t: Id)
    requires Inv(w) && Legal(w, e) && (e.Fail? || e.FailBlind?) && PayoutsOk(Next(w, e))
    ensures BookedReversal(Next(w, e), t) == BookedReversal(w, t)
  {
    SameRowsSameAnswer(w, Next(w, e), t);
  }

  lemma ReserveAnswer(w: World, e: Event, t: Id)
    requires Inv(w) && Legal(w, e) && e.Reserve? && PayoutsOk(Next(w, e))
    ensures BookedReversal(Next(w, e), t) == BookedReversal(w, t)
  {
    SameRowsSameAnswer(w, Next(w, e), t);
  }

  lemma StripeAnswer(w: World, e: Event, t: Id)
    requires Legal(w, e) && (e.CreateTransfer? || e.ReverseTransfer?)
    ensures BookedReversal(Next(w, e), t) == BookedReversal(w, t)
  {
  }

  lemma OtherAnswer(w: World, e: Event, t: Id)
    requires Inv(w) && Legal(w, e) && PayoutsOk(Next(w, e))
    requires !e.AccountUpdated? && !e.TransferReversed? && !e.Confirm?
    ensures BookedReversal(Next(w, e), t) == BookedReversal(w, t)
  {
    if Quiet(e) {
      QuietLeavesPayouts(w, e);
    } else if e.Fail? || e.FailBlind? {
      FailAnswer(w, e, t);
    } else if e.Reserve? {
      ReserveAnswer(w, e, t);
    } else {
      StripeAnswer(w, e, t);
    }
  }

  /** Other events leave what is booked alone; a confirm is where it begins, at nothing. */
  ghost predicate BeginsAtNothing(before: Option<(nat, nat)>, after: Option<(nat, nat)>) {
    if before.Some? then after == before else after.Some? ==> after.value.0 == 0
  }

  lemma HappensLeavesReversals(w: World, e: Event, t: Id)
    requires Inv(w)
    ensures BeginsAtNothing(BookedReversal(w, t), BookedReversal(Happens(w, e), t))
  {
    if !e.AccountUpdated? && !e.TransferReversed? && Legal(w, e) {
      NextKeepsInv(w, e);
      if e.Confirm? {
        ConfirmAnswer(w, e.payout, e.transfer, t);
      } else {
        OtherAnswer(w, e, t);
      }
    }
  }

  /** What a reversal leaves booked: the larger of what was and what it says, up to the payout. */
  function Raised(booked: (nat, nat), cumulative: nat): (nat, nat) {
    var target := if cumulative < booked.1 then cumulative else booked.1;
    (if target > booked.0 then target else booked.0, booked.1)
  }

  lemma ReverseAnswer(w: World, po: Id, t: Id, cumulative: nat)
    requires po < |w.payouts| && w.payouts[po].transfer == Some(t)
    requires PayoutsOk(w) && PayoutsOk(ReversePayout(w, po, cumulative))
    ensures BookedReversal(ReversePayout(w, po, cumulative), t)
            == Some(Raised((w.payouts[po].reversed, w.payouts[po].micros), cumulative))
  {
    var w' := ReversePayout(w, po, cumulative);
    assert w'.payouts[po].transfer == w.payouts[po].transfer;
    CarrierIs(w', po, t);
    assert w.payouts[po].status == Paid || w.payouts[po].reversed == w.payouts[po].micros;
  }

  lemma ReverseOther(w: World, po: Id, t: Id, cumulative: nat)
    requires po < |w.payouts| && w.payouts[po].transfer != Some(t)
    requires PayoutsOk(w) && PayoutsOk(ReversePayout(w, po, cumulative))
    ensures BookedReversal(ReversePayout(w, po, cumulative), t) == BookedReversal(w, t)
  {
    SameRowsSameAnswer(w, ReversePayout(w, po, cumulative), t);
  }

  lemma ReversalRaises(w: World, x: Id, cents: nat, t: Id)
    requires Inv(w) && Legal(w, TransferReversed(x, cents)) && PayoutsOk(Next(w, TransferReversed(x, cents)))
    ensures BookedReversal(Next(w, TransferReversed(x, cents)), t) ==
            if x == t && BookedReversal(w, t).Some?
            then Some(Raised(BookedReversal(w, t).value, cents * MICROS_PER_CENT))
            else BookedReversal(w, t)
  {
    var po := PayoutOfTransfer(w.payouts, x);
    if po.Some? {
      if x == t {
        ReverseAnswer(w, po.value, t, cents * MICROS_PER_CENT);
      } else {
        ReverseOther(w, po.value, t, cents * MICROS_PER_CENT);
      }
    }
  }

  lemma UpdateLeavesReversals(w: World, a: Id, seen: Account, t: Id)
    ensures BookedReversal(SetEligibility(w, a, EligibilityFor(seen)), t) == BookedReversal(w, t)
  {
  }

  /** Handling a truthful reversal raises what is booked to it, up to the payout. */
  lemma HandleBooksReversal(w: World, n: ConnectNotice, t: Id)
    requires Inv(w)
    ensures BookedReversal(Handle(w, n), t) ==
            if Truthful(w, n) && n.TransferIs? && n.transfer == t && BookedReversal(w, t).Some?
            then Some(Raised(BookedReversal(w, t).value, n.reversedCents * MICROS_PER_CENT))
            else BookedReversal(w, t)
  {
    HandleKeepsInv(w, n);
    if Truthful(w, n) {
      match n
      case TransferIs(x, cents) => ReversalRaises(w, x, cents, t);
      case AccountIs(a, seen) => UpdateLeavesReversals(w, a, seen, t);
      case NothingHere =>
    }
  }

  /**
   For every schedule of deliveries, mixed with batches and everything else: what is booked as reversed of
   a payout is the largest cumulative amount handled after its confirm, up to the payout. What was
   handled before the confirm is not among it.
   */
  lemma {:induction false} ReversalsConverge(w0: World, turns: seq<ConnectTurn>, t: Id)
    requires Initial(w0)
    ensures var booked, max := BookedReversal(At(w0, turns).state, t), MaxAfterConfirm(w0, turns, t);
            && (booked.None? ==> max == 0)
            && (booked.Some? ==> booked.value.0 == if max < booked.value.1 then max else booked.value.1)
  {
    InitialInv(w0);
    if turns != [] {
      var before := turns[..|turns| - 1];
      var w := At(w0, before).state;
      ReversalsConverge(w0, before, t);
      SchedulesKeepInv(w0, before);
      match turns[|turns| - 1]
      case Other(e) => HappensLeavesReversals(w, e, t);
      case Arrive(d) => HandleBooksReversal(w, d.notice, t);
    }
  }

  // ---------------------------------------------------------------- once, exactly

  ghost predicate BooksReversal(w: World, po: Id, t: Id, cumulative: nat) {
    && po < |w.payouts|
    && w.payouts[po].transfer == Some(t)
    && w.payouts[po].status == Paid
    && w.payouts[po].reversed < cumulative && w.payouts[po].reversed < w.payouts[po].micros
  }

  /**
   A reversal books something exactly when a paid payout already carries the transfer and not all of
   it was booked; delivered before the confirm it books nothing.
   */
  lemma ReversalBooksExactly(w: World, t: Id, seenCents: nat)
    requires PayoutsOk(w) && Legal(w, TransferReversed(t, seenCents))
    ensures Next(w, TransferReversed(t, seenCents)) != w <==>
              exists po: Id :: BooksReversal(w, po, t, seenCents * MICROS_PER_CENT)
  {
    var po := PayoutOfTransfer(w.payouts, t);
    forall q: Id | BooksReversal(w, q, t, seenCents * MICROS_PER_CENT)
      ensures po == Some(q)
    {
      CarrierIs(w, q, t);
    }
    if po.Some? {
      var w' := ReversePayout(w, po.value, seenCents * MICROS_PER_CENT);
      assert BooksReversal(w, po.value, t, seenCents * MICROS_PER_CENT) ==> |w'.ledger| == |w.ledger| + 1;
    }
  }

  /** The eligibility an account.updated event gives a publisher; a hold outranks verified. */
  function Shown(p: Publisher, seen: Account): Eligibility {
    if EligibilityFor(seen) == Verified && p.held then AwaitingDetails else EligibilityFor(seen)
  }

  predicate Linked(w: World, p: Id, a: Id) {
    p < |w.publishers| && w.publishers[p].account == Some(a)
  }

  /** An account.updated event changes something exactly when a publisher of the account shows something else. */
  lemma UpdateChangesExactly(w: World, a: Id, seen: Account)
    ensures SetEligibility(w, a, EligibilityFor(seen)) != w <==>
              exists p: Id :: Linked(w, p, a) && w.publishers[p].eligibility != Shown(w.publishers[p], seen)
  {
    var w' := SetEligibility(w, a, EligibilityFor(seen));
    forall p: Id | p < |w.publishers|
      ensures w'.publishers[p] != w.publishers[p] <==> Linked(w, p, a) && w.publishers[p].eligibility != Shown(w.publishers[p], seen)
    {
    }
    if w'.publishers == w.publishers {
      assert w' == w;
    } else {
      var p: nat :| p < |w.publishers| && w'.publishers[p] != w.publishers[p];
    }
  }

  /** When handling a notice changes the tables. */
  ghost predicate Changes(w: World, n: ConnectNotice) {
    Truthful(w, n) &&
    match n
    case AccountIs(a, seen) => exists p: Id :: Linked(w, p, a) && w.publishers[p].eligibility != Shown(w.publishers[p], seen)
    case TransferIs(t, cents) => exists po: Id :: BooksReversal(w, po, t, cents * MICROS_PER_CENT)
    case NothingHere => false
  }

  lemma HandleChangesExactly(w: World, n: ConnectNotice)
    requires Inv(w)
    ensures Handle(w, n) != w <==> Changes(w, n)
  {
    if Truthful(w, n) {
      match n
      case AccountIs(a, seen) => UpdateChangesExactly(w, a, seen);
      case TransferIs(t, cents) => ReversalBooksExactly(w, t, cents);
      case NothingHere =>
    }
  }

  /** The payout is confirmed, and no reversal that covers this one, or all of it, was handled since. */
  ghost predicate Uncovered(w0: World, turns: seq<ConnectTurn>, t: Id, cumulative: nat) {
    var booked, max := BookedReversal(At(w0, turns).state, t), MaxAfterConfirm(w0, turns, t);
    booked.Some? && max < cumulative && max < booked.value.1
  }

  lemma UncoveredBooks(w0: World, turns: seq<ConnectTurn>, t: Id, cumulative: nat)
    requires Initial(w0)
    ensures Uncovered(w0, turns, t, cumulative) <==> exists po: Id :: BooksReversal(At(w0, turns).state, po, t, cumulative)
  {
    var w := At(w0, turns).state;
    InitialInv(w0);
    SchedulesKeepInv(w0, turns);
    ReversalsConverge(w0, turns, t);
    var q := PayoutOfTransfer(w.payouts, t);
    forall po: Id | BooksReversal(w, po, t, cumulative)
      ensures q == Some(po)
    {
      CarrierIs(w, po, t);
    }
    if Uncovered(w0, turns, t, cumulative) {
      assert BooksReversal(w, q.value, t, cumulative);
    }
  }

  /**
   The last turn handles a delivery again: an old account.updated that a publisher no longer shows, or a
   reversal first handled before its payout's confirm and not covered since.
   */
  ghost predicate StaleRepeat(w0: World, turns: seq<ConnectTurn>) {
    turns != [] &&
      var before, t := turns[..|turns| - 1], turns[|turns| - 1];
      var w := At(w0, before).state;
      && Repeats(At(w0, before), t)
      && Truthful(w, t.delivery.notice)
      && match t.delivery.notice
         case AccountIs(a, seen) => exists p: Id :: Linked(w, p, a) && w.publishers[p].eligibility != Shown(w.publishers[p], seen)
         case TransferIs(x, cents) => Uncovered(w0, before, x, cents * MICROS_PER_CENT)
         case NothingHere => false
  }

  ghost predicate NoStaleRepeat(w0: World, turns: seq<ConnectTurn>) {
    turns != [] ==> NoStaleRepeat(w0, turns[..|turns| - 1]) && !StaleRepeat(w0, turns)
  }

  lemma {:induction false} StaleRepeatsChange(w0: World, turns: seq<ConnectTurn>)
    requires Initial(w0)
    ensures RepeatsChangeNothing(Handle, Happens, w0, turns) <==> NoStaleRepeat(w0, turns)
  {
    if turns != [] {
      var before, t := turns[..|turns| - 1], turns[|turns| - 1];
      StaleRepeatsChange(w0, before);
      InitialInv(w0);
      SchedulesKeepInv(w0, before);
      if t.Arrive? {
        HandleChangesExactly(At(w0, before).state, t.delivery.notice);
        if t.delivery.notice.TransferIs? {
          UncoveredBooks(w0, before, t.delivery.notice.transfer, t.delivery.notice.reversedCents * MICROS_PER_CENT);
        }
      }
    }
  }

  /**
   For every schedule of deliveries, with missed checks, failing handlers, lost records and anything else
   in between: payouts and publishers are at every point those of handling each event once, if and only if
   no stale delivery was handled again.
   */
  lemma ConnectOnceExactly(w0: World, turns: seq<ConnectTurn>)
    requires Initial(w0)
    ensures AlwaysOnce(Handle, Happens, w0, turns) <==> NoStaleRepeat(w0, turns)
  {
    OnceExactly(Handle, Happens, w0, turns);
    StaleRepeatsChange(w0, turns);
  }

  // ---------------------------------------------------------------- account.updated

  /** The world after handling a sequence of account.updated events of one account. */
  function Updated(w: World, a: Id, seen: seq<Account>): World {
    if seen == [] then w else SetEligibility(Updated(w, a, seen[..|seen| - 1]), a, EligibilityFor(seen[|seen| - 1]))
  }

  /** Every publisher of the account shows what the event says. */
  ghost predicate ShowsAll(w: World, a: Id, seen: Account) {
    forall p: Id | Linked(w, p, a) :: w.publishers[p].eligibility == Shown(w.publishers[p], seen)
  }

  lemma {:induction false} UpdatesOnlySetEligibility(w: World, a: Id, seen: seq<Account>)
    ensures |Updated(w, a, seen).publishers| == |w.publishers|
    ensures forall p: Id | p < |w.publishers| ::
              Updated(w, a, seen).publishers[p].(eligibility := w.publishers[p].eligibility) == w.publishers[p]
  {
    if seen != [] {
      UpdatesOnlySetEligibility(w, a, seen[..|seen| - 1]);
    }
  }

  /**
   For any world, any account and any schedule of its account.updated events: the publishers end with the
   status of the newest event if and only if that of the event handled last is the same.
   */
  lemma LastUpdateDecides(w: World, a: Id, seen: seq<Account>, newest: Account)
    requires seen != []
    ensures ShowsAll(Updated(w, a, seen), a, newest) <==>
            forall p: Id | Linked(w, p, a) :: Shown(w.publishers[p], seen[|seen| - 1]) == Shown(w.publishers[p], newest)
  {
    UpdatesOnlySetEligibility(w, a, seen[..|seen| - 1]);
    UpdatesOnlySetEligibility(w, a, seen);
    var last := seen[|seen| - 1];
    forall p: Id | p < |w.publishers|
      ensures Linked(w, p, a) <==> Linked(Updated(w, a, seen), p, a)
      ensures Linked(w, p, a) ==> Updated(w, a, seen).publishers[p].eligibility == Shown(w.publishers[p], last)
      ensures Shown(Updated(w, a, seen).publishers[p], newest) == Shown(w.publishers[p], newest)
    {
    }
  }

  // An unfinished account, and the same account after its owner submitted details.
  const UNFINISHED := Account(false, false, true, false)
  const FINISHED := Account(true, true, true, false)
  const ONBOARDED := World([Publisher(Some(0), AwaitingDetails, true, false, false, 0)], [FINISHED], [], [], [], map[], 0, {}, {})
  const OLD_EVENT: ConnectTurn := Arrive(Delivery(Dedup(1, StripeConnect), AccountIs(0, UNFINISHED), false, false, true))
  const NEW_EVENT: ConnectTurn := Arrive(Delivery(Dedup(2, StripeConnect), AccountIs(0, FINISHED), false, false, false))

  lemma UpdateOne(w: World, seen: Account)
    requires |w.publishers| == 1 && w.publishers[0].account == Some(0) && !w.publishers[0].held
    requires Legal(w, AccountUpdated(0, seen))
    ensures Handle(w, AccountIs(0, seen)) == w.(publishers := [w.publishers[0].(eligibility := EligibilityFor(seen))])
  {
  }

  /** It does occur: an old event whose record was lost comes again after a newer one and undoes it. */
  lemma StaleUpdateUndoesVerified()
    ensures Initial(ONBOARDED)
    ensures var d := At(ONBOARDED, [OLD_EVENT] + [NEW_EVENT] + [OLD_EVENT]);
            && d.state == ONBOARDED
            && d.once == ONBOARDED.(publishers := [ONBOARDED.publishers[0].(eligibility := Verified)])
  {
    var w := ONBOARDED;
    var v := w.(publishers := [w.publishers[0].(eligibility := Verified)]);
    UpdateOne(w, UNFINISHED);
    UpdateOne(w, FINISHED);
    UpdateOne(v, UNFINISHED);
    assert [] + [OLD_EVENT] == [OLD_EVENT];
    AfterMore(Handle, Happens, w, [], OLD_EVENT);
    AfterMore(Handle, Happens, w, [OLD_EVENT], NEW_EVENT);
    AfterMore(Handle, Happens, w, [OLD_EVENT] + [NEW_EVENT], OLD_EVENT);
  }

  // ---------------------------------------------------------------- both endpoints over one table

  datatype AnyNotice = ToPortal(deposit: DepositBooks.Notice) | ToConnect(payout: ConnectNotice)

  datatype AnyStep = OnBooks(move: DepositBooks.Move) | OnPayouts(event: Event)

  type AnyTurn = Turn<AnyNotice, AnyStep>

  type Both = (DepositBooks.Books, World)

  ghost function HandleAny(s: Both, n: AnyNotice): Both {
    match n
    case ToPortal(x) => (DepositBooks.Handle(s.0, x), s.1)
    case ToConnect(x) => (s.0, Handle(s.1, x))
  }

  function StepAny(s: Both, x: AnyStep): Both {
    match x
    case OnBooks(m) => (DepositBooks.Moved(s.0, m), s.1)
    case OnPayouts(e) => (s.0, Happens(s.1, e))
  }

  /** Each endpoint is told its own. */
  predicate WellAddressed(turns: seq<AnyTurn>) {
    forall k: nat | k < |turns| && turns[k].Arrive? ::
      turns[k].delivery.notice.ToPortal? <==> turns[k].delivery.key.endpoint == AdvertiserPortal
  }

  /** The schedule as the portal alone would have it. */
  function PortalOnly(turns: seq<AnyTurn>): seq<Turn<DepositBooks.Notice, DepositBooks.Move>> {
    if turns == [] then []
    else
      PortalOnly(turns[..|turns| - 1]) +
      match turns[|turns| - 1]
      case Other(OnBooks(m)) => [Other(m)]
      case Arrive(Delivery(key, ToPortal(n), misses, fails, lost)) => [Arrive(Delivery(key, n, misses, fails, lost))]
      case _ => []
  }

  /** The schedule as stripe-connect alone would have it. */
  function ConnectOnly(turns: seq<AnyTurn>): seq<ConnectTurn> {
    if turns == [] then []
    else
      ConnectOnly(turns[..|turns| - 1]) +
      match turns[|turns| - 1]
      case Other(OnPayouts(e)) => [Other(e)]
      case Arrive(Delivery(key, ToConnect(n), misses, fails, lost)) => [Arrive(Delivery(key, n, misses, fails, lost))]
      case _ => []
  }

  ghost function Shared(w0: World, turns: seq<AnyTurn>): Desk<Both> {
    After(HandleAny, StepAny, (map[], w0), turns)
  }

  lemma WellAddressedPrefix(turns: seq<AnyTurn>)
    requires turns != [] && WellAddressed(turns)
    ensures WellAddressed(turns[..|turns| - 1])
  {
    assert forall k: nat | k < |turns| - 1 :: turns[..|turns| - 1][k] == turns[k];
  }

  /**
   Neither endpoint suppresses the other: for every schedule over the shared table, each endpoint's books
   and rows are those of the same schedule without a single delivery to the other.
   */
  lemma EndpointsIndependent(w0: World, turns: seq<AnyTurn>)
    requires WellAddressed(turns)
    ensures Shared(w0, turns).state == (DepositBooks.At(PortalOnly(turns)).state, At(w0, ConnectOnly(turns)).state)
    ensures RowsOf(Shared(w0, turns).rows, AdvertiserPortal) == DepositBooks.At(PortalOnly(turns)).rows
    ensures RowsOf(Shared(w0, turns).rows, StripeConnect) == At(w0, ConnectOnly(turns)).rows
  {
    EndpointsApart(w0, turns);
  }

  lemma {:induction false} EndpointsApart(w0: World, turns: seq<AnyTurn>)
    requires WellAddressed(turns)
    ensures Apart(w0, turns)
  {
    if turns != [] {
      var before, t := turns[..|turns| - 1], turns[|turns| - 1];
      WellAddressedPrefix(turns);
      EndpointsApart(w0, before);
      assert before + [t] == turns;
      match t
      case Other(x) => OneHappens(w0, before, x);
      case Arrive(d) => OneArrives(w0, before, d);
    }
  }

  /** Each endpoint's part of the shared schedule is its own schedule. */
  ghost predicate Apart(w0: World, turns: seq<AnyTurn>) {
    && Shared(w0, turns).state == (DepositBooks.At(PortalOnly(turns)).state, At(w0, ConnectOnly(turns)).state)
    && RowsOf(Shared(w0, turns).rows, AdvertiserPortal) == DepositBooks.At(PortalOnly(turns)).rows
    && RowsOf(Shared(w0, turns).rows, StripeConnect) == At(w0, ConnectOnly(turns)).rows
  }

  lemma OneHappens(w0: World, before: seq<AnyTurn>, x: AnyStep)
    requires Apart(w0, before)
    ensures Apart(w0, before + [Other(x)])
  {
    var turns := before + [Other(x)];
    assert turns[..|before|] == before;
    match x
    case OnBooks(m) =>
      assert ConnectOnly(turns) == ConnectOnly(before);
      AfterMore(DepositBooks.Handle, DepositBooks.Moved, map[], PortalOnly(before), Other(m));
    case OnPayouts(e) =>
      assert PortalOnly(turns) == PortalOnly(before);
      AfterMore(Handle, Happens, w0, ConnectOnly(before), Other(e));
  }

  lemma OneArrives(w0: World, before: seq<AnyTurn>, d: Delivery<AnyNotice>)
    requires d.notice.ToPortal? <==> d.key.endpoint == AdvertiserPortal
    requires Apart(w0, before)
    ensures Apart(w0, before + [Arrive(d)])
  {
    if d.notice.ToPortal? {
      PortalArrives(w0, before, d);
    } else {
      ConnectArrives(w0, before, d);
    }
  }

  /** What a delivery does to the shared desk. */
  lemma SharedDelivers(w0: World, before: seq<AnyTurn>, d: Delivery<AnyNotice>)
    ensures var now, next := Shared(w0, before), Shared(w0, before + [Arrive(d)]);
            && next.rows == RowsAfter(now.rows, d)
            && next.state == if ReplyTo(now.rows, d) == HandledNow then HandleAny(now.state, d.notice) else now.state
  {
    AfterMore(HandleAny, StepAny, (map[], w0), before, Arrive(d));
  }

  lemma PortalArrives(w0: World, before: seq<AnyTurn>, d: Delivery<AnyNotice>)
    requires d.notice.ToPortal? && d.key.endpoint == AdvertiserPortal && Apart(w0, before)
    ensures Apart(w0, before + [Arrive(d)])
  {
    var turns, rows := before + [Arrive(d)], Shared(w0, before).rows;
    var x := Delivery(d.key, d.notice.deposit, d.misses, d.fails, d.lost);
    assert turns[..|before|] == before;
    assert ConnectOnly(turns) == ConnectOnly(before);
    assert PortalOnly(turns) == PortalOnly(before) + [Arrive(x)];
    OwnRowsDecide(rows, d);
    SharedDelivers(w0, before, d);
    DeliveryLeads(DepositBooks.Handle, DepositBooks.Moved, map[], PortalOnly(before), x, rows);
    assert ReplyTo(rows, x) == ReplyTo(rows, d) && RowsAfter(rows, x) == RowsAfter(rows, d);
  }

  lemma ConnectArrives(w0: World, before: seq<AnyTurn>, d: Delivery<AnyNotice>)
    requires d.notice.ToConnect? && d.key.endpoint == StripeConnect && Apart(w0, before)
    ensures Apart(w0, before + [Arrive(d)])
  {
    var turns, rows := before + [Arrive(d)], Shared(w0, before).rows;
    var x := Delivery(d.key, d.notice.payout, d.misses, d.fails, d.lost);
    assert turns[..|before|] == before;
    assert PortalOnly(turns) == PortalOnly(before);
    assert ConnectOnly(turns) == ConnectOnly(before) + [Arrive(x)];
    OwnRowsDecide(rows, d);
    SharedDelivers(w0, before, d);
    DeliveryLeads(Handle, Happens, w0, ConnectOnly(before), x, rows);
    assert ReplyTo(rows, x) == ReplyTo(rows, d) && RowsAfter(rows, x) == RowsAfter(rows, d);
  }

  // ---------------------------------------------------------------- the handler

  /**
   The turns of what a payout desk recorded: its own steps, and the deliveries that arrived in the middle
   of them, under ids of their own and with their records lost.
   */
  ghost function TurnsOf(es: seq<Event>, id: nat -> Id): seq<ConnectTurn> {
    if es == [] then []
    else TurnsOf(es[..|es| - 1], id) + [TurnOf(es[|es| - 1], id(|es| - 1))]
  }

  function TurnOf(e: Event, id: Id): ConnectTurn {
    match e
    case AccountUpdated(a, seen) => Arrive(Delivery(Dedup(id, StripeConnect), AccountIs(a, seen), true, false, true))
    case TransferReversed(t, cents) => Arrive(Delivery(Dedup(id, StripeConnect), TransferIs(t, cents), true, false, true))
    case _ => Other(e)
  }

  lemma TurnLeads(d: Desk<World>, e: Event, id: Id)
    requires Legal(d.state, e)
    ensures var next := Step(Handle, Happens, d, TurnOf(e, id)); next.state == Next(d.state, e) && next.rows == d.rows
  {
  }

  /** A longer record of the desk leads on from the schedule so far. */
  lemma {:induction false} RecordLeads(w0: World, turns: seq<ConnectTurn>, es: seq<Event>, fs: seq<Event>, w: World, id: nat -> Id)
    requires Reaches(w0, es, At(w0, turns).state) && Reaches(w0, fs, w) && es <= fs
    ensures var d := At(w0, turns + TurnsOf(fs[|es|..], id)); d.state == w && d.rows == At(w0, turns).rows
  {
    if es == fs {
      OneWorldReached(w0, es, At(w0, turns).state, w);
      assert turns + TurnsOf(fs[|es|..], id) == turns;
    } else {
      var last := |fs| - 1;
      var mid: World :| Reaches(w0, fs[..last], mid) && Legal(mid, fs[last]) && w == Next(mid, fs[last]);
      var more := fs[|es|..];
      assert more[..|more| - 1] == fs[..last][|es|..] && more[|more| - 1] == fs[last];
      RecordLeads(w0, turns, es, fs[..last], mid, id);
      var before, t := turns + TurnsOf(more[..|more| - 1], id), TurnOf(fs[last], id(|more| - 1));
      assert turns + TurnsOf(more, id) == before + [t];
      AfterMore(Handle, Happens, w0, before, t);
      TurnLeads(At(w0, before), fs[last], id(|more| - 1));
    }
  }

  /** A payout after a reversal: booked up to what was reversed, at most its amount, and failed once that is all. */
  ghost predicate ReversedTo(x: Payout, y: Payout, cents: nat) {
    var target := if cents * 10000 < x.micros then cents * 10000 else x.micros;
    if x.status == Paid && target > x.reversed
    then y == x.(reversed := target, status := if target == x.micros then PayoutFailed else Paid)
    else y == x
  }

  /**
   What a handled notice does. An account's publishers show its state. A reversal moves the payout that
   carries the transfer, and its publisher's legs by as much; without such a payout, nothing.
   */
  ghost predicate Tells(w: World, w': World, n: ConnectNotice) {
    match n
    case AccountIs(a, seen) => PayoutRun.ShowsStatus(w, w', a, seen)
    case TransferIs(t, cents) =>
      && w' == w.(payouts := w'.payouts, ledger := w'.ledger)
      && |w'.payouts| == |w.payouts|
      && ((forall po: Id | po < |w.payouts| :: w.payouts[po].transfer != Some(t)) ==> w' == w)
      && forall po: Id | po < |w.payouts| ::
           var x, y := w.payouts[po], w'.payouts[po];
           && (x.transfer != Some(t) ==> y == x)
           && (x.transfer == Some(t) ==>
                 && ReversedTo(x, y, cents)
                 && w'.ledger == w.ledger + if y == x then [] else [Legs(po, x.publisher, x.reversed - y.reversed, y.reversed - x.reversed)])
    case NothingHere => w' == w
  }

  lemma ReversalTells(w: World, t: Id, cents: nat)
    requires PayoutsOk(w) && Legal(w, TransferReversed(t, cents))
    ensures Tells(w, Next(w, TransferReversed(t, cents)), TransferIs(t, cents))
  {
    forall po: Id | po < |w.payouts| && w.payouts[po].transfer == Some(t)
      ensures PayoutOfTransfer(w.payouts, t) == Some(po)
    {
      CarrierIs(w, po, t);
    }
  }

  /** POST /webhook of stripe-connect, over a payout desk and the table it shares with the portal. */
  class ConnectWebhook {
    const desk: PayoutRun.PayoutDesk
    const dedup: DedupTable
    ghost var turns: seq<ConnectTurn>

    /** The desk's tables and this endpoint's rows are where the deliveries so far, and everything else, lead. */
    ghost predicate Valid()
      reads this, desk, dedup
    {
      && desk.Valid()
      && desk.World() == At(desk.start, turns).state
      && dedup.Own(StripeConnect) == At(desk.start, turns).rows
    }

    constructor (desk: PayoutRun.PayoutDesk, dedup: DedupTable)
      requires desk.Valid() && desk.log == [] && dedup.Own(StripeConnect) == {}
      ensures Valid() && this.desk == desk && this.dedup == dedup && turns == []
    {
      this.desk, this.dedup, turns := desk, dedup, [];
    }

    /** Check this endpoint's row, handle, then record; any failure on the way leaves no row. */
    method Webhook(e: Id, n: ConnectNotice, misses: bool, fails: bool, lost: bool) returns (reply: Reply)
      requires Valid() && Truthful(desk.World(), n)
      modifies `turns, desk, dedup
      ensures Valid()
      ensures var d := Delivery(Dedup(e, StripeConnect), n, misses, fails, lost);
              && reply == ReplyTo(old(dedup.rows), d)
              && dedup.rows == RowsAfter(old(dedup.rows), d)
              && desk.World() == (if reply == HandledNow then Handle(old(desk.World()), n) else old(desk.World()))
              && turns == old(turns) + [Arrive(d)]
      ensures reply == Seen ==> Dedup(e, StripeConnect) in old(dedup.rows)
      ensures reply == HandlerFailed ==> dedup.rows == old(dedup.rows)
      ensures reply == HandledNow ==> Tells(old(desk.World()), desk.World(), n)
      ensures dedup.Own(AdvertiserPortal) == old(dedup.Own(AdvertiserPortal))
    {
      var key := Dedup(e, StripeConnect);
      ghost var d := Delivery(key, n, misses, fails, lost);
      DeliveryLeads(Handle, Happens, desk.start, turns, d, dedup.rows);
      OwnRowsDecide(dedup.rows, d);
      turns := turns + [Arrive(d)];
      var seen := dedup.Check(key, misses);
      if seen {
        return Seen;
      }
      if fails {
        return HandlerFailed;
      }
      HandleNotice(n);
      dedup.Record(key, lost);
      return HandledNow;
    }

    method HandleNotice(n: ConnectNotice)
      requires desk.Valid() && Truthful(desk.World(), n)
      modifies desk
      ensures desk.Valid() && desk.World() == Handle(old(desk.World()), n)
      ensures Tells(old(desk.World()), desk.World(), n)
    {
      match n {
        case AccountIs(a, account) => desk.OnAccountUpdated(a, account);
        case TransferIs(t, cents) =>
          desk.HasInv();
          ReversalTells(desk.World(), t, cents);
          desk.OnTransferReversed(t, cents);
        case NothingHere =>
      }
    }

    /** A payout batch, cut short anywhere; id names the events delivered in the middle of it. */
    method Batch(min: nat, dryRun: bool, ghost id: nat -> Id)
      requires Valid() && min >= 1
      modifies `turns, desk
      ensures Valid() && old(turns) <= turns
    {
      ghost var es := desk.log;
      desk.Batch(min, dryRun, false);
      RecordLeads(desk.start, turns, es, desk.log, desk.World(), id);
      turns := turns + TurnsOf(desk.log[|es|..], id);
    }

    /** An onboarding request, cut short anywhere. */
    method Onboard(p: Id, wantsOther: bool, country: Option<bool>, ghost id: nat -> Id)
      requires Valid() && p < |desk.publishers|
      modifies `turns, desk
      ensures Valid() && old(turns) <= turns
    {
      ghost var es := desk.log;
      var reply := desk.Onboard(p, wantsOther, country, false);
      RecordLeads(desk.start, turns, es, desk.log, desk.World(), id);
      turns := turns + TurnsOf(desk.log[|es|..], id);
    }

    /** The desk's own tables are those of handling each event once exactly when no stale delivery was handled again. */
    lemma OnceUnlessStale()
      requires Valid()
      ensures AlwaysOnce(Handle, Happens, desk.start, turns) <==> NoStaleRepeat(desk.start, turns)
      ensures At(desk.start, turns).state == desk.World()
    {
      ConnectOnceExactly(desk.start, turns);
    }

    /** What the desk's payout row books as reversed is the largest cumulative amount handled after its confirm. */
    lemma ReversedAsHandled(po: Id, t: Id)
      requires Valid() && po < |desk.payouts| && desk.payouts[po].transfer == Some(t)
      ensures var max, row := MaxAfterConfirm(desk.start, turns, t), desk.payouts[po];
              row.reversed == if max < row.micros then max else row.micros
    {
      desk.HasInv();
      ReversalsConverge(desk.start, turns, t);
      CarrierIs(desk.World(), po, t);
    }
  }

  /** Both endpoints; delivering to one leaves the other in order and untouched. */
  class Endpoints {
    const portal: Deposits.Portal
    const connect: ConnectWebhook

    ghost predicate Valid()
      reads this, portal, connect, connect.desk, portal.dedup, connect.dedup
    {
      portal.dedup == connect.dedup && portal.Valid() && connect.Valid()
    }

    constructor (desk: PayoutRun.PayoutDesk)
      requires desk.Valid() && desk.log == []
      ensures Valid()
    {
      var dedup := new DedupTable();
      var p := new Deposits.Portal(dedup);
      var c := new ConnectWebhook(desk, dedup);
      portal, connect := p, c;
    }

    method DeliverToPortal(e: Id, misses: bool, fails: bool, lost: bool) returns (reply: Reply)
      requires Valid() && e < |portal.events|
      modifies portal, portal.dedup
      ensures Valid() && connect.dedup.Own(StripeConnect) == old(connect.dedup.Own(StripeConnect))
      ensures reply == Seen ==> Dedup(e, AdvertiserPortal) in old(portal.dedup.Own(AdvertiserPortal))
    {
      reply := portal.Webhook(e, misses, fails, lost);
    }

    method DeliverToConnect(e: Id, n: ConnectNotice, misses: bool, fails: bool, lost: bool) returns (reply: Reply)
      requires Valid() && Truthful(connect.desk.World(), n)
      modifies connect, connect.desk, connect.dedup
      ensures Valid() && portal.dedup.Own(AdvertiserPortal) == old(portal.dedup.Own(AdvertiserPortal))
      ensures portal.accounts == old(portal.accounts)
      ensures reply == Seen ==> Dedup(e, StripeConnect) in old(connect.dedup.Own(StripeConnect))
    {
      reply := connect.Webhook(e, n, misses, fails, lost);
    }
  }
}
