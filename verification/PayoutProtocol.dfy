/**
 The payout protocol of the stripe-connect function as a transition system: publishers and their
 connected accounts, payouts and the ledger legs they book, and the transfers Stripe made.
 */
module PayoutProtocol {
  import opened Basics

  datatype Eligibility = NotOnboarded | AwaitingDetails | Verified | IneligibleCountry

  /** A connected account at Stripe. Details once submitted stay submitted. */
  datatype Account = Account(submitted: bool, enabled: bool, supported: bool, deleted: bool)

  /** earned is the publisher's matured, cleared and not reversed earnings. */
  datatype Publisher = Publisher(
    account: Option<Id>,
    eligibility: Eligibility,
    active: bool,
    closing: bool,
    held: bool,
    earned: nat)

  datatype PayoutStatus = PayoutPending | Paid | PayoutFailed

  datatype Payout = Payout(
    publisher: Id,
    micros: nat,
    status: PayoutStatus,
    createdAt: nat,
    transfer: Option<Id>,
    reversed: nat)

  /** A payout ledger group: the publisher_earnings leg and the platform_cash leg. */
  datatype Legs = Legs(payout: Id, publisher: Id, earnings: int, cash: int)

  /** reversed is Stripe's cumulative amount_reversed, in cents. */
  datatype Transfer = Transfer(payout: Id, destination: Id, cents: nat, createdAt: nat, reversed: nat)

  datatype TransferKey = TransferKey(at: nat, transfer: Id)

  datatype World = World(
    publishers: seq<Publisher>,
    accounts: seq<Account>,
    payouts: seq<Payout>,
    ledger: seq<Legs>,
    transfers: seq<Transfer>,
    keys: map<Id, TransferKey>,
    now: nat,
    blind: set<Id>,        // payouts failed without an answered look; a history variable
    overdrawn: set<Id>)    // publishers an approved review left owing; a history variable

  datatype Event =
    | Tick(seconds: nat)
    | Join
    | Earn(publisher: Id, micros: nat)
    | Approve(publisher: Id, micros: nat)
    | Administer(publisher: Id, active: bool, closing: bool, held: bool)
    | OpenAccount(supported: bool)
    | LinkAccount(publisher: Id, account: Id)
    | Submit(account: Id)
    | Enable(account: Id, enabled: bool)
    | DeleteAccount(account: Id)
    | UnlinkAccount(publisher: Id)
    | StampIneligible(publisher: Id)
    | AccountUpdated(account: Id, seen: Account)
    | Erase(publisher: Id)
    | Reserve(publisher: Id, min: nat, max: nat)
    | CreateTransfer(payout: Id, at: nat, made: bool)
    | Confirm(payout: Id, transfer: Id)
    | Fail(payout: Id)
    | FailBlind(payout: Id)
    | ReverseTransfer(transfer: Id, cents: nat)
    | TransferReversed(transfer: Id, seenCents: nat)

  // ---------------------------------------------------------------- amounts

  /** SQL's (m / 10000) * 10000, which truncates toward zero. */
  function WholeCents(micros: int): (whole: int)
    ensures micros >= 0 ==> 0 <= micros - whole < MICROS_PER_CENT && whole % MICROS_PER_CENT == 0
    ensures micros < 0 ==> whole <= 0
  {
    if micros >= 0 then micros / MICROS_PER_CENT * MICROS_PER_CENT
    else -(-micros / MICROS_PER_CENT * MICROS_PER_CENT)
  }

  /** The payout conversion, Math.round(micros / 10000). */
  function RoundToCents(micros: nat): (cents: nat)
    ensures micros % MICROS_PER_CENT == 0 ==> cents * MICROS_PER_CENT == micros
  {
    (micros + MICROS_PER_CENT / 2) / MICROS_PER_CENT
  }

  /** Sum of a publisher's payout legs: what the ledger says was paid, net of reversals. */
  function PaidOut(ledger: seq<Legs>, p: Id): int {
    if ledger == [] then 0
    else
      var last := |ledger| - 1;
      PaidOut(ledger[..last], p) + if ledger[last].publisher == p then ledger[last].earnings else 0
  }

  function Payable(w: World, p: Id): int
    requires p < |w.publishers|
  {
    w.publishers[p].earned - PaidOut(w.ledger, p)
  }

  // ---------------------------------------------------------------- reading a world

  predicate HasPending(w: World, p: Id) {
    exists po: nat | po < |w.payouts| :: w.payouts[po].publisher == p && w.payouts[po].status == PayoutPending
  }

  predicate HasTransfer(w: World, po: Id) {
    exists t: nat | t < |w.transfers| :: w.transfers[t].payout == po
  }

  /** A transfer the scan for a payout lists: at its publisher's present account, no older than the bound. */
  predicate Listed(w: World, po: Id, t: Id)
    requires po < |w.payouts| && t < |w.transfers|
  {
    var p := w.payouts[po].publisher;
    && p < |w.publishers|
    && w.publishers[p].account == Some(w.transfers[t].destination)
    && w.payouts[po].createdAt - KEY_LIFETIME <= w.transfers[t].createdAt
  }

  /** The bounded scan shows no transfer for the payout; whether one exists elsewhere it cannot say. */
  predicate ShowsNone(w: World, po: Id)
    requires po < |w.payouts|
  {
    forall t: nat | t < |w.transfers| && Listed(w, po, t) :: w.transfers[t].payout != po
  }

  predicate KeyLive(w: World, po: Id) {
    po in w.keys && w.now < w.keys[po].at + KEY_LIFETIME
  }

  function EligibilityFor(seen: Account): Eligibility {
    if !seen.supported then IneligibleCountry
    else if seen.enabled && seen.submitted then Verified
    else AwaitingDetails
  }

  /** The guards of payout_batch_reserve before it looks at amounts. */
  predicate MayReserve(w: World, p: Id) {
    && p < |w.publishers|
    && w.publishers[p].eligibility == Verified
    && w.publishers[p].account.Some?
    && w.publishers[p].active
    && !HasPending(w, p)
    && !w.publishers[p].held
  }

  /** The amount payout_batch_reserve books, when it books one; a closing publisher has a one-cent minimum. */
  function ReserveAmount(w: World, p: Id, min: nat, max: nat): Option<nat>
    requires p < |w.publishers|
  {
    var amount := WholeCents(Payable(w, p));
    var floor := if w.publishers[p].closing then MICROS_PER_CENT else min;
    if amount < floor || amount > max then None else Some(amount)
  }

  /** Pending payouts of a publisher, in micros. */
  function PendingMicros(payouts: seq<Payout>, p: Id): nat {
    if payouts == [] then 0
    else
      var last := |payouts| - 1;
      PendingMicros(payouts[..last], p)
      + if payouts[last].publisher == p && payouts[last].status == PayoutPending then payouts[last].micros else 0
  }

  // ---------------------------------------------------------------- legal events

  /**
   When the protocol, or the environment, may take an event. Onboarding requests of one publisher do
   not overlap, Stripe deletes no account whose details were submitted, an account.updated event
   shows a state the account had, and a transfer's Stripe timestamp is at most a day behind the
   database clock. A create call goes out while the payout's key is live or after a scan that showed
   nothing; Fail follows a scan that showed nothing, FailBlind follows none. Earn shrinks earnings only
   the way admin_open_clawback allows, Approve the way approve_clawback does: without asking.
   */
  predicate Legal(w: World, e: Event) {
    match e
    case Tick(_) => true
    case Join => true
    case Earn(p, micros) =>
      && p < |w.publishers|
      && (micros >= w.publishers[p].earned || (!HasPending(w, p) && micros >= PaidOut(w.ledger, p)))
    case Approve(p, micros) => p < |w.publishers| && micros <= w.publishers[p].earned
    case Administer(p, _, _, _) => p < |w.publishers|
    case OpenAccount(_) => true
    case LinkAccount(p, a) => p < |w.publishers| && a < |w.accounts| && w.publishers[p].account.None?
    case Submit(a) => a < |w.accounts| && !w.accounts[a].deleted
    case Enable(a, _) => a < |w.accounts| && !w.accounts[a].deleted
    case DeleteAccount(a) => a < |w.accounts| && !w.accounts[a].submitted && !w.accounts[a].enabled
    case UnlinkAccount(p) =>
      && p < |w.publishers|
      && w.publishers[p].account.Some?
      && w.publishers[p].account.value < |w.accounts|
      && w.accounts[w.publishers[p].account.value].deleted
    case StampIneligible(p) => p < |w.publishers| && w.publishers[p].account.None?
    case AccountUpdated(a, seen) => a < |w.accounts| && (seen.submitted ==> w.accounts[a].submitted)
    case Erase(p) => p < |w.publishers| && !HasPending(w, p) && Payable(w, p) < MICROS_PER_CENT
    case Reserve(p, min, _) => p < |w.publishers| && min >= 1
    case CreateTransfer(po, at, _) =>
      && po < |w.payouts|
      && w.payouts[po].status == PayoutPending
      && w.payouts[po].publisher < |w.publishers|
      && w.publishers[w.payouts[po].publisher].account.Some?
      && w.now <= at + KEY_LIFETIME
      && (KeyLive(w, po) || ShowsNone(w, po))
    case Confirm(po, t) => po < |w.payouts| && t < |w.transfers| && w.transfers[t].payout == po
    case Fail(po) => po < |w.payouts| && w.payouts[po].status == PayoutPending && ShowsNone(w, po)
    case FailBlind(po) => po < |w.payouts| && w.payouts[po].status == PayoutPending
    case ReverseTransfer(t, cents) =>
      t < |w.transfers| && w.transfers[t].reversed <= cents <= w.transfers[t].cents
    case TransferReversed(t, seen) => t < |w.transfers| && seen <= w.transfers[t].reversed
  }

  // ---------------------------------------------------------------- effects

  function ReservePayout(w: World, p: Id, min: nat, max: nat): World
    requires p < |w.publishers|
  {
    if !MayReserve(w, p) || ReserveAmount(w, p, min, max).None? then w
    else w.(payouts := w.payouts + [Payout(p, ReserveAmount(w, p, min, max).value, PayoutPending, w.now, None, 0)])
  }

  function MakeTransfer(w: World, po: Id, at: nat): World
    requires po < |w.payouts| && w.payouts[po].publisher < |w.publishers|
    requires w.publishers[w.payouts[po].publisher].account.Some?
  {
    var acct := w.publishers[w.payouts[po].publisher].account.value;
    w.(transfers := w.transfers + [Transfer(po, acct, RoundToCents(w.payouts[po].micros), at, 0)],
       keys := w.keys[po := TransferKey(w.now, |w.transfers|)])
  }

  function ConfirmPayout(w: World, po: Id, t: Id): World
    requires po < |w.payouts|
  {
    var row := w.payouts[po];
    if row.status != PayoutPending then w
    else w.(payouts := w.payouts[po := row.(status := Paid, transfer := Some(t))],
            ledger := w.ledger + [Legs(po, row.publisher, row.micros, 0 - row.micros)])
  }

  /** Reverse earnings whatever was paid or promised of them. */
  function ApproveReview(w: World, p: Id, micros: nat): World
    requires p < |w.publishers| && micros <= w.publishers[p].earned
  {
    var earned := w.publishers[p].earned - micros;
    w.(publishers := w.publishers[p := w.publishers[p].(earned := earned)],
       overdrawn := if PaidOut(w.ledger, p) + PendingMicros(w.payouts, p) <= earned then w.overdrawn
                    else w.overdrawn + {p})
  }

  function FailPayout(w: World, po: Id): World
    requires po < |w.payouts|
  {
    if w.payouts[po].status != PayoutPending then w
    else w.(payouts := w.payouts[po := w.payouts[po].(status := PayoutFailed)])
  }

  /** payout_reverse: book the part of a cumulative reversal not booked yet; a full one fails the payout. */
  function ReversePayout(w: World, po: Id, cumulative: nat): World
    requires po < |w.payouts|
  {
    var row := w.payouts[po];
    var target := if cumulative < row.micros then cumulative else row.micros;
    if row.status != Paid || target <= row.reversed then w
    else
      var delta := target - row.reversed;
      var status := if target >= row.micros then PayoutFailed else Paid;
      w.(payouts := w.payouts[po := row.(reversed := target, status := status)],
         ledger := w.ledger + [Legs(po, row.publisher, -delta, delta)])
  }

  /** The first payout recorded with a transfer id. */
  function PayoutOfTransfer(payouts: seq<Payout>, t: Id): (po: Option<Id>)
    ensures po.Some? ==> po.value < |payouts| && payouts[po.value].transfer == Some(t)
    ensures po.None? ==> forall i: nat | i < |payouts| :: payouts[i].transfer != Some(t)
  {
    if payouts == [] then None
    else
      var last := |payouts| - 1;
      var earlier := PayoutOfTransfer(payouts[..last], t);
      if earlier.Some? then earlier
      else if payouts[last].transfer == Some(t) then Some(last) else None
  }

  function SetEligibility(w: World, a: Id, status: Eligibility): World {
    w.(publishers := seq(|w.publishers|, p requires 0 <= p < |w.publishers| =>
      if w.publishers[p].account == Some(a)
      then w.publishers[p].(eligibility := if status == Verified && w.publishers[p].held then AwaitingDetails else status)
      else w.publishers[p]))
  }

  function Next(w: World, e: Event): World
    requires Legal(w, e)
  {
    match e
    case Tick(k) => w.(now := w.now + k)
    case Join => w.(publishers := w.publishers + [Publisher(None, NotOnboarded, true, false, false, 0)])
    case Earn(p, micros) => w.(publishers := w.publishers[p := w.publishers[p].(earned := micros)])
    case Approve(p, micros) => ApproveReview(w, p, micros)
    case Administer(p, active, closing, held) =>
      w.(publishers := w.publishers[p := w.publishers[p].(active := active, closing := closing, held := held)])
    case OpenAccount(supported) => w.(accounts := w.accounts + [Account(false, false, supported, false)])
    case LinkAccount(p, a) =>
      w.(publishers := w.publishers[p := w.publishers[p].(account := Some(a), eligibility := AwaitingDetails)])
    case Submit(a) => w.(accounts := w.accounts[a := w.accounts[a].(submitted := true)])
    case Enable(a, enabled) => w.(accounts := w.accounts[a := w.accounts[a].(enabled := enabled)])
    case DeleteAccount(a) => w.(accounts := w.accounts[a := w.accounts[a].(deleted := true)])
    case UnlinkAccount(p) =>
      w.(publishers := w.publishers[p := w.publishers[p].(account := None, eligibility := NotOnboarded)])
    case StampIneligible(p) =>
      w.(publishers := w.publishers[p := w.publishers[p].(eligibility := IneligibleCountry)])
    case AccountUpdated(a, seen) => SetEligibility(w, a, EligibilityFor(seen))
    case Erase(p) =>
      w.(publishers := w.publishers[p := w.publishers[p].(account := None, eligibility := NotOnboarded, active := false)])
    case Reserve(p, min, max) => ReservePayout(w, p, min, max)
    case CreateTransfer(po, at, made) => if KeyLive(w, po) || !made then w else MakeTransfer(w, po, at)
    case Confirm(po, t) => ConfirmPayout(w, po, t)
    case Fail(po) => FailPayout(w, po)
    case FailBlind(po) => FailPayout(w, po).(blind := w.blind + {po})
    case ReverseTransfer(t, cents) => w.(transfers := w.transfers[t := w.transfers[t].(reversed := cents)])
    case TransferReversed(t, seen) =>
      var po := PayoutOfTransfer(w.payouts, t);
      if po.None? then w else ReversePayout(w, po.value, seen * MICROS_PER_CENT)
  }

  // ---------------------------------------------------------------- the invariant

  /** Verified, and every pending payout, means a connected account with submitted details that still exists. */
  predicate Onboarded(w: World, p: Id) {
    && p < |w.publishers|
    && w.publishers[p].account.Some?
    && w.publishers[p].account.value < |w.accounts|
    && w.accounts[w.publishers[p].account.value].submitted
    && !w.accounts[w.publishers[p].account.value].deleted
  }

  ghost predicate PublishersOk(w: World) {
    forall p: Id | p < |w.publishers| ::
      && (w.publishers[p].account.Some? ==> w.publishers[p].account.value < |w.accounts|)
      && (w.publishers[p].eligibility == Verified ==> Onboarded(w, p))
  }

  ghost predicate AccountsOk(w: World) {
    forall a: Id | a < |w.accounts| :: w.accounts[a].submitted ==> !w.accounts[a].deleted
  }

  ghost predicate PayoutsOk(w: World) {
    forall po: Id | po < |w.payouts| ::
      var row := w.payouts[po];
      && row.publisher < |w.publishers|
      && row.micros >= MICROS_PER_CENT
      && row.micros % MICROS_PER_CENT == 0
      && row.createdAt <= w.now
      && row.reversed <= row.micros
      && (row.status == PayoutPending ==> row.transfer.None? && Onboarded(w, row.publisher))
      && (row.status == Paid ==> row.transfer.Some? && row.reversed < row.micros)
      && (row.status == PayoutFailed && row.transfer.Some? ==> row.reversed == row.micros)
      && (row.transfer.None? ==> row.reversed == 0)
      && (row.transfer.Some? ==> row.transfer.value < |w.transfers| && w.transfers[row.transfer.value].payout == po)
  }

  ghost predicate OnePending(w: World) {
    forall i: Id, j: Id | i < j < |w.payouts| && w.payouts[i].status == PayoutPending && w.payouts[j].status == PayoutPending ::
      w.payouts[i].publisher != w.payouts[j].publisher
  }

  /** A transfer carries its payout's amount, sits inside the scan bound, and goes where the payout's publisher still is. */
  ghost predicate TransfersOk(w: World) {
    forall t: Id | t < |w.transfers| ::
      var tr := w.transfers[t];
      && tr.payout < |w.payouts|
      && tr.cents * MICROS_PER_CENT == w.payouts[tr.payout].micros
      && tr.reversed <= tr.cents
      && w.payouts[tr.payout].createdAt <= tr.createdAt + KEY_LIFETIME
      && (w.payouts[tr.payout].status == PayoutPending ==>
            w.payouts[tr.payout].publisher < |w.publishers|
            && w.publishers[w.payouts[tr.payout].publisher].account == Some(tr.destination))
      && (w.payouts[tr.payout].status == PayoutFailed ==> w.payouts[tr.payout].transfer.Some? || tr.payout in w.blind)
  }

  ghost predicate OneTransfer(w: World) {
    forall t: Id, u: Id | t < u < |w.transfers| :: w.transfers[t].payout != w.transfers[u].payout
  }

  ghost predicate KeysOk(w: World) {
    forall po <- w.keys ::
      && w.keys[po].transfer < |w.transfers|
      && w.transfers[w.keys[po].transfer].payout == po
      && w.keys[po].at <= w.now
  }

  /** What the ledger says was paid on one payout. */
  function Booked(row: Payout): int {
    if row.transfer.Some? then row.micros - row.reversed else 0
  }

  /** What the payouts table says was paid to a publisher. */
  function BookedTo(payouts: seq<Payout>, p: Id): int {
    if payouts == [] then 0
    else
      var last := |payouts| - 1;
      BookedTo(payouts[..last], p) + if payouts[last].publisher == p then Booked(payouts[last]) else 0
  }

  /** Every ledger group sums to zero, and a publisher's legs agree with the payouts table. */
  ghost predicate LedgerOk(w: World) {
    && (forall k: nat | k < |w.ledger| :: w.ledger[k].earnings + w.ledger[k].cash == 0)
    && forall p: Id :: PaidOut(w.ledger, p) == BookedTo(w.payouts, p)
  }

  /** Paid and promised never exceeds earned, but for publishers overdrawn by an approved review. */
  ghost predicate Solvent(w: World) {
    forall p: Id | p < |w.publishers| && p !in w.overdrawn :: PaidOut(w.ledger, p) + PendingMicros(w.payouts, p) <= w.publishers[p].earned
  }

  ghost predicate Inv(w: World) {
    && PublishersOk(w) && AccountsOk(w) && PayoutsOk(w) && OnePending(w)
    && TransfersOk(w) && OneTransfer(w) && KeysOk(w) && LedgerOk(w) && Solvent(w)
  }

  ghost predicate Initial(w: World) {
    && w.payouts == [] && w.ledger == [] && w.transfers == [] && w.keys == map[]
    && w.blind == {} && w.overdrawn == {}
    && PublishersOk(w) && AccountsOk(w)
  }

  ghost predicate Reaches(w0: World, es: seq<Event>, w: World) {
    if es == [] then w == w0
    else
      var last := |es| - 1;
      exists mid: World :: Reaches(w0, es[..last], mid) && Legal(mid, es[last]) && w == Next(mid, es[last])
  }
}
