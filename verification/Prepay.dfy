/**
 One advertiser's prepay account: deposits, serve-time holds, draw-downs, reversals, clawbacks and
 adjustments, and the ledger groups they book. Advertisers do not share any of this.
 */
module Prepay {
  import opened Basics

  datatype WindowState = Unclosed | Credited | Abandoned

  /**
   A serve window. held: a hold was taken when it opened; reserve: what is held now; drawn: its charge
   was settled by a draw-down; clawed: its impression was clawed back.
   */
  datatype Window = Window(
    dwellMs: nat,
    price: nat,
    filled: bool,
    held: bool,
    reserve: nat,
    state: WindowState,
    gross: nat,
    drawn: bool,
    clawed: bool)

  datatype Source = DepositOf(pi: Id) | RefundOf(pi: Id) | DisputeOf(dispute: Id) | DrawOf(batch: Id) | ClawbackOf(window: Id) | Adjustment

  /** A posted ledger group: what caused it, and its legs by account. */
  datatype Posting = Posting(source: Source, funds: int, cash: int, billing: int, badDebt: int)

  datatype Account = Account(
    balance: nat,
    reserved: nat,
    windows: seq<Window>,
    ledger: seq<Posting>,
    deposits: map<Id, nat>,     // by PaymentIntent
    draws: map<Id, nat>,        // by charge batch
    disputes: map<Id, nat>,     // by dispute
    refunded: map<Id, nat>,     // booked so far, by PaymentIntent
    underflows: nat,            // reserved_underflow alarms
    shortfalls: nat,            // insufficient_balance alarms
    seeded: bool)               // a balance row was made before anything was posted

  datatype Event =
    | SeedRow
    | Deposit(pi: Id, micros: nat)
    | OpenWindow(dwellMs: nat, price: nat)
    | OpenOnPostpay(dwellMs: nat, price: nat)
    | Abandon(window: Id)
    | Close(window: Id, elapsedMs: real)
    | Draw(batch: Id, members: set<Id>)
    | Dispute(dispute: Id, micros: nat)
    | RefundDeposit(pi: Id, cumulative: nat)
    | PrepayClawback(window: Id)
    | PlainClawback(window: Id)
    | Adjust(delta: int)
    | ReconcileReserved

  // ---------------------------------------------------------------- attention and price

  function CeilSeconds(ms: nat): nat {
    (ms + 999) / 1000
  }

  /** The attention a closed window is paid for: elapsed or dwell, whichever is less, rounded to seconds. */
  function AttentionSeconds(elapsedMs: real, dwellMs: nat): (seconds: nat)
    requires elapsedMs >= 0.0
    ensures seconds <= CeilSeconds(dwellMs)
  {
    var ms := if elapsedMs < dwellMs as real then elapsedMs else dwellMs as real;
    RoundedBelowCeil(ms, dwellMs);
    (ms / 1000.0 + 0.5).Floor
  }

  /** Of the attention there was, the nearest whole second is billed; half a second rounds up. */
  lemma AttentionIsNearest(elapsedMs: real, dwellMs: nat)
    requires elapsedMs >= 0.0
    ensures var ms, s := if elapsedMs < dwellMs as real then elapsedMs else dwellMs as real, AttentionSeconds(elapsedMs, dwellMs);
            NearestSecond(ms, s)
  {
    var ms := if elapsedMs < dwellMs as real then elapsedMs else dwellMs as real;
    var x := ms / 1000.0 + 0.5;
    assert x.Floor as real <= x < x.Floor as real + 1.0;
  }

  /** The hold is for the dwell in whole seconds, rounded up, at the price of a second. */
  lemma EstimateIsCeiling(dwellMs: nat, price: nat)
    ensures var s := CeilSeconds(dwellMs);
            && Estimate(dwellMs, price) == s * price
            && dwellMs <= 1000 * s < dwellMs + 1000
  {
    BillIsProduct(CeilSeconds(dwellMs), price);
  }

  lemma RoundedBelowCeil(ms: real, dwellMs: nat)
    requires 0.0 <= ms <= dwellMs as real
    ensures 0 <= (ms / 1000.0 + 0.5).Floor <= CeilSeconds(dwellMs)
  {
    var c := CeilSeconds(dwellMs);
    assert dwellMs <= 1000 * c;
    assert ms / 1000.0 <= c as real;
    assert ms / 1000.0 + 0.5 < (c + 1) as real;
  }

  /** A price per attention-second, over a number of seconds. */
  function Bill(seconds: nat, price: nat): nat {
    if seconds == 0 then 0 else Bill(seconds - 1, price) + price
  }

  lemma {:induction false} BillIsProduct(seconds: nat, price: nat)
    ensures Bill(seconds, price) == seconds * price
  {
    if seconds > 0 {
      BillIsProduct(seconds - 1, price);
    }
  }

  function Estimate(dwellMs: nat, price: nat): nat {
    Bill(CeilSeconds(dwellMs), price)
  }

  lemma {:induction false} BillGrows(fewer: nat, more: nat, price: nat)
    requires fewer <= more
    ensures Bill(fewer, price) <= Bill(more, price)
  {
    if fewer < more {
      BillGrows(fewer, more - 1, price);
    }
  }

  /** What a window bills never exceeds what was held for it. */
  lemma GrossWithinEstimate(elapsedMs: real, dwellMs: nat, price: nat)
    requires elapsedMs >= 0.0
    ensures Bill(AttentionSeconds(elapsedMs, dwellMs), price) <= Estimate(dwellMs, price)
  {
    BillGrows(AttentionSeconds(elapsedMs, dwellMs), CeilSeconds(dwellMs), price);
  }

  // ---------------------------------------------------------------- sums

  function Funds(ledger: seq<Posting>): int {
    if ledger == [] then 0 else Funds(ledger[..|ledger| - 1]) + ledger[|ledger| - 1].funds
  }

  function GrossIn(windows: seq<Window>, s: set<Id>): nat {
    if windows == [] then 0
    else
      var last := |windows| - 1;
      GrossIn(windows[..last], s) + if last in s then windows[last].gross else 0
  }

  /** advertiser_expected_reserved: holds of windows that were not clawed back. */
  function ExpectedReserved(windows: seq<Window>): nat {
    if windows == [] then 0
    else
      var last := windows[|windows| - 1];
      ExpectedReserved(windows[..|windows| - 1]) + if last.clawed then 0 else last.reserve
  }

  // ---------------------------------------------------------------- legal events

  /** Windows are closed or swept while open; a draw takes credited windows no earlier draw took. */
  predicate Legal(a: Account, e: Event) {
    match e
    case SeedRow => true
    case Deposit(_, micros) => micros > 0
    case OpenWindow(_, _) => true
    case OpenOnPostpay(_, _) => true
    case Abandon(w) => w < |a.windows|
    case Close(w, elapsed) => w < |a.windows| && elapsed >= 0.0
    case Draw(_, members) =>
      forall m <- members :: m < |a.windows| && a.windows[m].state == Credited && !a.windows[m].drawn
    case Dispute(_, micros) => micros > 0
    case RefundDeposit(_, _) => true
    case PrepayClawback(w) => w < |a.windows|
    case PlainClawback(w) => w < |a.windows|
    case Adjust(delta) => delta != 0
    case ReconcileReserved => true
  }

  // ---------------------------------------------------------------- effects

  /** The advertiser has a balance row: it was seeded, or made by the first posting. */
  predicate HasRow(a: Account) {
    a.seeded || a.ledger != []
  }

  function Release(a: Account, micros: int): Account {
    if micros <= 0 then a
    else a.(reserved := if a.reserved >= micros then a.reserved - micros else 0)
  }

  function Post(a: Account, p: Posting): Account {
    a.(ledger := a.ledger + [p])
  }

  function DepositPosting(pi: Id, micros: int): Posting {
    Posting(DepositOf(pi), -micros, micros, 0, 0)
  }

  function Credit(a: Account, pi: Id, micros: nat): Account {
    a.(balance := a.balance + micros,
       deposits := a.deposits[pi := micros],
       ledger := a.ledger + [DepositPosting(pi, micros)])
  }

  /** Unwind at most the balance, write off the rest: cash -R, funds +reclaim, bad debt +the gap. */
  function Reverse(a: Account, source: Source, micros: nat): Account {
    var reclaim := if micros < a.balance then micros else a.balance;
    Post(a.(balance := a.balance - reclaim), Posting(source, reclaim, 0 - micros, 0, micros - reclaim))
  }

  /** Book what a cumulative refund adds to what was booked on the deposit before. */
  function RefundUpTo(a: Account, pi: Id, cumulative: nat): Account {
    var already := if pi in a.refunded then a.refunded[pi] else 0;
    if cumulative <= already then (if HasRow(a) then a else a.(seeded := true))
    else Reverse(a.(refunded := a.refunded[pi := cumulative]), RefundOf(pi), cumulative - already)
  }

  function MarkDrawn(windows: seq<Window>, s: set<Id>): (marked: seq<Window>)
    ensures |marked| == |windows|
    ensures forall i | 0 <= i < |windows| ::
              marked[i] == if i in s then windows[i].(reserve := 0, drawn := true) else windows[i]
  {
    seq(|windows|, i requires 0 <= i < |windows| =>
      if i in s then windows[i].(reserve := 0, drawn := true) else windows[i])
  }

  function Open(a: Account, hold: nat, x: Window): Account {
    a.(reserved := a.reserved + hold, windows := a.windows + [x])
  }

  /** Serve when the available balance covers the estimate, hold it, and otherwise serve nothing. */
  function OpenFor(a: Account, dwellMs: nat, price: nat, estimate: nat): Account {
    if estimate == 0 then Open(a, 0, Window(dwellMs, price, true, false, 0, Unclosed, 0, false, false))
    else if a.balance - a.reserved >= estimate then
      Open(a, estimate, Window(dwellMs, price, true, true, estimate, Unclosed, 0, false, false))
    else Open(a, 0, Window(dwellMs, 0, false, false, 0, Unclosed, 0, false, false))
  }

  /** The reserved_underflow alarm: reserve accounting drifted low. */
  function UnderflowAlarm(a: Account, sum: nat): Account {
    if a.reserved < sum then a.(underflows := a.underflows + 1) else a
  }

  function ShortfallAlarm(a: Account): Account {
    a.(shortfalls := a.shortfalls + 1)
  }

  function DrawDown(a: Account, b: Id, members: set<Id>): Account {
    var sum := GrossIn(a.windows, members);
    if sum == 0 then a
    else if !HasRow(a) then ShortfallAlarm(a)
    else if b in a.draws then a
    else if a.balance < sum then ShortfallAlarm(UnderflowAlarm(a, sum))
    else Draws(UnderflowAlarm(a, sum), b, members, sum)
  }

  function DrawPosting(b: Id, sum: int): Posting {
    Posting(DrawOf(b), sum, 0, -sum, 0)
  }

  function Draws(a: Account, b: Id, members: set<Id>, sum: nat): Account
    requires sum <= a.balance
  {
    a.(balance := a.balance - sum,
       reserved := if a.reserved >= sum then a.reserved - sum else 0,
       windows := MarkDrawn(a.windows, members),
       draws := a.draws[b := sum],
       ledger := a.ledger + [DrawPosting(b, sum)])
  }

  /** Give a window's hold back and set it to what it keeps. */
  function TrueUp(a: Account, w: Id, keep: nat, x: Window): Account
    requires w < |a.windows|
  {
    Release(a, a.windows[w].reserve - keep).(windows := a.windows[w := x.(reserve := keep)])
  }

  function CloseWindow(a: Account, w: Id, elapsedMs: real): Account
    requires w < |a.windows| && elapsedMs >= 0.0
  {
    var x := a.windows[w];
    if x.state != Unclosed then a
    else if !x.filled then TrueUp(a, w, 0, x.(state := Abandoned))
    else
      var gross := Bill(AttentionSeconds(elapsedMs, x.dwellMs), x.price);
      TrueUp(a, w, if x.reserve > 0 then gross else 0, x.(state := Credited, gross := gross))
  }

  function Clawback(a: Account, w: Id): Account
    requires w < |a.windows|
  {
    var x := a.windows[w];
    if x.state != Credited || x.clawed || x.gross == 0 then a
    else
      var a1 := TrueUp(a, w, 0, x.(clawed := true));
      if !x.drawn then a1
      else Post(a1.(balance := a1.balance + x.gross), Posting(ClawbackOf(w), 0 - x.gross, 0, x.gross, 0))
  }

  function Next(a: Account, e: Event): Account
    requires Legal(a, e)
  {
    match e
    case SeedRow => if HasRow(a) then a else a.(seeded := true)
    case Deposit(pi, micros) =>
      if pi in a.deposits then a else Credit(a, pi, micros)
    case OpenWindow(dwell, price) => OpenFor(a, dwell, price, Estimate(dwell, price))
    case OpenOnPostpay(dwell, price) => Open(a, 0, Window(dwell, price, true, false, 0, Unclosed, 0, false, false))
    case Abandon(w) =>
      if a.windows[w].state != Unclosed then a else TrueUp(a, w, 0, a.windows[w].(state := Abandoned))
    case Close(w, elapsed) => CloseWindow(a, w, elapsed)
    case Draw(b, members) => DrawDown(a, b, members)
    case Dispute(d, micros) =>
      if d in a.disputes then a else Reverse(a.(disputes := a.disputes[d := micros]), DisputeOf(d), micros)
    case RefundDeposit(pi, cumulative) => RefundUpTo(a, pi, cumulative)
    case PrepayClawback(w) => Clawback(a, w)
    case PlainClawback(w) =>
      if a.windows[w].state != Credited then a else a.(windows := a.windows[w := a.windows[w].(clawed := true)])
    case Adjust(delta) =>
      if delta > 0 then Post(a.(balance := a.balance + delta), Posting(Adjustment, -delta, delta, 0, 0))
      else if -delta > a.balance - a.reserved then a
      else Post(a.(balance := a.balance + delta), Posting(Adjustment, -delta, delta, 0, 0))
    case ReconcileReserved => if !HasRow(a) then a else a.(reserved := ExpectedReserved(a.windows))
  }

  const OPENING := Account(0, 0, [], [], map[], map[], map[], map[], 0, 0, false)

  ghost predicate Reaches(es: seq<Event>, a: Account) {
    if es == [] then a == OPENING
    else
      var last := |es| - 1;
      exists mid: Account :: Reaches(es[..last], mid) && Legal(mid, es[last]) && a == Next(mid, es[last])
  }

  // ---------------------------------------------------------------- what opening and closing a window mean

  /** So many milliseconds come to so many whole seconds, the nearest; half a second rounds up. */
  predicate NearestSecond(ms: real, s: nat) {
    (1000 * s) as real - 500.0 <= ms < (1000 * s) as real + 500.0
  }

  /**
   Closing an open window credits the advertiser's price for every second of attention, or abandons it when
   nothing was served; a hold is trued up to that. Closing it again changes nothing.
   */
  lemma CloseBillsAttention(a: Account, w: Id, elapsedMs: real)
    requires w < |a.windows| && elapsedMs >= 0.0
    ensures var x, a' := a.windows[w], CloseWindow(a, w, elapsedMs);
            && |a'.windows| == |a.windows|
            && var y := a'.windows[w];
               if x.state != Unclosed then a' == a
               else if !x.filled then y == x.(state := Abandoned, reserve := 0)
               else
                 && y.state == Credited
                 && (exists s: nat ::
                       && NearestSecond(if elapsedMs < x.dwellMs as real then elapsedMs else x.dwellMs as real, s)
                       && y.gross == s * x.price)
                 && y.reserve == if x.reserve > 0 then y.gross else 0
  {
    var x := a.windows[w];
    if x.state == Unclosed && x.filled {
      var s := AttentionSeconds(elapsedMs, x.dwellMs);
      AttentionIsNearest(elapsedMs, x.dwellMs);
      BillIsProduct(s, x.price);
      assert NearestSecond(if elapsedMs < x.dwellMs as real then elapsedMs else x.dwellMs as real, s);
      assert CloseWindow(a, w, elapsedMs).windows[w].gross == s * x.price;
    }
  }

  /**
   A window is served when what is not yet held of the balance covers its whole seconds, rounded up, at
   its price, and that is then held; otherwise it is served empty and nothing is held.
   */
  lemma OpenHoldsEstimate(a: Account, dwellMs: nat, price: nat)
    ensures var a', n, estimate := Next(a, OpenWindow(dwellMs, price)), |a.windows|, Estimate(dwellMs, price);
            && |a'.windows| == n + 1 && a'.windows[..n] == a.windows
            && (a'.windows[n].filled <==> a.balance - a.reserved >= estimate || estimate == 0)
            && a'.windows[n].reserve == (if a.balance - a.reserved >= estimate then estimate else 0)
            && a'.reserved == a.reserved + a'.windows[n].reserve
            && a'.windows[n].state == Unclosed && a'.windows[n].gross == 0
            && exists s: nat :: estimate == s * price && dwellMs <= 1000 * s < dwellMs + 1000
  {
    EstimateIsCeiling(dwellMs, price);
    assert Estimate(dwellMs, price) == CeilSeconds(dwellMs) * price && dwellMs <= 1000 * CeilSeconds(dwellMs) < dwellMs + 1000;
  }

  /**
   An administrator's credit is booked as it is; a debit goes through exactly when what is not held covers it.
   Either moves the balance and the cash by the same amount, and no hold.
   */
  lemma AdjustExactly(a: Account, delta: int)
    requires delta != 0
    ensures var a' := Next(a, Adjust(delta));
            if delta > 0 || a.reserved - delta <= a.balance
            then
              && a'.balance == a.balance + delta && a'.reserved == a.reserved && a'.windows == a.windows
              && |a'.ledger| == |a.ledger| + 1 && a'.ledger[|a.ledger|].cash == delta && a'.ledger[|a.ledger|].funds == -delta
            else a' == a
  {
  }

  // ---------------------------------------------------------------- what every run keeps

  ghost predicate ZeroSum(ledger: seq<Posting>) {
    forall k: nat | k < |ledger| :: ledger[k].funds + ledger[k].cash + ledger[k].billing + ledger[k].badDebt == 0
  }

  /** What a window may hold: its estimate while open, its gross once credited, nothing otherwise. */
  predicate WindowOk(x: Window) {
    && (x.reserve > 0 ==> x.held)
    && (x.state == Unclosed && x.held ==> x.reserve == Estimate(x.dwellMs, x.price))
    && (x.state == Unclosed ==> !x.drawn && !x.clawed)
    && (x.state == Abandoned ==> x.reserve == 0)
    && (x.state == Credited && x.held && !x.drawn && !x.clawed ==> x.reserve == x.gross)
    && (x.state == Credited && x.held ==> x.reserve <= x.gross)
    && (x.drawn ==> x.reserve == 0)
  }

  ghost predicate Inv(a: Account) {
    && ZeroSum(a.ledger)
    && a.balance == -Funds(a.ledger)
    && WindowsOk(a)
    && HoldsHaveRow(a)
  }

  /** Without a balance row nothing is held. */
  ghost predicate HoldsHaveRow(a: Account) {
    HasRow(a) || (a.reserved == 0 && forall w: Id | w < |a.windows| :: a.windows[w].reserve == 0)
  }

  lemma FundsAppend(ledger: seq<Posting>, p: Posting)
    ensures Funds(ledger + [p]) == Funds(ledger) + p.funds
  {
    assert (ledger + [p])[..|ledger|] == ledger;
  }

  /** A step that posts nothing and leaves the balance, or posts one balanced group the balance follows. */
  ghost predicate PostsOnce(a: Account, a': Account) {
    || (a'.ledger == a.ledger && a'.balance == a.balance)
    || (|a'.ledger| == |a.ledger| + 1
        && a'.ledger[..|a.ledger|] == a.ledger
        && var p := a'.ledger[|a.ledger|];
           a'.balance == a.balance - p.funds && p.funds + p.cash + p.billing + p.badDebt == 0)
  }

  lemma PostsOnceKeepsMoney(a: Account, a': Account)
    requires ZeroSum(a.ledger) && a.balance == -Funds(a.ledger) && PostsOnce(a, a')
    ensures ZeroSum(a'.ledger) && a'.balance == -Funds(a'.ledger)
  {
    if a'.ledger != a.ledger {
      assert a'.ledger == a.ledger + [a'.ledger[|a.ledger|]];
      FundsAppend(a.ledger, a'.ledger[|a.ledger|]);
      forall k: nat | k < |a.ledger| ensures a'.ledger[k] == a.ledger[k] {
        assert a'.ledger[..|a.ledger|][k] == a.ledger[k];
      }
    }
  }

  ghost predicate SameTables(a: Account, a': Account) {
    a'.deposits == a.deposits && a'.refunded == a.refunded && a'.disputes == a.disputes && a'.draws == a.draws
  }

  ghost predicate SameMoney(a: Account, a': Account) {
    SameTables(a, a') && a'.ledger == a.ledger && a'.balance == a.balance
  }

  ghost predicate SameAlarms(a: Account, a': Account) {
    a'.underflows == a.underflows && a'.shortfalls == a.shortfalls
  }

  /** Serving, sweeping and reconciling move holds, never money. */
  predicate IsHold(e: Event) {
    || e.SeedRow? || e.OpenWindow? || e.OpenOnPostpay? || e.Abandon? || e.Close? || e.PlainClawback?
    || e.ReconcileReserved?
  }

  lemma TrueUpKeepsMoney(a: Account, w: Id, keep: nat, x: Window)
    requires w < |a.windows|
    ensures SameMoney(a, TrueUp(a, w, keep, x)) && SameAlarms(a, TrueUp(a, w, keep, x))
  {
  }

  lemma CloseKeepsMoney(a: Account, w: Id, elapsedMs: real)
    requires w < |a.windows| && elapsedMs >= 0.0
    ensures SameMoney(a, CloseWindow(a, w, elapsedMs)) && SameAlarms(a, CloseWindow(a, w, elapsedMs))
  {
    var x := a.windows[w];
    var gross := Bill(AttentionSeconds(elapsedMs, x.dwellMs), x.price);
    TrueUpKeepsMoney(a, w, 0, x.(state := Abandoned));
    TrueUpKeepsMoney(a, w, if x.reserve > 0 then gross else 0, x.(state := Credited, gross := gross));
  }

  lemma OpenKeepsMoney(a: Account, dwellMs: nat, price: nat, estimate: nat)
    ensures SameMoney(a, OpenFor(a, dwellMs, price, estimate)) && SameAlarms(a, OpenFor(a, dwellMs, price, estimate))
  {
  }

  lemma HoldKeepsMoney(a: Account, e: Event)
    requires Legal(a, e) && IsHold(e)
    ensures SameMoney(a, Next(a, e)) && SameAlarms(a, Next(a, e))
  {
    match e
    case OpenWindow(dwell, price) => OpenKeepsMoney(a, dwell, price, Estimate(dwell, price));
    case Abandon(w) => TrueUpKeepsMoney(a, w, 0, a.windows[w].(state := Abandoned));
    case Close(w, elapsed) => CloseKeepsMoney(a, w, elapsed);
    case _ =>
  }

  lemma ReversePostsOnce(a: Account, source: Source, micros: nat)
    ensures PostsOnce(a, Reverse(a, source, micros))
  {
  }

  /** A draw-down goes through. */
  predicate Draws?(a: Account, b: Id, members: set<Id>) {
    0 < GrossIn(a.windows, members) <= a.balance && HasRow(a) && b !in a.draws
  }

  lemma DrawKeepsMoneyUnless(a: Account, b: Id, members: set<Id>)
    ensures var a', sum := DrawDown(a, b, members), GrossIn(a.windows, members);
            && a'.deposits == a.deposits && a'.refunded == a.refunded && a'.disputes == a.disputes
            && (if Draws?(a, b, members)
                then
                  && a'.ledger == a.ledger + [DrawPosting(b, sum)] && a'.balance == a.balance - sum
                  && a'.draws == a.draws[b := sum]
                else SameMoney(a, a'))
  {
    AlarmsKeepMoney(a, GrossIn(a.windows, members));
  }

  lemma DrawMarksUnless(a: Account, b: Id, members: set<Id>)
    ensures DrawDown(a, b, members).windows == if Draws?(a, b, members) then MarkDrawn(a.windows, members) else a.windows
  {
    var sum := GrossIn(a.windows, members);
    assert UnderflowAlarm(a, sum).windows == a.windows;
  }

  lemma AlarmsKeepMoney(a: Account, sum: nat)
    ensures SameMoney(a, UnderflowAlarm(a, sum)) && SameMoney(a, ShortfallAlarm(a))
    ensures SameMoney(a, ShortfallAlarm(UnderflowAlarm(a, sum)))
  {
  }

  lemma ClawbackKeepsTables(a: Account, w: Id)
    requires w < |a.windows|
    ensures var a', x := Clawback(a, w), a.windows[w];
            && SameTables(a, a') && SameAlarms(a, a')
            && (if x.state == Credited && !x.clawed && x.gross > 0 && x.drawn
                then
                  && a'.ledger == a.ledger + [Posting(ClawbackOf(w), 0 - x.gross, 0, x.gross, 0)]
                  && a'.balance == a.balance + x.gross
                else a'.ledger == a.ledger && a'.balance == a.balance)
  {
    TrueUpKeepsMoney(a, w, 0, a.windows[w].(clawed := true));
  }

  lemma CreditPostsOnce(a: Account, e: Event)
    requires Legal(a, e) && (e.Deposit? || e.Adjust?)
    ensures PostsOnce(a, Next(a, e))
  {
  }

  lemma RefundPostsOnce(a: Account, pi: Id, cumulative: nat)
    ensures PostsOnce(a, RefundUpTo(a, pi, cumulative))
  {
    var already := if pi in a.refunded then a.refunded[pi] else 0;
    if cumulative > already {
      ReversePostsOnce(a.(refunded := a.refunded[pi := cumulative]), RefundOf(pi), cumulative - already);
    }
  }

  lemma NextPostsOnce(a: Account, e: Event)
    requires Legal(a, e)
    ensures PostsOnce(a, Next(a, e))
  {
    match e
    case Draw(b, members) => DrawKeepsMoneyUnless(a, b, members);
    case Dispute(d, micros) => ReversePostsOnce(a.(disputes := a.disputes[d := micros]), DisputeOf(d), micros);
    case RefundDeposit(pi, cumulative) => RefundPostsOnce(a, pi, cumulative);
    case PrepayClawback(w) => ClawbackKeepsTables(a, w);
    case Deposit(_, _) => CreditPostsOnce(a, e);
    case Adjust(_) => CreditPostsOnce(a, e);
    case _ => HoldKeepsMoney(a, e);
  }

  lemma NextKeepsInv(a: Account, e: Event)
    requires Inv(a) && Legal(a, e)
    ensures Inv(Next(a, e))
  {
    NextPostsOnce(a, e);
    PostsOnceKeepsMoney(a, Next(a, e));
    NextKeepsWindows(a, e);
    NextKeepsRow(a, e);
  }

  /** The row stays once it is there, and without one no hold can be taken: there is nothing to cover it. */
  lemma NextKeepsRow(a: Account, e: Event)
    requires HoldsHaveRow(a) && a.balance == -Funds(a.ledger) && Legal(a, e) && PostsOnce(a, Next(a, e))
    ensures HoldsHaveRow(Next(a, e))
  {
    if HasRow(a) {
      RowStays(a, e);
    } else {
      NoHoldWithoutRow(a, e);
    }
  }

  lemma RowStays(a: Account, e: Event)
    requires Legal(a, e) && PostsOnce(a, Next(a, e)) && HasRow(a)
    ensures HasRow(Next(a, e))
  {
  }

  lemma NoHoldWithoutRow(a: Account, e: Event)
    requires HoldsHaveRow(a) && !HasRow(a) && a.balance == 0 && Legal(a, e)
    ensures HoldsHaveRow(Next(a, e))
  {
  }

  ghost predicate WindowsOk(a: Account) {
    forall w: Id | w < |a.windows| :: WindowOk(a.windows[w])
  }

  lemma CloseKeepsWindows(a: Account, w: Id, elapsedMs: real)
    requires WindowsOk(a) && w < |a.windows| && elapsedMs >= 0.0
    ensures WindowsOk(CloseWindow(a, w, elapsedMs))
  {
    GrossWithinEstimate(elapsedMs, a.windows[w].dwellMs, a.windows[w].price);
  }

  lemma MarkDrawnKeepsWindows(windows: seq<Window>, members: set<Id>)
    requires forall w: Id | w < |windows| :: WindowOk(windows[w])
    requires forall m <- members :: m < |windows| && windows[m].state == Credited
    ensures forall w: Id | w < |windows| :: WindowOk(MarkDrawn(windows, members)[w])
  {
    forall w: Id | w < |windows|
      ensures WindowOk(MarkDrawn(windows, members)[w])
    {
      assert WindowOk(windows[w]);
    }
  }

  lemma DrawKeepsWindows(a: Account, b: Id, members: set<Id>)
    requires WindowsOk(a) && Legal(a, Draw(b, members))
    ensures WindowsOk(DrawDown(a, b, members))
  {
    MarkDrawnKeepsWindows(a.windows, members);
    DrawMarksUnless(a, b, members);
  }

  lemma OpenKeepsWindows(a: Account, e: Event)
    requires WindowsOk(a) && Legal(a, e) && (e.OpenWindow? || e.OpenOnPostpay?)
    ensures WindowsOk(Next(a, e))
  {
  }

  lemma MarkKeepsWindows(a: Account, e: Event)
    requires WindowsOk(a) && Legal(a, e) && (e.Abandon? || e.PrepayClawback? || e.PlainClawback?)
    ensures WindowsOk(Next(a, e))
  {
  }

  lemma NextKeepsWindows(a: Account, e: Event)
    requires WindowsOk(a) && Legal(a, e)
    ensures WindowsOk(Next(a, e))
  {
    if e.OpenWindow? || e.OpenOnPostpay? {
      OpenKeepsWindows(a, e);
    } else if e.Abandon? || e.PrepayClawback? || e.PlainClawback? {
      MarkKeepsWindows(a, e);
    } else if e.Close? {
      CloseKeepsWindows(a, e.window, e.elapsedMs);
    } else if e.Draw? {
      DrawKeepsWindows(a, e.batch, e.members);
    } else {
      assert Next(a, e).windows == a.windows;
    }
  }

  lemma {:induction false} ReachesInv(es: seq<Event>, a: Account)
    requires Reaches(es, a)
    ensures Inv(a)
  {
    if es != [] {
      var last := |es| - 1;
      var mid: Account :| Reaches(es[..last], mid) && Legal(mid, es[last]) && a == Next(mid, es[last]);
      ReachesInv(es[..last], mid);
      NextKeepsInv(mid, es[last]);
    }
  }

  /**
   Prepay soundness: over every interleaving of deposits, windows, sweeps, draw-downs, reversals,
   clawbacks and adjustments, every ledger group sums to zero and the balance is exactly the held
   liability, and so never negative.
   */
  lemma BalanceIsLiability(es: seq<Event>, a: Account)
    requires Reaches(es, a)
    ensures ZeroSum(a.ledger) && a.balance == -Funds(a.ledger)
  {
    ReachesInv(es, a);
  }
}
