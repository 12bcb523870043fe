/** Holds and alarms of the prepay account, and what every reversal finally books. */
module PrepayHolds {
  import opened Basics
  import opened Prepay

  /** The reserve invariant the health check watches. */
  ghost predicate Backed(a: Account) {
    a.reserved == ExpectedReserved(a.windows)
  }

  /** What the health check expects of the windows in s. */
  function ExpectedIn(windows: seq<Window>, s: set<Id>): nat {
    if windows == [] then 0
    else
      var last := |windows| - 1;
      ExpectedIn(windows[..last], s) + if last in s && !windows[last].clawed then windows[last].reserve else 0
  }

  // ---------------------------------------------------------------- sums

  lemma ExpectedAppend(windows: seq<Window>, x: Window)
    ensures ExpectedReserved(windows + [x]) == ExpectedReserved(windows) + if x.clawed then 0 else x.reserve
  {
    assert (windows + [x])[..|windows|] == windows;
  }

  lemma {:induction false} ExpectedUpdate(windows: seq<Window>, w: Id, x: Window)
    requires w < |windows|
    ensures ExpectedReserved(windows[w := x])
            == ExpectedReserved(windows)
               - (if windows[w].clawed then 0 else windows[w].reserve) + (if x.clawed then 0 else x.reserve)
    ensures !windows[w].clawed ==> windows[w].reserve <= ExpectedReserved(windows)
  {
    var last := |windows| - 1;
    if w < last {
      ExpectedUpdate(windows[..last], w, x);
      assert windows[w := x][..last] == windows[..last][w := x];
    } else {
      assert windows[w := x][..last] == windows[..last];
    }
  }

  lemma {:induction false} ExpectedAfterDraw(windows: seq<Window>, s: set<Id>)
    ensures ExpectedReserved(MarkDrawn(windows, s)) == ExpectedReserved(windows) - ExpectedIn(windows, s)
    ensures ExpectedIn(windows, s) <= ExpectedReserved(windows)
  {
    if windows != [] {
      var last := |windows| - 1;
      ExpectedAfterDraw(windows[..last], s);
      assert MarkDrawn(windows, s)[..last] == MarkDrawn(windows[..last], s);
    }
  }

  /** Windows that took a hold when opened, closed with credit, and were neither clawed back nor drawn. */
  ghost predicate AllTrued(windows: seq<Window>, s: set<Id>) {
    forall w <- s :: w < |windows| && windows[w].state == Credited && windows[w].held && !windows[w].clawed && !windows[w].drawn
  }

  lemma {:induction false} TruedSums(windows: seq<Window>, s: set<Id>, n: nat)
    requires n <= |windows|
    requires forall w: Id | w < |windows| :: WindowOk(windows[w])
    requires AllTrued(windows, s)
    ensures GrossIn(windows[..n], s) == ExpectedIn(windows[..n], s)
  {
    if n > 0 {
      TruedSums(windows, s, n - 1);
      assert windows[..n][..n - 1] == windows[..n - 1];
      assert WindowOk(windows[n - 1]);
    }
  }

  // ---------------------------------------------------------------- which steps keep the holds backed

  lemma OpenWithHold(a: Account, x: Window)
    requires Backed(a) && !x.clawed
    ensures Backed(Open(a, x.reserve, x))
  {
    ExpectedAppend(a.windows, x);
  }

  lemma OpenKeepsBacked(a: Account, e: Event)
    requires Backed(a) && (e.OpenWindow? || e.OpenOnPostpay?)
    ensures Backed(Next(a, e))
  {
    var estimate := Estimate(e.dwellMs, e.price);
    OpenWithHold(a, Window(e.dwellMs, e.price, true, false, 0, Unclosed, 0, false, false));
    OpenWithHold(a, Window(e.dwellMs, e.price, true, true, estimate, Unclosed, 0, false, false));
    OpenWithHold(a, Window(e.dwellMs, 0, false, false, 0, Unclosed, 0, false, false));
  }

  lemma TrueUpKeepsBacked(a: Account, w: Id, keep: nat, x: Window)
    requires Backed(a) && w < |a.windows| && !a.windows[w].clawed && keep <= a.windows[w].reserve
    requires x.clawed ==> keep == 0
    ensures Backed(TrueUp(a, w, keep, x))
    ensures TrueUp(a, w, keep, x).reserved == a.reserved - (a.windows[w].reserve - keep)
  {
    ExpectedUpdate(a.windows, w, x.(reserve := keep));
  }

  lemma CloseKeepsBacked(a: Account, w: Id, elapsedMs: real)
    requires Inv(a) && Backed(a) && w < |a.windows| && elapsedMs >= 0.0
    ensures Backed(CloseWindow(a, w, elapsedMs))
    ensures CloseWindow(a, w, elapsedMs).reserved <= a.reserved
  {
    var x := a.windows[w];
    if x.state == Unclosed {
      assert WindowOk(x);
      if x.filled {
        GrossWithinEstimate(elapsedMs, x.dwellMs, x.price);
        var gross := Bill(AttentionSeconds(elapsedMs, x.dwellMs), x.price);
        TrueUpKeepsBacked(a, w, if x.reserve > 0 then gross else 0, x.(state := Credited, gross := gross));
      } else {
        TrueUpKeepsBacked(a, w, 0, x.(state := Abandoned));
      }
    }
  }

  lemma ClawbackKeepsBacked(a: Account, w: Id)
    requires Inv(a) && Backed(a) && w < |a.windows|
    ensures Backed(Clawback(a, w))
    ensures Clawback(a, w).reserved <= a.reserved && Clawback(a, w).balance >= a.balance
  {
    var x := a.windows[w];
    if x.state == Credited && !x.clawed && x.gross != 0 {
      TrueUpKeepsBacked(a, w, 0, x.(clawed := true));
    }
  }

  /**
   A draw-down keeps the holds backed exactly when the holds it zeroes amount to what it takes off
   the reserved figure; the underflow alarm looks only at the reserved figure.
   */
  lemma DrawKeepsBackedExactly(a: Account, b: Id, members: set<Id>)
    requires Inv(a) && Backed(a) && Legal(a, Draw(b, members))
    requires b !in a.draws && 0 < GrossIn(a.windows, members) <= a.balance
    ensures var sum := GrossIn(a.windows, members);
            var a' := Next(a, Draw(b, members));
            && (Backed(a') <==> ExpectedIn(a.windows, members) == if a.reserved < sum then a.reserved else sum)
            && (a'.underflows > a.underflows <==> a.reserved < sum)
            && a'.shortfalls == a.shortfalls
  {
    ExpectedAfterDraw(a.windows, members);
  }

  /** Drawing only trued windows is backed and raises no underflow alarm. */
  lemma TruedDrawIsBacked(a: Account, b: Id, members: set<Id>)
    requires Inv(a) && Backed(a) && Legal(a, Draw(b, members)) && AllTrued(a.windows, members)
    ensures var a' := Next(a, Draw(b, members));
            && Backed(a') && a'.underflows == a.underflows
            && (a.reserved <= a.balance ==> a'.shortfalls == a.shortfalls && a'.reserved <= a'.balance)
  {
    TruedSums(a.windows, members, |a.windows|);
    assert a.windows[..|a.windows|] == a.windows;
    ExpectedAfterDraw(a.windows, members);
  }

  // ---------------------------------------------------------------- careful runs

  /** A draw takes trued windows only, and no clawback skips the release of the hold. */
  ghost predicate Careful(a: Account, e: Event) {
    match e
    case Draw(_, members) => AllTrued(a.windows, members)
    case PlainClawback(w) => w < |a.windows| && a.windows[w].reserve == 0
    case _ => true
  }

  predicate IsReversal(e: Event) {
    e.Dispute? || e.RefundDeposit?
  }

  /** a is where careful events lead from a0. */
  ghost predicate CarefullyFrom(a0: Account, es: seq<Event>, a: Account) {
    if es == [] then a == a0
    else
      var last := |es| - 1;
      exists mid: Account ::
        CarefullyFrom(a0, es[..last], mid) && Legal(mid, es[last]) && Careful(mid, es[last]) && a == Next(mid, es[last])
  }

  lemma AbandonKeepsBacked(a: Account, w: Id)
    requires Inv(a) && Backed(a) && Legal(a, Abandon(w))
    ensures Backed(Next(a, Abandon(w))) && Next(a, Abandon(w)).reserved <= a.reserved
  {
    if a.windows[w].state == Unclosed {
      assert WindowOk(a.windows[w]);
      TrueUpKeepsBacked(a, w, 0, a.windows[w].(state := Abandoned));
    }
  }

  lemma CarefulHoldKeepsBacked(a: Account, e: Event)
    requires Inv(a) && Backed(a) && Legal(a, e) && Careful(a, e) && IsHold(e)
    ensures Backed(Next(a, e))
    ensures a.reserved <= a.balance ==> Next(a, e).reserved <= a.balance
  {
    match e
    case OpenWindow(_, _) => OpenKeepsBacked(a, e);
    case OpenOnPostpay(_, _) => OpenKeepsBacked(a, e);
    case Abandon(w) => AbandonKeepsBacked(a, w);
    case Close(w, elapsed) => CloseKeepsBacked(a, w, elapsed);
    case PlainClawback(w) => ExpectedUpdate(a.windows, w, a.windows[w].(clawed := true));
    case _ =>
  }

  lemma CashKeepsHolds(a: Account, e: Event)
    requires Legal(a, e) && (e.Deposit? || e.Adjust? || IsReversal(e))
    ensures var a' := Next(a, e);
            && a'.windows == a.windows && a'.reserved == a.reserved
            && a'.underflows == a.underflows && a'.shortfalls == a.shortfalls
            && (!IsReversal(e) && a.reserved <= a.balance ==> a.reserved <= a'.balance)
  {
  }

  /** A careful step keeps the holds backed; only a reversal can take the balance below what is held. */
  lemma CarefulStepKeepsBacked(a: Account, e: Event)
    requires Inv(a) && Backed(a) && Legal(a, e) && Careful(a, e)
    ensures Backed(Next(a, e)) && Next(a, e).underflows == a.underflows
    ensures !IsReversal(e) && a.reserved <= a.balance ==>
              Next(a, e).reserved <= Next(a, e).balance && Next(a, e).shortfalls == a.shortfalls
  {
    if IsHold(e) {
      CarefulHoldKeepsBacked(a, e);
      HoldKeepsMoney(a, e);
    } else if e.Draw? {
      TruedDrawIsBacked(a, e.batch, e.members);
    } else if e.PrepayClawback? {
      ClawbackKeepsBacked(a, e.window);
      ClawbackKeepsTables(a, e.window);
    } else {
      CashKeepsHolds(a, e);
    }
  }

  predicate NoReversal(es: seq<Event>) {
    forall i: nat | i < |es| :: !IsReversal(es[i])
  }

  lemma CarefulStep(a: Account, e: Event)
    requires Inv(a) && Backed(a) && Legal(a, e) && Careful(a, e)
    ensures Inv(Next(a, e)) && Backed(Next(a, e)) && Next(a, e).underflows == a.underflows
    ensures !IsReversal(e) && a.reserved <= a.balance ==>
              Next(a, e).reserved <= Next(a, e).balance && Next(a, e).shortfalls == a.shortfalls
  {
    NextKeepsInv(a, e);
    CarefulStepKeepsBacked(a, e);
  }

  /** What a careful run keeps of where it began, by whether it contained a reversal. */
  ghost predicate Quiet(a0: Account, reversed: bool, a: Account) {
    && Inv(a) && Backed(a) && a.underflows == a0.underflows
    && (!reversed && a0.reserved <= a0.balance ==> a.reserved <= a.balance && a.shortfalls == a0.shortfalls)
  }

  lemma QuietStep(a0: Account, a: Account, e: Event, reversed: bool)
    requires Quiet(a0, reversed, a) && Legal(a, e) && Careful(a, e)
    ensures Quiet(a0, reversed || IsReversal(e), Next(a, e))
  {
    CarefulStep(a, e);
  }

  lemma {:induction false} CarefulRunsAreQuiet(a0: Account, es: seq<Event>, a: Account)
    requires Inv(a0) && Backed(a0) && CarefullyFrom(a0, es, a)
    ensures Quiet(a0, !NoReversal(es), a)
  {
    if es != [] {
      var last := |es| - 1;
      var mid: Account :|
        CarefullyFrom(a0, es[..last], mid) && Legal(mid, es[last]) && Careful(mid, es[last]) && a == Next(mid, es[last]);
      CarefulRunsAreQuiet(a0, es[..last], mid);
      QuietStep(a0, mid, es[last], !NoReversal(es[..last]));
      LastReversal(es);
    }
  }

  lemma LastReversal(es: seq<Event>)
    requires es != []
    ensures NoReversal(es) <==> NoReversal(es[..|es| - 1]) && !IsReversal(es[|es| - 1])
  {
  }

  lemma EmptyIsBacked(a: Account)
    requires a.balance == 0 && a.reserved == 0 && a.ledger == [] && a.windows == []
    ensures Inv(a) && Backed(a)
  {
  }

  lemma EmptyIsBooked(a: Account)
    requires a.ledger == [] && a.deposits == map[] && a.draws == map[] && a.disputes == map[] && a.refunded == map[]
    ensures BookedAsRecorded(a)
  {
  }

  lemma OpeningIsEmpty()
    ensures OPENING == Account(0, 0, [], [], map[], map[], map[], map[], 0, 0, false)
  {
  }

  lemma OpeningInOrder()
    ensures Inv(OPENING) && Backed(OPENING) && BookedAsRecorded(OPENING)
  {
    OpeningIsEmpty();
    EmptyIsBacked(OPENING);
    EmptyIsBooked(OPENING);
  }

  /**
   On careful runs, from the opening of the account or any other state in order, the reserved figure is
   always the sum of the holds and the underflow alarm never fires, whatever else happens; without
   reversals the balance always covers the holds and the insufficient-balance alarm never fires either.
   */
  lemma CarefulRunsRaiseNoAlarm(a0: Account, es: seq<Event>, a: Account)
    requires Inv(a0) && Backed(a0) && a0.underflows == 0 && CarefullyFrom(a0, es, a)
    ensures a.reserved == ExpectedReserved(a.windows) && a.underflows == 0
    ensures NoReversal(es) && a0.reserved <= a0.balance && a0.shortfalls == 0 ==> a.reserved <= a.balance && a.shortfalls == 0
  {
    CarefulRunsAreQuiet(a0, es, a);
  }

  lemma {:induction false} NothingHeld(windows: seq<Window>)
    requires forall w: Id | w < |windows| :: windows[w].reserve == 0
    ensures ExpectedReserved(windows) == 0
  {
    if windows != [] {
      NothingHeld(windows[..|windows| - 1]);
    }
  }

  /**
   Reconciling heals for good: after any history whatever, however far the reserved figure had drifted,
   every careful run that follows one reconcile keeps it at the sum of the holds and raises no underflow.
   */
  lemma ReconciledRunsStayBacked(history: seq<Event>, a0: Account, es: seq<Event>, a: Account)
    requires Reaches(history, a0) && CarefullyFrom(Next(a0, ReconcileReserved), es, a)
    ensures a.reserved == ExpectedReserved(a.windows) && a.underflows == a0.underflows
  {
    ReachesInv(history, a0);
    NextKeepsInv(a0, ReconcileReserved);
    if !HasRow(a0) {
      NothingHeld(a0.windows);
    }
    CarefulRunsAreQuiet(Next(a0, ReconcileReserved), es, a);
  }

  // ---------------------------------------------------------------- careless runs

  // EUR 0.01 deposited, one window of 5 seconds at 10 micros opened on postpay, one on prepay.
  const CREDITED_UNHELD := Window(5000, 10, true, false, 0, Credited, 50, false, false)
  const OPEN_HELD := Window(5000, 10, true, true, 50, Unclosed, 0, false, false)
  const SWITCHED := Account(10000, 50, [CREDITED_UNHELD, OPEN_HELD],
                            [Posting(DepositOf(0), -10000, 10000, 0, 0)], map[0 := 10000], map[], map[], map[], 0, 0, false)

  lemma ReachesMore(es: seq<Event>, a: Account, e: Event)
    requires Reaches(es, a) && Legal(a, e)
    ensures Reaches(es + [e], Next(a, e))
  {
    assert (es + [e])[..|es|] == es;
  }

  const FUNDING := [Deposit(0, 10000)]
  const FUNDED := SWITCHED.(windows := [], reserved := 0)

  lemma FundedReached()
    ensures Reaches(FUNDING, FUNDED)
  {
    ReachesMore([], OPENING, Deposit(0, 10000));
    assert [] + [Deposit(0, 10000)] == FUNDING;
    assert [] + [Posting(DepositOf(0), -10000, 10000, 0, 0)] == FUNDED.ledger;
    assert Next(OPENING, Deposit(0, 10000)) == FUNDED;
  }

  lemma FiveSeconds()
    ensures AttentionSeconds(5000.0, 5000) == 5 && Estimate(5000, 10) == 50
  {
    assert 5000.0 / 1000.0 + 0.5 == 5.5;
    BillIsProduct(5, 10);
  }

  lemma Credits(a: Account, x: Window, y: Window)
    requires a.windows == [x] && x.state == Unclosed && x.filled && x.dwellMs == 5000 && x.price == 10
    requires x.reserve == 0 || x.reserve == 50
    requires y == x.(state := Credited, gross := 50)
    ensures CloseWindow(a, 0, 5000.0) == a.(windows := [y])
  {
    FiveSeconds();
    assert a.windows[0 := y] == [y];
  }

  lemma Holds(a: Account, dwellMs: nat, price: nat)
    requires |a.windows| == 1 && a.balance >= a.reserved + 50
    requires OPEN_HELD.dwellMs == dwellMs && OPEN_HELD.price == price && Estimate(dwellMs, price) == 50
    ensures Next(a, OpenWindow(dwellMs, price)) == a.(reserved := a.reserved + 50, windows := [a.windows[0], OPEN_HELD])
  {
    assert a.windows + [OPEN_HELD] == [a.windows[0], OPEN_HELD];
  }

  lemma CreditedThenHeld(es: seq<Event>, a: Account, x: Window, y: Window)
    requires Reaches(es, a) && a.windows == [x] && x.state == Unclosed && x.filled && x.dwellMs == 5000 && x.price == 10
    requires x.reserve == 0 || x.reserve == 50
    requires y == x.(state := Credited, gross := 50) && a.balance >= a.reserved + 50
    ensures Reaches(es + [Close(0, 5000.0)] + [OpenWindow(5000, 10)],
                    a.(reserved := a.reserved + 50, windows := [y, OPEN_HELD]))
  {
    var closed := a.(windows := [y]);
    FiveSeconds();
    Credits(a, x, y);
    ReachesMore(es, a, Close(0, 5000.0));
    Holds(closed, 5000, 10);
    ReachesMore(es + [Close(0, 5000.0)], closed, OpenWindow(5000, 10));
  }

  const SWITCHING := FUNDING + [OpenOnPostpay(5000, 10)] + [Close(0, 5000.0)] + [OpenWindow(5000, 10)]

  lemma SwitchedReached()
    ensures Reaches(SWITCHING, SWITCHED)
  {
    var x := Window(5000, 10, true, false, 0, Unclosed, 0, false, false);
    var one := FUNDED.(windows := [x]);
    FundedReached();
    assert [] + [x] == [x];
    ReachesMore(FUNDING, FUNDED, OpenOnPostpay(5000, 10));
    CreditedThenHeld(FUNDING + [OpenOnPostpay(5000, 10)], one, x, CREDITED_UNHELD);
  }

  const BATCHING := FUNDING + [OpenWindow(5000, 10)] + [Close(0, 5000.0)] + [OpenWindow(5000, 10)]

  lemma BatchedReached()
    ensures Reaches(BATCHING, BATCHED)
  {
    var one := FUNDED.(reserved := 50, windows := [OPEN_HELD]);
    FundedReached();
    FiveSeconds();
    assert [] + [OPEN_HELD] == [OPEN_HELD];
    assert Next(FUNDED, OpenWindow(5000, 10)) == one;
    ReachesMore(FUNDING, FUNDED, OpenWindow(5000, 10));
    CreditedThenHeld(FUNDING + [OpenWindow(5000, 10)], one, OPEN_HELD, IN_BATCH);
  }

  lemma TwoWindows(x: Window, y: Window)
    ensures var ws := [x, y];
            && GrossIn(ws, {0}) == x.gross
            && ExpectedIn(ws, {0}) == (if x.clawed then 0 else x.reserve)
            && ExpectedReserved(ws) == (if x.clawed then 0 else x.reserve) + (if y.clawed then 0 else y.reserve)
  {
    var ws, one := [x, y], [x];
    assert ws[..1] == one && one[..0] == [];
    assert GrossIn(one, {0}) == x.gross;
    assert ExpectedIn(one, {0}) == if x.clawed then 0 else x.reserve;
    assert ExpectedReserved(one) == if x.clawed then 0 else x.reserve;
  }

  /** After a switch to prepay, drawing a window from before eats another window's hold, and no alarm says so. */
  lemma SwitchDriftsSilently()
    ensures Reaches(SWITCHING, SWITCHED) && Backed(SWITCHED) && Legal(SWITCHED, Draw(7, {0}))
    ensures var a' := Next(SWITCHED, Draw(7, {0}));
            !Backed(a') && a'.reserved == 0 && a'.windows[1].reserve == 50 && a'.underflows == 0 && a'.shortfalls == 0
  {
    SwitchedReached();
    ReachesInv(SWITCHING, SWITCHED);
    TwoWindows(CREDITED_UNHELD, OPEN_HELD);
    DrawKeepsBackedExactly(SWITCHED, 7, {0});
  }

  const IN_BATCH := Window(5000, 10, true, true, 50, Credited, 50, false, false)
  const BATCHED := SWITCHED.(windows := [IN_BATCH, OPEN_HELD], reserved := 100)

  /** What the windows in s grossed that were not clawed back. */
  function StandingIn(windows: seq<Window>, s: set<Id>): nat {
    if windows == [] then 0
    else
      var last := |windows| - 1;
      StandingIn(windows[..last], s) + if last in s && !windows[last].clawed then windows[last].gross else 0
  }

  lemma {:induction false} GrossIsStandingExactly(windows: seq<Window>, s: set<Id>, n: nat)
    requires n <= |windows|
    ensures StandingIn(windows[..n], s) <= GrossIn(windows[..n], s)
    ensures GrossIn(windows[..n], s) == StandingIn(windows[..n], s) <==>
            forall w: Id | w < n && w in s && windows[w].clawed :: windows[w].gross == 0
  {
    if n > 0 {
      GrossIsStandingExactly(windows, s, n - 1);
      assert windows[..n][..n - 1] == windows[..n - 1];
    }
  }

  /**
   A draw-down takes nothing for windows that were clawed back if and only if no member of its batch was
   clawed back with something to bill; the draw itself never asks.
   */
  lemma DrawTakesClawedExactly(a: Account, b: Id, members: set<Id>)
    requires Legal(a, Draw(b, members)) && HasRow(a) && b !in a.draws && 0 < GrossIn(a.windows, members) <= a.balance
    ensures Next(a, Draw(b, members)).balance == a.balance - StandingIn(a.windows, members) <==>
            forall w <- members | a.windows[w].clawed :: a.windows[w].gross == 0
  {
    GrossIsStandingExactly(a.windows, members, |a.windows|);
    assert a.windows[..|a.windows|] == a.windows;
    DrawTakesGross(a, b, members);
  }

  lemma DrawTakesGross(a: Account, b: Id, members: set<Id>)
    requires HasRow(a) && b !in a.draws && 0 < GrossIn(a.windows, members) <= a.balance
    ensures DrawDown(a, b, members).balance == a.balance - GrossIn(a.windows, members)
  {
  }

  /** A window clawed back while its charge waits in a pending batch is drawn all the same. */
  lemma ClawedBackInBatchIsStillDrawn()
    ensures Reaches(BATCHING, BATCHED) && Backed(BATCHED) && Legal(BATCHED, PrepayClawback(0))
    ensures var clawed := Next(BATCHED, PrepayClawback(0));
            && Backed(clawed) && clawed.windows[0].clawed && Legal(clawed, Draw(7, {0}))
            && var a' := Next(clawed, Draw(7, {0}));
               a'.balance == clawed.balance - 50 && !Backed(a') && a'.underflows == 0
  {
    BatchedReached();
    ReachesInv(BATCHING, BATCHED);
    TwoWindows(IN_BATCH, OPEN_HELD);
    ClawbackKeepsBacked(BATCHED, 0);
    NextKeepsInv(BATCHED, PrepayClawback(0));
    var clawed := Next(BATCHED, PrepayClawback(0));
    assert clawed.windows == [IN_BATCH.(reserve := 0, clawed := true), OPEN_HELD];
    TwoWindows(IN_BATCH.(reserve := 0, clawed := true), OPEN_HELD);
    DrawKeepsBackedExactly(clawed, 7, {0});
    DrawTakesGross(clawed, 7, {0});
  }

  // ---------------------------------------------------------------- what is booked in the end

  function CashFrom(ledger: seq<Posting>, source: Source): int {
    if ledger == [] then 0
    else
      var last := |ledger| - 1;
      CashFrom(ledger[..last], source) + if ledger[last].source == source then ledger[last].cash else 0
  }

  function FundsFrom(ledger: seq<Posting>, source: Source): int {
    if ledger == [] then 0
    else
      var last := |ledger| - 1;
      FundsFrom(ledger[..last], source) + if ledger[last].source == source then ledger[last].funds else 0
  }

  function Lookup(m: map<Id, nat>, k: Id): nat {
    if k in m then m[k] else 0
  }

  lemma FromAppend(ledger: seq<Posting>, p: Posting, source: Source)
    ensures CashFrom(ledger + [p], source) == CashFrom(ledger, source) + if p.source == source then p.cash else 0
    ensures FundsFrom(ledger + [p], source) == FundsFrom(ledger, source) + if p.source == source then p.funds else 0
  {
    assert (ledger + [p])[..|ledger|] == ledger;
  }

  /** Every deposit, refund, dispute and draw is booked for exactly what its table row says. */
  ghost predicate BookedAsRecorded(a: Account) {
    && (forall pi: Id :: CashFrom(a.ledger, DepositOf(pi)) == Lookup(a.deposits, pi))
    && (forall pi: Id :: CashFrom(a.ledger, RefundOf(pi)) + Lookup(a.refunded, pi) == 0)
    && (forall d: Id :: CashFrom(a.ledger, DisputeOf(d)) + Lookup(a.disputes, d) == 0)
    && (forall b: Id :: FundsFrom(a.ledger, DrawOf(b)) == Lookup(a.draws, b))
  }

  /** The tables moved by exactly what the new group posts. */
  ghost predicate TablesFollowPosting(a: Account, a': Account, p: Posting) {
    && (forall pi: Id ::
          Lookup(a'.deposits, pi) == Lookup(a.deposits, pi) + if p.source == DepositOf(pi) then p.cash else 0)
    && (forall pi: Id ::
          Lookup(a'.refunded, pi) == Lookup(a.refunded, pi) - if p.source == RefundOf(pi) then p.cash else 0)
    && (forall d: Id ::
          Lookup(a'.disputes, d) == Lookup(a.disputes, d) - if p.source == DisputeOf(d) then p.cash else 0)
    && (forall b: Id ::
          Lookup(a'.draws, b) == Lookup(a.draws, b) + if p.source == DrawOf(b) then p.funds else 0)
  }

  lemma BookPosting(a: Account, a': Account, p: Posting)
    requires BookedAsRecorded(a) && a'.ledger == a.ledger + [p] && TablesFollowPosting(a, a', p)
    ensures BookedAsRecorded(a')
  {
    forall s: Source
      ensures CashFrom(a'.ledger, s) == CashFrom(a.ledger, s) + if p.source == s then p.cash else 0
      ensures FundsFrom(a'.ledger, s) == FundsFrom(a.ledger, s) + if p.source == s then p.funds else 0
    {
      FromAppend(a.ledger, p, s);
    }
  }

  lemma BookNothing(a: Account, a': Account)
    requires BookedAsRecorded(a) && SameTables(a, a') && a'.ledger == a.ledger
    ensures BookedAsRecorded(a')
  {
  }

  lemma DepositTables(a: Account, pi: Id, micros: nat)
    requires pi !in a.deposits
    ensures TablesFollowPosting(a, Credit(a, pi, micros), DepositPosting(pi, micros))
  {
  }

  lemma BookDeposit(a: Account, pi: Id, micros: nat)
    requires BookedAsRecorded(a) && micros > 0
    ensures BookedAsRecorded(Next(a, Deposit(pi, micros)))
  {
    if pi !in a.deposits {
      DepositTables(a, pi, micros);
      BookPosting(a, Credit(a, pi, micros), DepositPosting(pi, micros));
    }
  }

  lemma BookAdjust(a: Account, delta: int)
    requires BookedAsRecorded(a) && delta != 0
    ensures BookedAsRecorded(Next(a, Adjust(delta)))
  {
    if delta > 0 || -delta <= a.balance - a.reserved {
      BookPosting(a, Next(a, Adjust(delta)), Posting(Adjustment, -delta, delta, 0, 0));
    }
  }

  lemma ReverseFields(a: Account, source: Source, micros: nat)
    ensures var a' := Reverse(a, source, micros);
            var reclaim: int := if micros < a.balance then micros else a.balance;
            && a'.ledger == a.ledger + [Posting(source, reclaim, 0 - micros, 0, micros - reclaim)]
            && SameTables(a, a')
  {
  }

  lemma DisputeTables(a: Account, a': Account, d: Id, micros: nat, p: Posting)
    requires a'.deposits == a.deposits && a'.refunded == a.refunded && a'.draws == a.draws
    requires d !in a.disputes && a'.disputes == a.disputes[d := micros]
    requires p.source == DisputeOf(d) && p.cash == 0 - micros
    ensures TablesFollowPosting(a, a', p)
  {
  }

  lemma BookDispute(a: Account, d: Id, micros: nat)
    requires BookedAsRecorded(a) && micros > 0
    ensures BookedAsRecorded(Next(a, Dispute(d, micros)))
  {
    if d !in a.disputes {
      var reclaim: int := if micros < a.balance then micros else a.balance;
      var p := Posting(DisputeOf(d), reclaim, 0 - micros, 0, micros - reclaim);
      var a1 := a.(disputes := a.disputes[d := micros]);
      ReverseFields(a1, DisputeOf(d), micros);
      DisputeTables(a, Reverse(a1, DisputeOf(d), micros), d, micros, p);
      BookPosting(a, Reverse(a1, DisputeOf(d), micros), p);
    }
  }

  lemma RefundTables(a: Account, a': Account, pi: Id, cumulative: nat, p: Posting)
    requires a'.deposits == a.deposits && a'.disputes == a.disputes && a'.draws == a.draws
    requires a'.refunded == a.refunded[pi := cumulative]
    requires p.source == RefundOf(pi) && p.cash == Lookup(a.refunded, pi) - cumulative
    ensures TablesFollowPosting(a, a', p)
  {
  }

  lemma BookNewRefund(a: Account, pi: Id, cumulative: nat)
    requires BookedAsRecorded(a) && cumulative > Lookup(a.refunded, pi)
    ensures var a1 := a.(refunded := a.refunded[pi := cumulative]);
            BookedAsRecorded(Reverse(a1, RefundOf(pi), cumulative - Lookup(a.refunded, pi)))
  {
    var micros: int := cumulative - Lookup(a.refunded, pi);
    var reclaim: int := if micros < a.balance then micros else a.balance;
    var p := Posting(RefundOf(pi), reclaim, -micros, 0, micros - reclaim);
    var a1 := a.(refunded := a.refunded[pi := cumulative]);
    var a' := Reverse(a1, RefundOf(pi), micros);
    ReverseFields(a1, RefundOf(pi), micros);
    RefundTables(a, a', pi, cumulative, p);
    BookPosting(a, a', p);
  }

  lemma BookRefund(a: Account, pi: Id, cumulative: nat)
    requires BookedAsRecorded(a)
    ensures BookedAsRecorded(RefundUpTo(a, pi, cumulative))
  {
    if cumulative > Lookup(a.refunded, pi) {
      BookNewRefund(a, pi, cumulative);
    } else {
      BookNothing(a, RefundUpTo(a, pi, cumulative));
    }
  }

  lemma DrawTables(a: Account, a': Account, b: Id, sum: nat, p: Posting)
    requires a'.deposits == a.deposits && a'.disputes == a.disputes && a'.refunded == a.refunded
    requires b !in a.draws && a'.draws == a.draws[b := sum]
    requires p.source == DrawOf(b) && p.funds == sum
    ensures TablesFollowPosting(a, a', p)
  {
  }

  lemma BookDraw(a: Account, b: Id, members: set<Id>)
    requires BookedAsRecorded(a)
    ensures BookedAsRecorded(DrawDown(a, b, members))
  {
    var a', sum := DrawDown(a, b, members), GrossIn(a.windows, members);
    DrawKeepsMoneyUnless(a, b, members);
    if Draws?(a, b, members) {
      DrawTables(a, a', b, sum, DrawPosting(b, sum));
      BookPosting(a, a', DrawPosting(b, sum));
    } else {
      BookNothing(a, a');
    }
  }

  lemma BookClawback(a: Account, w: Id)
    requires BookedAsRecorded(a) && w < |a.windows|
    ensures BookedAsRecorded(Clawback(a, w))
  {
    var x := a.windows[w];
    ClawbackKeepsTables(a, w);
    if x.state == Credited && !x.clawed && x.gross > 0 && x.drawn {
      BookPosting(a, Clawback(a, w), Posting(ClawbackOf(w), 0 - x.gross, 0, x.gross, 0));
    } else {
      BookNothing(a, Clawback(a, w));
    }
  }

  lemma BookCash(a: Account, e: Event)
    requires BookedAsRecorded(a) && Legal(a, e) && (e.Deposit? || e.Adjust? || e.Dispute?)
    ensures BookedAsRecorded(Next(a, e))
  {
    match e
    case Deposit(pi, micros) => BookDeposit(a, pi, micros);
    case Adjust(delta) => BookAdjust(a, delta);
    case Dispute(d, micros) => BookDispute(a, d, micros);
  }

  lemma BookStep(a: Account, e: Event)
    requires BookedAsRecorded(a) && Legal(a, e)
    ensures BookedAsRecorded(Next(a, e))
  {
    if e.Deposit? || e.Adjust? || e.Dispute? {
      BookCash(a, e);
    } else if e.RefundDeposit? {
      BookRefund(a, e.pi, e.cumulative);
    } else if e.Draw? {
      BookDraw(a, e.batch, e.members);
    } else if e.PrepayClawback? {
      BookClawback(a, e.window);
    } else {
      HoldKeepsMoney(a, e);
      BookNothing(a, Next(a, e));
    }
  }

  /** The largest cumulative refund a run delivered for a PaymentIntent. */
  function MaxRefund(es: seq<Event>, pi: Id): nat {
    if es == [] then 0
    else
      var last := es[|es| - 1];
      var earlier := MaxRefund(es[..|es| - 1], pi);
      if last.RefundDeposit? && last.pi == pi && last.cumulative > earlier then last.cumulative else earlier
  }

  /** The amount of the first deposit event a run delivered for a PaymentIntent. */
  function FirstDeposit(es: seq<Event>, pi: Id): Option<nat> {
    if es == [] then None
    else
      var last := es[|es| - 1];
      var earlier := FirstDeposit(es[..|es| - 1], pi);
      if earlier.Some? then earlier
      else if last.Deposit? && last.pi == pi then Some(last.micros) else None
  }

  function RecordedDeposit(a: Account, pi: Id): Option<nat> {
    if pi in a.deposits then Some(a.deposits[pi]) else None
  }

  /** What one event does to an account's deposit, refund and dispute rows. */
  ghost predicate RowsFollow(a: Account, a': Account, e: Event) {
    && a'.deposits == (if e.Deposit? && e.pi !in a.deposits then a.deposits[e.pi := e.micros] else a.deposits)
    && a'.refunded == (if e.RefundDeposit? && e.cumulative > Lookup(a.refunded, e.pi) then a.refunded[e.pi := e.cumulative] else a.refunded)
    && a'.disputes == (if e.Dispute? && e.dispute !in a.disputes then a.disputes[e.dispute := e.micros] else a.disputes)
  }

  lemma CashRows(a: Account, e: Event)
    requires Legal(a, e) && (e.Deposit? || e.Adjust? || e.Dispute?)
    ensures RowsFollow(a, Next(a, e), e)
  {
  }

  lemma EventRows(a: Account, e: Event)
    requires Legal(a, e)
    ensures RowsFollow(a, Next(a, e), e)
  {
    match e
    case RefundDeposit(pi, cumulative) => assert Next(a, e) == RefundUpTo(a, pi, cumulative);
    case Draw(b, members) => DrawKeepsMoneyUnless(a, b, members);
    case PrepayClawback(w) => ClawbackKeepsTables(a, w);
    case Deposit(_, _) => CashRows(a, e);
    case Adjust(_) => CashRows(a, e);
    case Dispute(_, _) => CashRows(a, e);
    case _ => HoldKeepsMoney(a, e);
  }

  lemma {:induction false} RunsBookAsRecorded(es: seq<Event>, a: Account)
    requires Reaches(es, a)
    ensures BookedAsRecorded(a)
  {
    if es == [] {
      OpeningInOrder();
    } else {
      var last := |es| - 1;
      var mid: Account :| Reaches(es[..last], mid) && Legal(mid, es[last]) && a == Next(mid, es[last]);
      RunsBookAsRecorded(es[..last], mid);
      BookStep(mid, es[last]);
    }
  }

  lemma {:induction false} RowsFollowRun(es: seq<Event>, a: Account, pi: Id)
    requires Reaches(es, a)
    ensures RecordedDeposit(a, pi) == FirstDeposit(es, pi)
    ensures Lookup(a.refunded, pi) == MaxRefund(es, pi)
  {
    if es == [] {
      OpeningIsEmpty();
    } else {
      var last := |es| - 1;
      var mid: Account :| Reaches(es[..last], mid) && Legal(mid, es[last]) && a == Next(mid, es[last]);
      RowsFollowRun(es[..last], mid, pi);
      EventRows(mid, es[last]);
    }
  }

  /**
   The primitives themselves, called in any order and any number of times, mixed with anything else: a
   deposit is credited once, and the refunds booked on it total the largest cumulative amount asked
   for. Whether the webhook asks at all is another matter; see DepositBooks.
   */
  lemma ReversalsConverge(es: seq<Event>, a: Account, pi: Id)
    requires Reaches(es, a)
    ensures BookedAsRecorded(a)
    ensures RecordedDeposit(a, pi) == FirstDeposit(es, pi)
    ensures CashFrom(a.ledger, DepositOf(pi)) == if FirstDeposit(es, pi).Some? then FirstDeposit(es, pi).value else 0
    ensures CashFrom(a.ledger, RefundOf(pi)) + MaxRefund(es, pi) == 0
    ensures Lookup(a.refunded, pi) == MaxRefund(es, pi)
  {
    RunsBookAsRecorded(es, a);
    RowsFollowRun(es, a, pi);
  }

  /** A reversal takes what the balance still holds and writes off the rest; the balance stops at zero. */
  lemma ReversalSplits(a: Account, source: Source, micros: nat)
    ensures var a' := Reverse(a, source, micros);
            && a'.balance == (if a.balance > micros then a.balance - micros else 0)
            && |a'.ledger| == |a.ledger| + 1
            && a'.ledger[|a.ledger|].funds + a'.ledger[|a.ledger|].badDebt == micros
            && a'.ledger[|a.ledger|].funds == a.balance - a'.balance
            && a'.ledger[|a.ledger|].badDebt >= 0
            && a'.ledger[|a.ledger|].cash + micros == 0
  {
  }
}
