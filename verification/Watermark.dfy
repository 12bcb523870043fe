/**
 Clawing back earnings of one publisher: admin_open_clawback refuses an earning in the paid part of
 the publisher's earnings, oldest first, and rolls back when the payable amount would go negative.
 */
module Watermark {
  import opened Basics
  import PayoutProtocol

  /** A cleared earning: its window, its source's time, whether a click earned it and was charged for. */
  datatype Earning = Earning(window: Id, at: nat, micros: nat, click: bool, charged: bool, reversed: bool)

  datatype Book = Book(
    earnings: seq<Earning>,
    paid: nat,              // payout legs, net of reversals
    promised: Option<nat>,  // the amount of the payout in flight
    hold: nat,
    now: nat,
    reviewed: set<Id>)      // windows with a review that was not rejected

  datatype Reply = AlreadyClawedBack | PayoutActive | ClickCharged | ReviewExists | EarningAlreadyPaid | RolledBack | ClawedBack

  // ---------------------------------------------------------------- sums

  /** Earnings standing whose source is strictly older than at. */
  function OlderSum(earnings: seq<Earning>, at: nat): nat {
    if earnings == [] then 0
    else
      var e := earnings[|earnings| - 1];
      OlderSum(earnings[..|earnings| - 1], at) + if !e.reversed && e.at < at then e.micros else 0
  }

  /** Earnings standing whose source is at least as old as the cutoff. */
  function MaturedSum(earnings: seq<Earning>, cutoff: int): nat {
    if earnings == [] then 0
    else
      var e := earnings[|earnings| - 1];
      MaturedSum(earnings[..|earnings| - 1], cutoff) + if !e.reversed && e.at <= cutoff then e.micros else 0
  }

  function Payable(b: Book): int {
    MaturedSum(b.earnings, b.now - b.hold) - b.paid
  }

  /** impression_earning_paid: the earning lies, at least in part, in the paid tranche. */
  predicate EarningPaid(b: Book, i: Id)
    requires i < |b.earnings|
  {
    OlderSum(b.earnings, b.earnings[i].at) < b.paid
  }

  // ---------------------------------------------------------------- the operation

  predicate InWindow(e: Earning, w: Id) {
    e.window == w && !e.reversed
  }

  /** clawback reverses every standing earning of a window. */
  function ReverseWindow(earnings: seq<Earning>, w: Id): (after: seq<Earning>)
    ensures |after| == |earnings|
    ensures forall i | 0 <= i < |earnings| ::
              after[i] == if InWindow(earnings[i], w) then earnings[i].(reversed := true) else earnings[i]
  {
    seq(|earnings|, i requires 0 <= i < |earnings| =>
      if InWindow(earnings[i], w) then earnings[i].(reversed := true) else earnings[i])
  }

  predicate ClickChargedIn(earnings: seq<Earning>, w: Id) {
    exists i: nat | i < |earnings| :: earnings[i].window == w && earnings[i].click && earnings[i].charged
  }

  function OpenClawback(b: Book, i: Id): (Book, Reply)
    requires i < |b.earnings|
  {
    var w := b.earnings[i].window;
    if b.earnings[i].reversed then (b, AlreadyClawedBack)
    else if b.promised.Some? then (b, PayoutActive)
    else if ClickChargedIn(b.earnings, w) then (b, ClickCharged)
    else if w in b.reviewed then (b, ReviewExists)
    else if EarningPaid(b, i) then (b, EarningAlreadyPaid)
    else
      var after := b.(earnings := ReverseWindow(b.earnings, w), reviewed := b.reviewed + {w});
      if Payable(after) < 0 then (b, RolledBack) else (after, ClawedBack)
  }

  /** approve_clawback reverses the same window without any of these checks. */
  function ApproveClawback(b: Book, i: Id): Book
    requires i < |b.earnings|
  {
    b.(earnings := ReverseWindow(b.earnings, b.earnings[i].window))
  }

  // ---------------------------------------------------------------- what the watermark guarantees

  /** No standing earning of the window lies in the paid tranche. */
  ghost predicate WindowUnpaid(b: Book, w: Id) {
    forall i: Id | i < |b.earnings| && InWindow(b.earnings[i], w) :: !EarningPaid(b, i)
  }

  lemma {:induction false} OlderSumMonotone(earnings: seq<Earning>, early: nat, late: nat)
    requires early <= late
    ensures OlderSum(earnings, early) <= OlderSum(earnings, late)
  {
    if earnings != [] {
      OlderSumMonotone(earnings[..|earnings| - 1], early, late);
    }
  }

  /**
   A clawback that goes through reverses nothing paid exactly when every sibling click older than
   the impression passes the same watermark; the operation itself asks only about the impression.
   */
  lemma NothingPaidReversedExactly(b: Book, i: Id)
    requires i < |b.earnings| && OpenClawback(b, i).1 == ClawedBack
    ensures WindowUnpaid(b, b.earnings[i].window) <==>
            forall c: Id | c < |b.earnings| && InWindow(b.earnings[c], b.earnings[i].window) && b.earnings[c].at < b.earnings[i].at ::
              OlderSum(b.earnings, b.earnings[c].at) >= b.paid
  {
    forall c: Id | c < |b.earnings| && b.earnings[c].at >= b.earnings[i].at
      ensures !EarningPaid(b, c)
    {
      OlderSumMonotone(b.earnings, b.earnings[i].at, b.earnings[c].at);
    }
  }

  lemma {:induction false} ReversedAfterCutoff(earnings: seq<Earning>, w: Id, m: nat, cutoff: int)
    requires forall i: nat | i < |earnings| && InWindow(earnings[i], w) :: earnings[i].at >= m
    ensures cutoff < m ==> MaturedSum(ReverseWindow(earnings, w), cutoff) == MaturedSum(earnings, cutoff)
    ensures cutoff >= m ==> MaturedSum(ReverseWindow(earnings, w), cutoff) >= OlderSum(earnings, m)
  {
    if earnings != [] {
      var last := |earnings| - 1;
      ReversedAfterCutoff(earnings[..last], w, m, cutoff);
      assert ReverseWindow(earnings, w)[..last] == ReverseWindow(earnings[..last], w);
      assert InWindow(earnings[last], w) ==> earnings[last].at >= m;
    }
  }

  lemma OldestIn(earnings: seq<Earning>, w: Id, i: nat) returns (o: nat)
    requires i < |earnings| && InWindow(earnings[i], w)
    ensures o < |earnings| && InWindow(earnings[o], w)
    ensures forall j: nat | j < |earnings| && InWindow(earnings[j], w) :: earnings[o].at <= earnings[j].at
  {
    o := i;
    var k := 0;
    while k < |earnings|
      invariant 0 <= k <= |earnings|
      invariant o < |earnings| && InWindow(earnings[o], w)
      invariant forall j: nat | j < k && InWindow(earnings[j], w) :: earnings[o].at <= earnings[j].at
    {
      if InWindow(earnings[k], w) && earnings[k].at < earnings[o].at {
        o := k;
      }
      k := k + 1;
    }
  }

  /**
   Reversing a window outside the paid tranche never makes the payable amount negative: had the
   watermark looked at the whole window, the roll-back could never happen.
   */
  lemma UnpaidWindowStaysSolvent(b: Book, i: Id)
    requires i < |b.earnings| && !b.earnings[i].reversed && Payable(b) >= 0
    requires WindowUnpaid(b, b.earnings[i].window)
    ensures Payable(b.(earnings := ReverseWindow(b.earnings, b.earnings[i].window))) >= 0
    ensures OpenClawback(b, i).1 != RolledBack && OpenClawback(b, i).1 != EarningAlreadyPaid
  {
    var w := b.earnings[i].window;
    assert InWindow(b.earnings[i], w);
    var o := OldestIn(b.earnings, w, i);
    assert !EarningPaid(b, o);
    ReversedAfterCutoff(b.earnings, w, b.earnings[o].at, b.now - b.hold);
  }

  // ---------------------------------------------------------------- runs

  datatype Event =
    | Tick(seconds: nat)
    | Accrue(cleared: Earning)
    | ChargeClick(earning: Id)
    | Reserve(min: nat, max: nat)
    | Confirm
    | Fail
    | PayoutReversed(micros: nat)
    | Clawback(earning: Id)
    | Approve(earning: Id)
    | RejectReview(window: Id)

  function Promised(b: Book): nat {
    if b.promised.Some? then b.promised.value else 0
  }

  /** Reserve books the whole cents payable, when they are within its bounds and no payout is in flight. */
  function ReservePayout(b: Book, min: nat, max: nat): Book {
    var amount := PayoutProtocol.WholeCents(Payable(b));
    if b.promised.Some? || amount <= 0 || amount < min || amount > max then b else b.(promised := Some(amount))
  }

  /** What an event does; one that names no earning, or clears a reversed one, or reverses more than was paid, does nothing. */
  function Do(b: Book, e: Event): Book {
    match e
    case Tick(k) => b.(now := b.now + k)
    case Accrue(x) => if x.reversed then b else b.(earnings := b.earnings + [x])
    case ChargeClick(i) =>
      if i < |b.earnings| then b.(earnings := b.earnings[i := b.earnings[i].(charged := true)]) else b
    case Reserve(min, max) => ReservePayout(b, min, max)
    case Confirm => b.(promised := None, paid := b.paid + Promised(b))
    case Fail => b.(promised := None)
    case PayoutReversed(micros) => if micros <= b.paid then b.(paid := b.paid - micros) else b
    case Clawback(i) => if i < |b.earnings| then OpenClawback(b, i).0 else b
    case Approve(i) => if i < |b.earnings| then ApproveClawback(b, i) else b
    case RejectReview(w) => b.(reviewed := b.reviewed - {w})
  }

  function After(b: Book, es: seq<Event>): Book {
    if es == [] then b else Do(After(b, es[..|es| - 1]), es[|es| - 1])
  }

  lemma AfterMore(b: Book, es: seq<Event>, e: Event)
    ensures After(b, es + [e]) == Do(After(b, es), e)
  {
    assert (es + [e])[..|es|] == es;
  }

  // ---------------------------------------------------------------- payouts

  /**
   A reserve promises all whole cents payable, if nothing is promised yet and they are within its bounds;
   otherwise nothing changes.
   */
  lemma ReservePromisesExactly(b: Book, min: nat, max: nat, micros: nat)
    ensures b.promised.None? && micros > 0 && micros % 10000 == 0 && micros <= Payable(b) < micros + 10000 && min <= micros <= max
            ==> ReservePayout(b, min, max) == b.(promised := Some(micros))
    ensures ReservePayout(b, min, max) == b.(promised := Some(micros)) && b.promised.None?
            ==> micros > 0 && micros % 10000 == 0 && micros <= Payable(b) < micros + 10000 && min <= micros <= max
    ensures ReservePayout(b, min, max) != b ==> ReservePayout(b, min, max).promised.Some? && b.promised.None?
  {
  }

  /** A confirm pays what was promised and a failure pays nothing, either freeing the promise; a reversal gives back what it says. */
  lemma PayoutsMovePaid(b: Book, micros: nat)
    ensures Do(b, Confirm).promised.None? && Payable(Do(b, Confirm)) == Payable(b) - Promised(b)
    ensures Do(b, Fail).promised.None? && Payable(Do(b, Fail)) == Payable(b)
    ensures micros <= b.paid ==> Payable(Do(b, PayoutReversed(micros))) == Payable(b) + micros
  {
  }

  // ---------------------------------------------------------------- the payable amount covers what is promised

  /** The matured standing earnings of a window. */
  function MaturedIn(earnings: seq<Earning>, w: Id, cutoff: int): nat {
    if earnings == [] then 0
    else
      var e := earnings[|earnings| - 1];
      MaturedIn(earnings[..|earnings| - 1], w, cutoff) + if InWindow(e, w) && e.at <= cutoff then e.micros else 0
  }

  lemma {:induction false} ReversedTakes(earnings: seq<Earning>, w: Id, cutoff: int)
    ensures MaturedSum(ReverseWindow(earnings, w), cutoff) == MaturedSum(earnings, cutoff) - MaturedIn(earnings, w, cutoff)
  {
    if earnings != [] {
      var last := |earnings| - 1;
      ReversedTakes(earnings[..last], w, cutoff);
      assert ReverseWindow(earnings, w)[..last] == ReverseWindow(earnings[..last], w);
    }
  }

  /** Approving a review leaves the payable amount non-negative exactly when the window's matured earnings are within it. */
  lemma ApprovalOverdrawsExactly(b: Book, i: Id)
    requires i < |b.earnings|
    ensures Payable(ApproveClawback(b, i)) >= 0 <==>
            MaturedIn(b.earnings, b.earnings[i].window, b.now - b.hold) <= Payable(b)
  {
    ReversedTakes(b.earnings, b.earnings[i].window, b.now - b.hold);
  }

  /** An approval that takes more than is payable beyond what is promised. */
  predicate Overdraws(b: Book, e: Event) {
    && e.Approve? && e.earning < |b.earnings|
    && Payable(b) - Promised(b) < MaturedIn(b.earnings, b.earnings[e.earning].window, b.now - b.hold)
  }

  lemma {:induction false} MaturedGrows(earnings: seq<Earning>, early: int, late: int)
    requires early <= late
    ensures MaturedSum(earnings, early) <= MaturedSum(earnings, late)
  {
    if earnings != [] {
      MaturedGrows(earnings[..|earnings| - 1], early, late);
    }
  }

  lemma {:induction false} ChargeKeepsSums(earnings: seq<Earning>, i: nat, cutoff: int, at: nat)
    requires i < |earnings|
    ensures MaturedSum(earnings[i := earnings[i].(charged := true)], cutoff) == MaturedSum(earnings, cutoff)
    ensures OlderSum(earnings[i := earnings[i].(charged := true)], at) == OlderSum(earnings, at)
  {
    var last := |earnings| - 1;
    var changed := earnings[i := earnings[i].(charged := true)];
    if i < last {
      ChargeKeepsSums(earnings[..last], i, cutoff, at);
      assert changed[..last] == earnings[..last][i := earnings[i].(charged := true)];
    } else {
      assert changed[..last] == earnings[..last];
    }
  }

  ghost predicate Covered(b: Book) {
    Promised(b) <= Payable(b)
  }

  lemma ClawbackCovers(b: Book, i: Id)
    requires Covered(b) && i < |b.earnings|
    ensures Covered(OpenClawback(b, i).0)
  {
  }

  lemma ApprovalCovers(b: Book, i: Id)
    requires Covered(b) && i < |b.earnings|
    ensures Covered(ApproveClawback(b, i)) <==> !Overdraws(b, Approve(i))
  {
    ReversedTakes(b.earnings, b.earnings[i].window, b.now - b.hold);
  }

  lemma ReserveCovers(b: Book, min: nat, max: nat)
    requires Covered(b)
    ensures Covered(ReservePayout(b, min, max))
  {
  }

  lemma AccrualCovers(b: Book, e: Event)
    requires Covered(b) && (e.Tick? || e.Accrue? || e.ChargeClick?)
    ensures Covered(Do(b, e))
  {
    match e
    case Tick(k) => MaturedGrows(b.earnings, b.now - b.hold, b.now + k - b.hold);
    case Accrue(x) => assert (b.earnings + [x])[..|b.earnings|] == b.earnings;
    case ChargeClick(i) =>
      if i < |b.earnings| {
        ChargeKeepsSums(b.earnings, i, b.now - b.hold, 0);
      }
  }

  lemma StepCovers(b: Book, e: Event)
    requires Covered(b)
    ensures Covered(Do(b, e)) <==> !Overdraws(b, e)
  {
    match e
    case Reserve(min, max) => ReserveCovers(b, min, max);
    case Clawback(i) =>
      if i < |b.earnings| {
        ClawbackCovers(b, i);
      }
    case Approve(i) =>
      if i < |b.earnings| {
        ApprovalCovers(b, i);
      }
    case Confirm =>
    case Fail =>
    case PayoutReversed(_) =>
    case RejectReview(_) =>
    case _ => AccrualCovers(b, e);
  }

  ghost predicate AlwaysCovered(b: Book, es: seq<Event>) {
    && Covered(After(b, es))
    && (es != [] ==> AlwaysCovered(b, es[..|es| - 1]))
  }

  ghost predicate NeverOverdrawn(b: Book, es: seq<Event>) {
    es != [] ==> NeverOverdrawn(b, es[..|es| - 1]) && !Overdraws(After(b, es[..|es| - 1]), es[|es| - 1])
  }

  /**
   Over every sequence of accruals, payouts, clawbacks and approvals, the payable amount covers what is
   promised at every point, and so is never negative, if and only if no approval took more than that.
   Clawbacks cannot break it: they are refused while a payout is in flight.
   */
  lemma {:induction false} PromisesAreCovered(b: Book, es: seq<Event>)
    requires Covered(b)
    ensures AlwaysCovered(b, es) <==> NeverOverdrawn(b, es)
  {
    if es != [] {
      var before := es[..|es| - 1];
      PromisesAreCovered(b, before);
      if AlwaysCovered(b, before) {
        StepCovers(After(b, before), es[|es| - 1]);
      }
    }
  }

  // ---------------------------------------------------------------- paid earnings stand

  ghost predicate StandsPaid(b: Book, x: Id) {
    x < |b.earnings| && !b.earnings[x].reversed && EarningPaid(b, x)
  }

  /**
   The guards of a clawback: the earning stands and no payout is in flight, no click of the window was
   charged and no review of it is open, as much as was paid is older, and what is left is covered.
   */
  ghost predicate PassesGuards(b: Book, i: Id)
    requires i < |b.earnings|
  {
    var e := b.earnings[i];
    && !e.reversed && b.promised.None?
    && !ClickChargedIn(b.earnings, e.window) && e.window !in b.reviewed
    && b.paid <= OlderSum(b.earnings, e.at)
    && b.paid + MaturedIn(b.earnings, e.window, b.now - b.hold) <= MaturedSum(b.earnings, b.now - b.hold)
  }

  /**
   A clawback goes through exactly when it passes its guards; then every earning of the window is reversed
   and the window has its review, and nothing else changed. One that does not changes nothing.
   */
  lemma ClawsBackExactly(b: Book, i: Id)
    requires i < |b.earnings|
    ensures OpenClawback(b, i).1 == ClawedBack <==> PassesGuards(b, i)
    ensures OpenClawback(b, i).1 != ClawedBack ==> OpenClawback(b, i).0 == b
    ensures OpenClawback(b, i).1 == ClawedBack ==>
              var b', w := OpenClawback(b, i).0, b.earnings[i].window;
              && b' == b.(earnings := b'.earnings, reviewed := b.reviewed + {w})
              && |b'.earnings| == |b.earnings|
              && forall k: Id | k < |b.earnings| ::
                   b'.earnings[k] == if b.earnings[k].window == w then b.earnings[k].(reversed := true) else b.earnings[k]
  {
    ReversedTakes(b.earnings, b.earnings[i].window, b.now - b.hold);
    if PassesGuards(b, i) {
      var b', w := OpenClawback(b, i).0, b.earnings[i].window;
      forall k: Id | k < |b.earnings|
        ensures b'.earnings[k] == if b.earnings[k].window == w then b.earnings[k].(reversed := true) else b.earnings[k]
      {
        assert b.earnings[k].reversed ==> b.earnings[k].(reversed := true) == b.earnings[k];
      }
    }
  }

  /** What takes a paid earning out of the paid tranche, or away: three exceptions, and an approval. */
  ghost predicate Disturbs(b: Book, e: Event, x: Id)
    requires x < |b.earnings|
  {
    var at := b.earnings[x].at;
    match e
    case PayoutReversed(micros) => micros <= b.paid && b.paid - micros <= OlderSum(b.earnings, at)
    case Accrue(y) => !y.reversed && y.at < at && b.paid <= OlderSum(b.earnings, at) + y.micros
    case Clawback(i) =>
      && i < |b.earnings| && b.earnings[i].window == b.earnings[x].window && at < b.earnings[i].at
      && PassesGuards(b, i)
    case Approve(i) => i < |b.earnings| && b.earnings[i].window == b.earnings[x].window
    case _ => false
  }

  lemma {:induction false} ReversedOlder(earnings: seq<Earning>, w: Id, at: nat)
    ensures OlderSum(ReverseWindow(earnings, w), at) <= OlderSum(earnings, at)
  {
    if earnings != [] {
      var last := |earnings| - 1;
      ReversedOlder(earnings[..last], w, at);
      assert ReverseWindow(earnings, w)[..last] == ReverseWindow(earnings[..last], w);
    }
  }

  lemma ClawbackStands(b: Book, i: Id, x: Id)
    requires StandsPaid(b, x) && i < |b.earnings|
    ensures StandsPaid(OpenClawback(b, i).0, x) <==> !Disturbs(b, Clawback(i), x)
  {
    var at := b.earnings[x].at;
    ClawsBackExactly(b, i);
    ReversedOlder(b.earnings, b.earnings[i].window, at);
    if b.earnings[i].at <= at {
      OlderSumMonotone(b.earnings, b.earnings[i].at, at);
    }
  }

  lemma ApprovalStands(b: Book, i: Id, x: Id)
    requires StandsPaid(b, x) && i < |b.earnings|
    ensures StandsPaid(ApproveClawback(b, i), x) <==> !Disturbs(b, Approve(i), x)
  {
    ReversedOlder(b.earnings, b.earnings[i].window, b.earnings[x].at);
  }

  lemma StepStands(b: Book, e: Event, x: Id)
    requires StandsPaid(b, x)
    ensures |b.earnings| <= |Do(b, e).earnings|
    ensures StandsPaid(Do(b, e), x) <==> !Disturbs(b, e, x)
  {
    var at := b.earnings[x].at;
    match e
    case Accrue(y) => assert (b.earnings + [y])[..|b.earnings|] == b.earnings;
    case ChargeClick(i) =>
      if i < |b.earnings| {
        ChargeKeepsSums(b.earnings, i, 0, at);
      }
    case Clawback(i) =>
      if i < |b.earnings| {
        ClawbackStands(b, i, x);
      }
    case Approve(i) =>
      if i < |b.earnings| {
        ApprovalStands(b, i, x);
      }
    case _ =>
  }

  /** The earning stands and is paid at every point of the run. */
  ghost predicate AlwaysPaid(b: Book, es: seq<Event>, x: Id) {
    && StandsPaid(After(b, es), x)
    && (es != [] ==> AlwaysPaid(b, es[..|es| - 1], x))
  }

  /** No step of the run disturbs the earning, each judged by the book it finds. */
  ghost predicate NeverDisturbed(b: Book, es: seq<Event>, x: Id) {
    es != [] ==>
      var before := After(b, es[..|es| - 1]);
      && NeverDisturbed(b, es[..|es| - 1], x)
      && x < |before.earnings| && !Disturbs(before, es[|es| - 1], x)
  }

  /**
   An earning in the paid tranche at some point of a run is standing, and paid, at every later point if
   and only if no later step disturbs it: a payout reversed back past it, an older earning cleared late,
   its window clawed back for a younger impression, or its window's review approved.
   */
  lemma {:induction false} PaidEarningsStand(b: Book, es: seq<Event>, x: Id)
    requires StandsPaid(b, x)
    ensures AlwaysPaid(b, es, x) <==> NeverDisturbed(b, es, x)
  {
    if es != [] {
      var before := es[..|es| - 1];
      PaidEarningsStand(b, before, x);
      if AlwaysPaid(b, before, x) {
        StepStands(After(b, before), es[|es| - 1], x);
      }
    }
  }

  // ---------------------------------------------------------------- where it falls short

  const NOTHING := Book([], 0, None, 0, 0, {})
  const OLD := Earning(1, 10, 10000, false, false, false)
  const YOUNG := Earning(2, 20, 10000, false, false, false)

  /** The first earning clears, matures and is paid in full; then the others clear. */
  function PaidFirst(first: Earning, others: seq<Event>): seq<Event> {
    [Accrue(first)] + [Tick(50)] + [Reserve(1, 1000000)] + [Confirm] + others
  }

  lemma PaidFirstReached(first: Earning)
    requires !first.reversed && first.micros == 10000 && first.at <= 50
    ensures After(NOTHING, PaidFirst(first, [])) == Book([first], 10000, None, 0, 50, {})
  {
    var one := [first];
    assert [] + one == one && one[..0] == [];
    AfterMore(NOTHING, [], Accrue(first));
    assert [] + [Accrue(first)] == [Accrue(first)];
    AfterMore(NOTHING, [Accrue(first)], Tick(50));
    AfterMore(NOTHING, [Accrue(first)] + [Tick(50)], Reserve(1, 1000000));
    assert MaturedSum(one, 50) == 10000;
    AfterMore(NOTHING, [Accrue(first)] + [Tick(50)] + [Reserve(1, 1000000)], Confirm);
    assert PaidFirst(first, []) == [Accrue(first)] + [Tick(50)] + [Reserve(1, 1000000)] + [Confirm];
  }

  const TWO := Book([OLD, YOUNG], 10000, None, 0, 50, {})

  lemma TwoReached()
    ensures After(NOTHING, PaidFirst(OLD, [Accrue(YOUNG)])) == TWO
  {
    PaidFirstReached(OLD);
    AfterMore(NOTHING, PaidFirst(OLD, []), Accrue(YOUNG));
    assert PaidFirst(OLD, []) + [Accrue(YOUNG)] == PaidFirst(OLD, [Accrue(YOUNG)]);
    assert [OLD] + [YOUNG] == [OLD, YOUNG];
  }

  lemma TwoEarnings(x: Earning, y: Earning, at: nat, cutoff: int)
    ensures OlderSum([x, y], at) == (if !x.reversed && x.at < at then x.micros else 0) + (if !y.reversed && y.at < at then y.micros else 0)
    ensures MaturedSum([x, y], cutoff)
            == (if !x.reversed && x.at <= cutoff then x.micros else 0) + (if !y.reversed && y.at <= cutoff then y.micros else 0)
  {
    var both, one := [x, y], [x];
    assert both[..1] == one && one[..0] == [];
    assert OlderSum(one, at) == if !x.reversed && x.at < at then x.micros else 0;
    assert MaturedSum(one, cutoff) == if !x.reversed && x.at <= cutoff then x.micros else 0;
  }

  /** The aggregate check alone would let a wholly paid earning be reversed; the watermark refuses it. */
  lemma AggregateAloneIsNotEnough()
    ensures After(NOTHING, PaidFirst(OLD, [Accrue(YOUNG)])) == TWO
    ensures EarningPaid(TWO, 0) && Payable(ApproveClawback(TWO, 0)) >= 0
    ensures OpenClawback(TWO, 0) == (TWO, EarningAlreadyPaid)
  {
    TwoReached();
    var after := ReverseWindow(TWO.earnings, 1);
    TwoEarnings(OLD, YOUNG, 10, 50);
    assert after == [OLD.(reversed := true), YOUNG];
    TwoEarnings(OLD.(reversed := true), YOUNG, 10, 50);
  }

  const CLICK := Earning(1, 10, 10000, true, false, false)
  const LATER := Earning(1, 20, 10000, false, false, false)
  const OTHER := Earning(2, 15, 10000, false, false, false)
  const SIBLINGS := Book([CLICK, LATER, OTHER], 10000, None, 0, 50, {})

  lemma SiblingsReached()
    ensures After(NOTHING, PaidFirst(CLICK, [Accrue(LATER), Accrue(OTHER)])) == SIBLINGS
  {
    PaidFirstReached(CLICK);
    AfterMore(NOTHING, PaidFirst(CLICK, []), Accrue(LATER));
    AfterMore(NOTHING, PaidFirst(CLICK, []) + [Accrue(LATER)], Accrue(OTHER));
    assert PaidFirst(CLICK, []) + [Accrue(LATER)] + [Accrue(OTHER)] == PaidFirst(CLICK, [Accrue(LATER), Accrue(OTHER)]);
    assert [CLICK] + [LATER] + [OTHER] == [CLICK, LATER, OTHER];
  }

  /** A click older than its window's impression can be wholly paid and is reversed with the impression. */
  lemma OlderSiblingSlipsThrough()
    ensures After(NOTHING, PaidFirst(CLICK, [Accrue(LATER), Accrue(OTHER)])) == SIBLINGS
    ensures OpenClawback(SIBLINGS, 1).1 == ClawedBack
    ensures EarningPaid(SIBLINGS, 0) && OpenClawback(SIBLINGS, 1).0.earnings[0].reversed
  {
    SiblingsReached();
    var es := SIBLINGS.earnings;
    assert es[..2] == [CLICK, LATER];
    TwoEarnings(CLICK, LATER, 20, 50);
    TwoEarnings(CLICK, LATER, 10, 50);
    var after := ReverseWindow(es, 1);
    var c, l := CLICK.(reversed := true), LATER.(reversed := true);
    assert after == [c, l, OTHER];
    assert after[..2] == [c, l];
    TwoEarnings(c, l, 20, 50);
  }

  const PAID_OUT := Book([OLD], 10000, None, 0, 50, {})

  /** The review path has no such guard: approving the review of a paid earning leaves the publisher owing. */
  lemma ApprovalCanOverdraw()
    ensures After(NOTHING, PaidFirst(OLD, [])) == PAID_OUT
    ensures Payable(PAID_OUT) == 0 && Payable(ApproveClawback(PAID_OUT, 0)) == -10000
  {
    PaidFirstReached(OLD);
    var one, after := [OLD], ReverseWindow([OLD], 1);
    assert one[..0] == [] && after == [OLD.(reversed := true)] && after[..0] == [];
    assert MaturedSum(one, 50) == 10000;
    assert MaturedSum(after, 50) == 0;
  }
}
