/**
 What the deposit webhook books over a whole schedule of deliveries: the handler looks the deposit up
 before it reverses anything, so what counts is which reversals were handled after their credit.
 */
module DepositBooks {
  import opened Basics
  import opened Deliveries
  import opened Prepay
  import opened PrepayHolds

  /** The accounts by advertiser; one without an entry has not been opened. */
  type Books = map<Id, Account>

  /** What an event tells the deposit webhook. A dispute without an amount means the whole deposit. */
  datatype Notice =
    | Credit(advertiser: Id, pi: Id, micros: nat)
    | Refund(pi: Id, cumulative: nat)
    | Chargeback(pi: Id, dispute: Id, micros: nat)
    | NoEffect

  /** Anything else that happens to an account. */
  datatype Move = Move(advertiser: Id, event: Event)

  function AccountIn(books: Books, a: Id): Account {
    if a in books then books[a] else OPENING
  }

  predicate HasDeposit(books: Books, a: Id, pi: Id) {
    a in books && pi in books[a].deposits
  }

  predicate IsDisputed(books: Books, d: Id) {
    exists a <- books :: d in books[a].disputes
  }

  /** The advertiser of the deposit row with that PaymentIntent. */
  ghost function Owner(books: Books, pi: Id): (owner: Option<Id>)
    ensures owner.Some? ==> HasDeposit(books, owner.value, pi)
    ensures owner.None? ==> forall a: Id :: !HasDeposit(books, a, pi)
  {
    if exists a: Id :: HasDeposit(books, a, pi) then
      var a: Id :| HasDeposit(books, a, pi);
      Some(a)
    else None
  }

  function Book(books: Books, a: Id, e: Event): Books {
    if Legal(AccountIn(books, a), e) then books[a := Next(AccountIn(books, a), e)] else books
  }

  /** The webhook's handler: the credit goes to the intent's advertiser, a reversal to the deposit's, if there is one. */
  ghost function Handle(books: Books, n: Notice): Books {
    match n
    case Credit(a, pi, micros) => if Owner(books, pi).Some? then books else Book(books, a, Deposit(pi, micros))
    case Refund(pi, cumulative) =>
      if Owner(books, pi).None? || cumulative == 0 then books
      else Book(books, Owner(books, pi).value, RefundDeposit(pi, cumulative))
    case Chargeback(pi, d, micros) =>
      if Owner(books, pi).None? || IsDisputed(books, d) then books
      else
        var o := Owner(books, pi).value;
        Book(books, o, Dispute(d, if micros > 0 then micros else books[o].deposits[pi]))
    case NoEffect => books
  }

  /** Draws, windows, clawbacks and adjustments; they touch no deposit, refund or dispute row. */
  function Moved(books: Books, m: Move): Books {
    if m.event.Deposit? || m.event.RefundDeposit? || m.event.Dispute? then books
    else Book(books, m.advertiser, m.event)
  }

  // ---------------------------------------------------------------- books in order

  /** One account per deposit and per dispute, refunds only of deposits, and every ledger in order. */
  ghost predicate Sound(books: Books) {
    && (forall a: Id, b: Id, pi: Id :: HasDeposit(books, a, pi) && HasDeposit(books, b, pi) ==> a == b)
    && (forall a <- books :: Inv(books[a]) && BookedAsRecorded(books[a]))
    && (forall a <- books, pi <- books[a].refunded :: pi in books[a].deposits)
    && (forall a <- books, pi <- books[a].deposits :: books[a].deposits[pi] > 0)
  }

  lemma AccountIsInOrder(books: Books, a: Id)
    requires Sound(books)
    ensures Inv(AccountIn(books, a)) && BookedAsRecorded(AccountIn(books, a))
  {
    if a !in books {
      OpeningInOrder();
    }
  }

  lemma OpeningHasNoRows()
    ensures OPENING.deposits == map[] && OPENING.refunded == map[] && OPENING.disputes == map[]
  {
    OpeningIsEmpty();
  }

  // ---------------------------------------------------------------- three questions to the books

  /** Who was credited for a PaymentIntent, and how much. */
  ghost function Credited(books: Books, pi: Id): Option<(Id, nat)> {
    var o := Owner(books, pi);
    if o.Some? then Some((o.value, books[o.value].deposits[pi])) else None
  }

  /** How much of the deposit was refunded. */
  ghost function Refunded(books: Books, pi: Id): nat {
    var o := Owner(books, pi);
    if o.Some? then Lookup(books[o.value].refunded, pi) else 0
  }

  lemma OwnerIs(books: Books, a: Id, pi: Id)
    requires Sound(books) && HasDeposit(books, a, pi)
    ensures Owner(books, pi) == Some(a)
  {
  }

  lemma BookIsSound(books: Books, a: Id, e: Event)
    requires Sound(books) && Legal(AccountIn(books, a), e)
    requires e.Deposit? ==> Owner(books, e.pi).None?
    requires e.RefundDeposit? ==> HasDeposit(books, a, e.pi)
    ensures Sound(Book(books, a, e))
  {
    var x := AccountIn(books, a);
    AccountIsInOrder(books, a);
    NextKeepsInv(x, e);
    BookStep(x, e);
    EventRows(x, e);
    OpeningHasNoRows();
    RowsStaySound(books, a, Next(x, e), e);
  }

  lemma OwnersStayApart(books: Books, a: Id, y: Account, e: Event)
    requires Sound(books) && RowsFollow(AccountIn(books, a), y, e)
    requires OPENING.deposits == map[]
    requires e.Deposit? ==> Owner(books, e.pi).None?
    ensures var after := books[a := y];
            forall b: Id, c: Id, pi: Id :: HasDeposit(after, b, pi) && HasDeposit(after, c, pi) ==> b == c
  {
    var after := books[a := y];
    forall b: Id, pi: Id | HasDeposit(after, b, pi)
      ensures HasDeposit(books, b, pi) || (e.Deposit? && b == a && pi == e.pi)
    {
    }
  }

  lemma RowsStaySound(books: Books, a: Id, y: Account, e: Event)
    requires Sound(books) && RowsFollow(AccountIn(books, a), y, e) && Inv(y) && BookedAsRecorded(y)
    requires OPENING.deposits == map[] && OPENING.refunded == map[]
    requires e.Deposit? ==> Owner(books, e.pi).None? && e.micros > 0
    requires e.RefundDeposit? ==> HasDeposit(books, a, e.pi)
    ensures Sound(books[a := y])
  {
    OwnersStayApart(books, a, y, e);
    var x := AccountIn(books, a);
    assert forall pi <- x.refunded :: pi in x.deposits;
    assert forall pi <- x.deposits :: x.deposits[pi] > 0;
  }

  /** What booking one event does to the answers. */
  lemma BookAnswers(books: Books, a: Id, e: Event, pi: Id, d: Id)
    requires Sound(books) && Legal(AccountIn(books, a), e) && Sound(Book(books, a, e))
    requires e.Deposit? ==> Owner(books, e.pi).None?
    ensures var after := Book(books, a, e);
            && Credited(after, pi) == (if e.Deposit? && e.pi == pi then Some((a, e.micros)) else Credited(books, pi))
            && (e.Deposit? && e.pi == pi ==> Refunded(after, pi) == 0)
            && (HasDeposit(books, a, pi) && e.RefundDeposit? && e.pi == pi ==>
                  Refunded(after, pi) == if e.cumulative > Refunded(books, pi) then e.cumulative else Refunded(books, pi))
            && (!(e.RefundDeposit? && e.pi == pi) && !(e.Deposit? && e.pi == pi) ==> Refunded(after, pi) == Refunded(books, pi))
            && (IsDisputed(after, d) <==> IsDisputed(books, d) || (e.Dispute? && e.dispute == d))
  {
    var x := AccountIn(books, a);
    EventRows(x, e);
    OpeningHasNoRows();
    var after := Book(books, a, e);
    assert after == books[a := Next(x, e)];
    DepositsFollow(books, a, Next(x, e), e, pi);
    DisputesFollow(books, a, Next(x, e), e, d);
  }

  lemma DepositsFollow(books: Books, a: Id, y: Account, e: Event, pi: Id)
    requires Sound(books) && Sound(books[a := y]) && RowsFollow(AccountIn(books, a), y, e)
    requires OPENING.deposits == map[] && OPENING.refunded == map[]
    requires e.Deposit? ==> Owner(books, e.pi).None?
    ensures var after := books[a := y];
            && Credited(after, pi) == (if e.Deposit? && e.pi == pi then Some((a, e.micros)) else Credited(books, pi))
            && (e.Deposit? && e.pi == pi ==> Refunded(after, pi) == 0)
            && (HasDeposit(books, a, pi) && e.RefundDeposit? && e.pi == pi ==>
                  Refunded(after, pi) == if e.cumulative > Refunded(books, pi) then e.cumulative else Refunded(books, pi))
            && (!(e.RefundDeposit? && e.pi == pi) && !(e.Deposit? && e.pi == pi) ==> Refunded(after, pi) == Refunded(books, pi))
  {
    var after := books[a := y];
    assert HasDeposit(after, a, pi) <==> pi in y.deposits;
    forall b: Id | b != a ensures HasDeposit(after, b, pi) <==> HasDeposit(books, b, pi) {
    }
    assert HasDeposit(books, a, pi) <==> pi in AccountIn(books, a).deposits;
  }

  lemma DisputesFollow(books: Books, a: Id, y: Account, e: Event, d: Id)
    requires RowsFollow(AccountIn(books, a), y, e) && OPENING.disputes == map[]
    ensures IsDisputed(books[a := y], d) <==> IsDisputed(books, d) || (e.Dispute? && e.dispute == d)
  {
    var after := books[a := y];
    assert d in y.disputes <==> d in AccountIn(books, a).disputes || (e.Dispute? && e.dispute == d);
    if IsDisputed(books, d) {
      var b :| b in books && d in books[b].disputes;
      assert b in after && d in after[b].disputes;
    }
    assert d in y.disputes ==> a in after && d in after[a].disputes;
  }

  /** The answers after a notice was handled. */
  ghost function CreditedAfter(books: Books, n: Notice, pi: Id): Option<(Id, nat)> {
    if n.Credit? && n.pi == pi && n.micros > 0 && Credited(books, pi).None? then Some((n.advertiser, n.micros))
    else Credited(books, pi)
  }

  ghost function RefundedAfter(books: Books, n: Notice, pi: Id): nat {
    if n.Refund? && n.pi == pi && Credited(books, pi).Some? && n.cumulative > Refunded(books, pi) then n.cumulative
    else Refunded(books, pi)
  }

  ghost predicate DisputedAfter(books: Books, n: Notice, d: Id) {
    IsDisputed(books, d) || (n.Chargeback? && n.dispute == d && Credited(books, n.pi).Some?)
  }

  /** The answers follow the notice. */
  ghost predicate AnswersFollow(books: Books, n: Notice, pi: Id, d: Id) {
    var after := Handle(books, n);
    && Sound(after)
    && Credited(after, pi) == CreditedAfter(books, n, pi)
    && Refunded(after, pi) == RefundedAfter(books, n, pi)
    && (IsDisputed(after, d) <==> DisputedAfter(books, n, d))
  }

  lemma FirstCreditAnswers(books: Books, a: Id, q: Id, micros: nat, pi: Id, d: Id)
    requires Sound(books) && Owner(books, q).None? && micros > 0
    ensures AnswersFollow(books, Credit(a, q, micros), pi, d)
  {
    BookIsSound(books, a, Deposit(q, micros));
    BookAnswers(books, a, Deposit(q, micros), pi, d);
    assert Credited(books, q).None?;
  }

  lemma CreditAnswers(books: Books, n: Notice, pi: Id, d: Id)
    requires Sound(books) && n.Credit?
    ensures AnswersFollow(books, n, pi, d)
  {
    if Owner(books, n.pi).None? && n.micros > 0 {
      FirstCreditAnswers(books, n.advertiser, n.pi, n.micros, pi, d);
    }
  }

  lemma RefundAnswers(books: Books, n: Notice, pi: Id, d: Id)
    requires Sound(books) && n.Refund?
    ensures AnswersFollow(books, n, pi, d)
  {
    if Owner(books, n.pi).Some? && n.cumulative > 0 {
      var o := Owner(books, n.pi).value;
      BookIsSound(books, o, RefundDeposit(n.pi, n.cumulative));
      BookAnswers(books, o, RefundDeposit(n.pi, n.cumulative), pi, d);
    }
  }

  lemma ChargebackAnswers(books: Books, n: Notice, pi: Id, d: Id)
    requires Sound(books) && n.Chargeback?
    ensures AnswersFollow(books, n, pi, d)
  {
    if Owner(books, n.pi).Some? && !IsDisputed(books, n.dispute) {
      var o := Owner(books, n.pi).value;
      var e := Dispute(n.dispute, if n.micros > 0 then n.micros else books[o].deposits[n.pi]);
      BookIsSound(books, o, e);
      BookAnswers(books, o, e, pi, d);
    }
  }

  lemma HandleAnswers(books: Books, n: Notice, pi: Id, d: Id)
    requires Sound(books)
    ensures AnswersFollow(books, n, pi, d)
  {
    match n
    case Credit(_, _, _) => CreditAnswers(books, n, pi, d);
    case Refund(_, _) => RefundAnswers(books, n, pi, d);
    case Chargeback(_, _, _) => ChargebackAnswers(books, n, pi, d);
    case NoEffect =>
  }

  lemma MovedAnswers(books: Books, m: Move, pi: Id, d: Id)
    requires Sound(books)
    ensures Sound(Moved(books, m))
    ensures Credited(Moved(books, m), pi) == Credited(books, pi)
    ensures Refunded(Moved(books, m), pi) == Refunded(books, pi)
    ensures IsDisputed(Moved(books, m), d) <==> IsDisputed(books, d)
  {
    if !m.event.Deposit? && !m.event.RefundDeposit? && !m.event.Dispute? && Legal(AccountIn(books, m.advertiser), m.event) {
      BookIsSound(books, m.advertiser, m.event);
      BookAnswers(books, m.advertiser, m.event, pi, d);
    }
  }

  /** When handling a notice changes the books. */
  ghost predicate Changes(books: Books, n: Notice) {
    match n
    case Credit(_, pi, micros) => micros > 0 && Credited(books, pi).None?
    case Refund(pi, cumulative) => Credited(books, pi).Some? && cumulative > Refunded(books, pi)
    case Chargeback(pi, d, _) => Credited(books, pi).Some? && !IsDisputed(books, d)
    case NoEffect => false
  }

  /** A refund already covered books nothing. */
  lemma CoveredRefund(books: Books, o: Id, pi: Id, cumulative: nat)
    requires o in books && HasRow(books[o]) && cumulative <= Lookup(books[o].refunded, pi)
    ensures Book(books, o, RefundDeposit(pi, cumulative)) == books
  {
    assert Next(books[o], RefundDeposit(pi, cumulative)) == RefundUpTo(books[o], pi, cumulative);
    assert books[o := books[o]] == books;
  }

  lemma NoChange(books: Books, n: Notice)
    requires Sound(books) && !Changes(books, n)
    ensures Handle(books, n) == books
  {
    if n.Refund? && Owner(books, n.pi).Some? {
      var o := Owner(books, n.pi).value;
      assert CashFrom(books[o].ledger, DepositOf(n.pi)) == books[o].deposits[n.pi];
      CoveredRefund(books, Owner(books, n.pi).value, n.pi, n.cumulative);
    }
  }

  lemma HandleChangesExactly(books: Books, n: Notice)
    requires Sound(books)
    ensures Handle(books, n) != books <==> Changes(books, n)
  {
    if Changes(books, n) {
      HandleAnswers(books, n, n.pi, if n.Chargeback? then n.dispute else 0);
    } else {
      NoChange(books, n);
    }
  }

  // ---------------------------------------------------------------- a schedule, by its deliveries alone

  ghost function At(turns: seq<Turn<Notice, Move>>): Desk<Books> {
    After(Handle, Moved, map[], turns)
  }

  /** The notice the last turn handled, if it handled one. */
  ghost function Took(turns: seq<Turn<Notice, Move>>): Notice
    requires turns != []
  {
    var t := turns[|turns| - 1];
    if t.Arrive? && ReplyTo(At(turns[..|turns| - 1]).rows, t.delivery) == HandledNow then t.delivery.notice else NoEffect
  }

  /** The first credit handled for a PaymentIntent. */
  ghost function FirstCredit(turns: seq<Turn<Notice, Move>>, pi: Id): Option<(Id, nat)> {
    if turns == [] then None
    else
      var earlier, n := FirstCredit(turns[..|turns| - 1], pi), Took(turns);
      if earlier.None? && n.Credit? && n.pi == pi && n.micros > 0 then Some((n.advertiser, n.micros)) else earlier
  }

  /** The largest cumulative refund handled once the deposit was credited. */
  ghost function MaxAfterCredit(turns: seq<Turn<Notice, Move>>, pi: Id): nat {
    if turns == [] then 0
    else
      var before, n := turns[..|turns| - 1], Took(turns);
      var earlier := MaxAfterCredit(before, pi);
      if n.Refund? && n.pi == pi && FirstCredit(before, pi).Some? && n.cumulative > earlier then n.cumulative else earlier
  }

  /** A dispute was handled once its deposit was credited. */
  ghost predicate DisputedInTime(turns: seq<Turn<Notice, Move>>, d: Id) {
    if turns == [] then false
    else
      var before, n := turns[..|turns| - 1], Took(turns);
      DisputedInTime(before, d) || (n.Chargeback? && n.dispute == d && FirstCredit(before, n.pi).Some?)
  }

  lemma OpeningBooks(pi: Id, d: Id)
    ensures Sound(map[]) && Credited(map[], pi).None? && Refunded(map[], pi) == 0 && !IsDisputed(map[], d)
  {
  }

  /** The books' answers are those of the deliveries alone. */
  ghost predicate Follows(turns: seq<Turn<Notice, Move>>, pi: Id, d: Id) {
    var books := At(turns).state;
    && Sound(books)
    && Credited(books, pi) == FirstCredit(turns, pi)
    && Refunded(books, pi) == MaxAfterCredit(turns, pi)
    && (IsDisputed(books, d) <==> DisputedInTime(turns, d))
  }

  /** An arrival leads where handling what it took leads. */
  lemma ArrivalHandles(turns: seq<Turn<Notice, Move>>)
    requires turns != [] && turns[|turns| - 1].Arrive?
    ensures At(turns).state == Handle(At(turns[..|turns| - 1]).state, Took(turns))
  {
  }

  lemma DeliveryFollows(turns: seq<Turn<Notice, Move>>, pi: Id, d: Id)
    requires turns != []
    requires var before, n := turns[..|turns| - 1], Took(turns);
             && Follows(before, pi, d) && (n.Chargeback? ==> Follows(before, n.pi, d))
             && At(turns).state == Handle(At(before).state, n) && AnswersFollow(At(before).state, n, pi, d)
    ensures Follows(turns, pi, d)
  {
  }

  lemma {:induction false} BooksFollowDeliveries(turns: seq<Turn<Notice, Move>>, pi: Id, d: Id)
    ensures Follows(turns, pi, d)
  {
    if turns == [] {
      OpeningBooks(pi, d);
    } else {
      var before, t := turns[..|turns| - 1], turns[|turns| - 1];
      BooksFollowDeliveries(before, pi, d);
      match t
      case Other(m) => MovedAnswers(At(before).state, m, pi, d);
      case Arrive(x) =>
        if x.notice.Chargeback? {
          BooksFollowDeliveries(before, x.notice.pi, d);
        }
        ArrivalHandles(turns);
        HandleAnswers(At(before).state, Took(turns), pi, d);
        DeliveryFollows(turns, pi, d);
    }
  }

  /**
   For every schedule: a deposit is in the books exactly when a credit for it was handled, to the first
   one's advertiser and at its amount, booked once; and the refunds booked on it total the largest
   cumulative amount handled after the credit. What was handled before it is not among them.
   */
  lemma RefundsConverge(turns: seq<Turn<Notice, Move>>, a: Id, pi: Id)
    ensures HasDeposit(At(turns).state, a, pi) <==> FirstCredit(turns, pi).Some? && FirstCredit(turns, pi).value.0 == a
    ensures HasDeposit(At(turns).state, a, pi) ==>
              var ledger := At(turns).state[a].ledger;
              && CashFrom(ledger, DepositOf(pi)) == FirstCredit(turns, pi).value.1
              && CashFrom(ledger, RefundOf(pi)) + MaxAfterCredit(turns, pi) == 0
  {
    BooksFollowDeliveries(turns, pi, 0);
    if HasDeposit(At(turns).state, a, pi) {
      OwnerIs(At(turns).state, a, pi);
    }
  }

  // ---------------------------------------------------------------- once, exactly

  /** The same event says the same at every delivery. */
  predicate Consistent(turns: seq<Turn<Notice, Move>>) {
    forall i: nat, j: nat | i < j < |turns| && turns[i].Arrive? && turns[j].Arrive? && turns[i].delivery.key == turns[j].delivery.key ::
      turns[i].delivery.notice == turns[j].delivery.notice
  }

  /**
   The last turn handles again a reversal that was handled too early: its deposit is credited by now, and
   nothing that covers it was handled since.
   */
  ghost predicate LateReversal(turns: seq<Turn<Notice, Move>>) {
    turns != [] &&
      var before, t := turns[..|turns| - 1], turns[|turns| - 1];
      && Repeats(At(before), t)
      && match t.delivery.notice
         case Refund(pi, cumulative) => FirstCredit(before, pi).Some? && cumulative > MaxAfterCredit(before, pi)
         case Chargeback(pi, d, _) => FirstCredit(before, pi).Some? && !DisputedInTime(before, d)
         case _ => false
  }

  ghost predicate NoLateReversal(turns: seq<Turn<Notice, Move>>) {
    turns != [] ==> NoLateReversal(turns[..|turns| - 1]) && !LateReversal(turns)
  }

  /** A credit that was handled is in the books. */
  lemma {:induction false} HandledCreditIsBooked(turns: seq<Turn<Notice, Move>>, t: Turn<Notice, Move>)
    requires Consistent(turns + [t]) && t.Arrive? && t.delivery.key in At(turns).handled
    requires t.delivery.notice.Credit? && t.delivery.notice.micros > 0
    ensures FirstCredit(turns, t.delivery.notice.pi).Some?
  {
    var before, last := turns[..|turns| - 1], turns[|turns| - 1];
    if t.delivery.key in At(before).handled {
      ConsistentWithout(turns, t);
      HandledCreditIsBooked(before, t);
    } else {
      assert last.Arrive? && last.delivery.key == t.delivery.key;
      assert (turns + [t])[|turns| - 1] == last && (turns + [t])[|turns|] == t;
      assert Took(turns) == t.delivery.notice;
    }
  }

  lemma ConsistentWithout(turns: seq<Turn<Notice, Move>>, t: Turn<Notice, Move>)
    requires turns != [] && Consistent(turns + [t])
    ensures Consistent(turns[..|turns| - 1] + [t])
  {
    var all, fewer := turns + [t], turns[..|turns| - 1] + [t];
    assert forall i: nat | i < |turns| - 1 :: fewer[i] == all[i];
    assert fewer[|turns| - 1] == all[|turns|];
  }

  lemma ConsistentPrefix(turns: seq<Turn<Notice, Move>>)
    requires turns != [] && Consistent(turns)
    ensures Consistent(turns[..|turns| - 1])
  {
    assert forall i: nat | i < |turns| - 1 :: turns[..|turns| - 1][i] == turns[i];
  }

  lemma {:induction false} RepeatsAreLateReversals(turns: seq<Turn<Notice, Move>>)
    requires Consistent(turns)
    ensures RepeatsChangeNothing(Handle, Moved, map[], turns) <==> NoLateReversal(turns)
  {
    if turns != [] {
      var before, t := turns[..|turns| - 1], turns[|turns| - 1];
      ConsistentPrefix(turns);
      RepeatsAreLateReversals(before);
      if Repeats(At(before), t) {
        RepeatChangesExactly(before, t);
      }
    }
  }

  lemma RepeatChangesExactly(before: seq<Turn<Notice, Move>>, t: Turn<Notice, Move>)
    requires Consistent(before + [t]) && Repeats(At(before), t)
    ensures Handle(At(before).state, t.delivery.notice) != At(before).state <==> LateReversal(before + [t])
  {
    var n := t.delivery.notice;
    assert (before + [t])[..|before|] == before;
    BooksFollowDeliveries(before, 0, 0);
    HandleChangesExactly(At(before).state, n);
    match n
    case Credit(_, pi, micros) =>
      BooksFollowDeliveries(before, pi, 0);
      if micros > 0 {
        HandledCreditIsBooked(before, t);
      }
    case Refund(pi, _) => BooksFollowDeliveries(before, pi, 0);
    case Chargeback(pi, d, _) => BooksFollowDeliveries(before, pi, d);
    case NoEffect =>
  }

  /**
   For every schedule of deliveries, with missed checks, failing handlers, lost records and any other
   movement of the accounts in between: the books are at every point those of handling each event once, if
   and only if no reversal handled too early was handled again after its credit.
   */
  lemma DepositsOnceExactly(turns: seq<Turn<Notice, Move>>)
    requires Consistent(turns)
    ensures AlwaysOnce(Handle, Moved, map[], turns) <==> NoLateReversal(turns)
  {
    OnceExactly(Handle, Moved, map[], turns);
    RepeatsAreLateReversals(turns);
  }
}
