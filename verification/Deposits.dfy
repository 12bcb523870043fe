/** The advertiser portal: handing out checkout URLs, and the deposit webhook that credits what was captured. */
module Deposits {
  import opened Basics
  import opened Deliveries
  import opened DepositBooks
  import Prepay
  import PrepayHolds

  const MIN_DEPOSIT_MICROS: nat := 5000000
  const MAX_DEPOSIT_MICROS: nat := 5000000000

  /** A Checkout session at Stripe; pi is set once its payment was captured. */
  datatype Session = Session(advertiser: Id, cents: nat, pi: Option<Id>)

  /** The server-stored authority for who is credited and how much. */
  datatype TopupIntent = TopupIntent(advertiser: Id, micros: nat)

  datatype StripeEvent =
    | SessionCompleted(session: Id, paid: bool, pi: Option<Id>)
    | ChargeRefunded(pi: Option<Id>, refundedCents: nat)
    | ChargeDisputed(pi: Option<Id>, dispute: Id, disputedCents: nat)
    | Unrelated

  datatype CheckoutReply = InvalidAmount | OutOfRange | NotWholeCents | CheckoutError | NotRecorded | Url(session: Id)

  /** Math.trunc: toward zero. */
  function Trunc(x: real): int {
    if x >= 0.0 then x.Floor else -((-x).Floor)
  }

  /** The requested micros, with what lies behind the point dropped, are so many whole cents. */
  predicate ComesTo(requested: real, cents: nat) {
    (cents * 10000) as real <= requested < (cents * 10000) as real + 1.0
  }

  lemma TruncIsWhole(requested: real)
    ensures requested >= 0.0 ==> Trunc(requested) as real <= requested < Trunc(requested) as real + 1.0
    ensures Trunc(requested) <= 0 <==> requested < 1.0
    ensures forall cents: nat :: ComesTo(requested, cents) ==> Trunc(requested) == cents * 10000
    ensures Trunc(requested) >= 0 && Trunc(requested) % 10000 == 0 && requested >= 0.0 ==> ComesTo(requested, Trunc(requested) / 10000)
  {
  }

  // ---------------------------------------------------------------- what an event says

  /** evaluateDepositEvent and the reversal branches, with the intent looked up for a credit. */
  function NoticeOf(intents: map<Id, TopupIntent>, e: StripeEvent): Notice {
    match e
    case SessionCompleted(s, paid, pi) =>
      if paid && pi.Some? && s in intents then Credit(intents[s].advertiser, pi.value, intents[s].micros) else NoEffect
    case ChargeRefunded(pi, cents) => if pi.Some? && cents > 0 then Refund(pi.value, cents * MICROS_PER_CENT) else NoEffect
    case ChargeDisputed(pi, d, cents) => if pi.Some? then Chargeback(pi.value, d, cents * MICROS_PER_CENT) else NoEffect
    case Unrelated => NoEffect
  }

  /** A handed-out session has its intent stored, with its advertiser and its exact amount. */
  ghost predicate IntentsOk(sessions: seq<Session>, handed: set<Id>, intents: map<Id, TopupIntent>) {
    && (forall s <- handed :: s in intents)
    && (forall s <- intents ::
          && s < |sessions|
          && intents[s] == TopupIntent(sessions[s].advertiser, sessions[s].cents * MICROS_PER_CENT)
          && MIN_DEPOSIT_MICROS <= intents[s].micros <= MAX_DEPOSIT_MICROS)
  }

  /** Only handed-out sessions can be paid, each by its own PaymentIntent. */
  ghost predicate SessionsOk(sessions: seq<Session>, handed: set<Id>, captured: nat) {
    && (forall s: Id | s < |sessions| && sessions[s].pi.Some? :: s in handed && sessions[s].pi.value < captured)
    && (forall s: Id, t: Id | s < |sessions| && t < |sessions| && sessions[s].pi.Some? && sessions[s].pi == sessions[t].pi :: s == t)
  }

  /** A completed and paid event tells which PaymentIntent captured the session. */
  ghost predicate EventsOk(sessions: seq<Session>, events: seq<StripeEvent>) {
    forall e: Id | e < |events| && events[e].SessionCompleted? && events[e].paid && events[e].pi.Some? ::
      events[e].session < |sessions| && sessions[events[e].session].pi == events[e].pi
  }

  /** Every delivery was of an event, to this endpoint, and said what the event says. */
  ghost predicate DeliveriesOk(turns: seq<Turn<Notice, Move>>, intents: map<Id, TopupIntent>, events: seq<StripeEvent>) {
    forall k: nat | k < |turns| && turns[k].Arrive? ::
      var d := turns[k].delivery;
      d.key.endpoint == AdvertiserPortal && d.key.event < |events| && d.notice == NoticeOf(intents, events[d.key.event])
  }

  lemma OneMoreDelivery(
    turns: seq<Turn<Notice, Move>>, intents: map<Id, TopupIntent>, events: seq<StripeEvent>, d: Delivery<Notice>)
    requires DeliveriesOk(turns, intents, events)
    requires d.key.endpoint == AdvertiserPortal && d.key.event < |events| && d.notice == NoticeOf(intents, events[d.key.event])
    ensures DeliveriesOk(turns + [Arrive(d)], intents, events)
  {
  }

  lemma SameEventSaysTheSame(turns: seq<Turn<Notice, Move>>, intents: map<Id, TopupIntent>, events: seq<StripeEvent>)
    requires DeliveriesOk(turns, intents, events)
    ensures Consistent(turns)
  {
  }

  /** A session of that advertiser, captured by that PaymentIntent, for exactly that many micros. */
  ghost predicate CapturedBy(sessions: seq<Session>, s: Id, a: Id, pi: Id, micros: nat) {
    s < |sessions| && sessions[s].advertiser == a && sessions[s].pi == Some(pi) && sessions[s].cents * MICROS_PER_CENT == micros
  }

  lemma {:induction false} CreditsAreCaptures(
    turns: seq<Turn<Notice, Move>>, sessions: seq<Session>, handed: set<Id>, intents: map<Id, TopupIntent>,
    events: seq<StripeEvent>, pi: Id) returns (s: Id)
    requires DeliveriesOk(turns, intents, events) && IntentsOk(sessions, handed, intents) && EventsOk(sessions, events)
    requires FirstCredit(turns, pi).Some?
    ensures CapturedBy(sessions, s, FirstCredit(turns, pi).value.0, pi, FirstCredit(turns, pi).value.1) && s in intents
  {
    var last := |turns| - 1;
    if FirstCredit(turns[..last], pi).Some? {
      assert forall k: nat | k < last :: turns[..last][k] == turns[k];
      s := CreditsAreCaptures(turns[..last], sessions, handed, intents, events, pi);
    } else {
      assert Took(turns) == turns[last].delivery.notice;
      s := events[turns[last].delivery.key.event].session;
    }
  }

  // ---------------------------------------------------------------- what an event books

  /** Only this advertiser's account changed. */
  ghost predicate OnlyAccount(books: Books, books': Books, a: Id) {
    a in books' && books' == books[a := books'[a]]
  }

  /** The balance gave what it held of an amount taken back, and stops at zero. */
  predicate TakenBack(before: Prepay.Account, after: Prepay.Account, micros: nat) {
    after.balance == if before.balance < micros then 0 else before.balance - micros
  }

  /** A paid session with a PaymentIntent no deposit has: its advertiser's, at ten thousand micros a cent. */
  ghost predicate CaptureBooked(sessions: seq<Session>, s: Id, pi: Id, books: Books, books': Books) {
    if exists a: Id :: HasDeposit(books, a, pi) then books' == books
    else
      && s < |sessions|
      && var a, micros := sessions[s].advertiser, sessions[s].cents * 10000;
         && OnlyAccount(books, books', a)
         && HasDeposit(books', a, pi) && books'[a].deposits[pi] == micros
         && books'[a].balance == AccountIn(books, a).balance + micros
  }

  /** A refund of so many cents in all: what is new of it is taken back from the deposit's advertiser. */
  ghost predicate RefundBooked(pi: Id, cents: nat, books: Books, books': Books) {
    && ((forall a: Id :: !HasDeposit(books, a, pi)) ==> books' == books)
    && forall a: Id | HasDeposit(books, a, pi) ::
         var already := PrepayHolds.Lookup(books[a].refunded, pi);
         if cents * 10000 <= already then books' == books
         else
           && OnlyAccount(books, books', a)
           && PrepayHolds.Lookup(books'[a].refunded, pi) == cents * 10000
           && PrepayHolds.CashFrom(books'[a].ledger, Prepay.RefundOf(pi)) + cents * 10000 == 0
           && TakenBack(books[a], books'[a], cents * 10000 - already)
  }

  /** A first dispute: so many cents, or the whole deposit if it names no amount, are taken back. */
  ghost predicate DisputeBooked(pi: Id, dispute: Id, cents: nat, books: Books, books': Books) {
    && ((forall a: Id :: !HasDeposit(books, a, pi)) || IsDisputed(books, dispute) ==> books' == books)
    && forall a: Id | HasDeposit(books, a, pi) && !IsDisputed(books, dispute) ::
         var micros := if cents > 0 then cents * 10000 else books[a].deposits[pi];
         && OnlyAccount(books, books', a)
         && PrepayHolds.Lookup(books'[a].disputes, dispute) == micros
         && PrepayHolds.CashFrom(books'[a].ledger, Prepay.DisputeOf(dispute)) + micros == 0
         && TakenBack(books[a], books'[a], micros)
  }

  /** What a handled event does to the accounts. */
  ghost predicate EventBooked(sessions: seq<Session>, e: StripeEvent, books: Books, books': Books) {
    match e
    case SessionCompleted(s, true, Some(pi)) => CaptureBooked(sessions, s, pi, books, books')
    case ChargeRefunded(Some(pi), cents) => RefundBooked(pi, cents, books, books')
    case ChargeDisputed(Some(pi), d, cents) => DisputeBooked(pi, d, cents, books, books')
    case _ => books' == books
  }

  lemma CaptureBooks(sessions: seq<Session>, intents: map<Id, TopupIntent>, s: Id, pi: Id, books: Books)
    requires Sound(books) && s < |sessions| && s in intents && sessions[s].cents > 0
    requires intents[s] == TopupIntent(sessions[s].advertiser, sessions[s].cents * MICROS_PER_CENT)
    ensures CaptureBooked(sessions, s, pi, books, Handle(books, NoticeOf(intents, SessionCompleted(s, true, Some(pi)))))
  {
    var a, micros := intents[s].advertiser, intents[s].micros;
    if Owner(books, pi).None? {
      assert Handle(books, Credit(a, pi, micros)) == Book(books, a, Prepay.Deposit(pi, micros));
    }
  }

  lemma OwnerIsOf(books: Books, pi: Id)
    requires Sound(books)
    ensures forall a: Id | HasDeposit(books, a, pi) :: Owner(books, pi) == Some(a)
  {
    forall a: Id | HasDeposit(books, a, pi)
      ensures Owner(books, pi) == Some(a)
    {
      OwnerIs(books, a, pi);
    }
  }

  lemma RefundBooks(intents: map<Id, TopupIntent>, pi: Id, cents: nat, books: Books)
    requires Sound(books)
    ensures RefundBooked(pi, cents, books, Handle(books, NoticeOf(intents, ChargeRefunded(Some(pi), cents))))
  {
    var o := Owner(books, pi);
    OwnerIsOf(books, pi);
    if cents == 0 || o.None? {
      assert Handle(books, NoticeOf(intents, ChargeRefunded(Some(pi), cents))) == books;
    } else {
      RefundTakesBack(books, o.value, pi, cents * MICROS_PER_CENT);
    }
  }

  lemma RefundTakesBack(books: Books, a: Id, pi: Id, micros: nat)
    requires Sound(books) && HasDeposit(books, a, pi)
    ensures var books', already := Book(books, a, Prepay.RefundDeposit(pi, micros)), PrepayHolds.Lookup(books[a].refunded, pi);
            if micros <= already then books' == books
            else
              && OnlyAccount(books, books', a)
              && PrepayHolds.Lookup(books'[a].refunded, pi) == micros
              && PrepayHolds.CashFrom(books'[a].ledger, Prepay.RefundOf(pi)) + micros == 0
              && TakenBack(books[a], books'[a], micros - already)
  {
    var e := Prepay.RefundDeposit(pi, micros);
    PrepayHolds.BookStep(books[a], e);
    PrepayHolds.EventRows(books[a], e);
    if micros <= PrepayHolds.Lookup(books[a].refunded, pi) {
      assert PrepayHolds.CashFrom(books[a].ledger, Prepay.DepositOf(pi)) == books[a].deposits[pi];
      CoveredRefund(books, a, pi, micros);
    }
  }

  lemma DisputeBooks(intents: map<Id, TopupIntent>, pi: Id, d: Id, cents: nat, books: Books)
    requires Sound(books)
    ensures DisputeBooked(pi, d, cents, books, Handle(books, NoticeOf(intents, ChargeDisputed(Some(pi), d, cents))))
  {
    OwnerIsOf(books, pi);
    if Owner(books, pi).Some? && !IsDisputed(books, d) {
      var a := Owner(books, pi).value;
      DisputeTakesBack(books, a, d, if cents > 0 then cents * MICROS_PER_CENT else books[a].deposits[pi]);
    }
  }

  lemma DisputeTakesBack(books: Books, a: Id, d: Id, micros: nat)
    requires Sound(books) && a in books && !IsDisputed(books, d) && micros > 0
    ensures var books' := Book(books, a, Prepay.Dispute(d, micros));
            && OnlyAccount(books, books', a)
            && PrepayHolds.Lookup(books'[a].disputes, d) == micros
            && PrepayHolds.CashFrom(books'[a].ledger, Prepay.DisputeOf(d)) + micros == 0
            && TakenBack(books[a], books'[a], micros)
  {
    var e := Prepay.Dispute(d, micros);
    PrepayHolds.BookStep(books[a], e);
    PrepayHolds.EventRows(books[a], e);
    assert d !in books[a].disputes;
  }

  /** Handling what an event tells books what the event says. */
  lemma HandlingBooks(sessions: seq<Session>, handed: set<Id>, intents: map<Id, TopupIntent>, captured: nat,
                      events: seq<StripeEvent>, e: Id, books: Books)
    requires IntentsOk(sessions, handed, intents) && SessionsOk(sessions, handed, captured) && EventsOk(sessions, events)
    requires e < |events| && Sound(books)
    ensures EventBooked(sessions, events[e], books, Handle(books, NoticeOf(intents, events[e])))
  {
    match events[e]
    case SessionCompleted(s, true, Some(pi)) => CaptureBooks(sessions, intents, s, pi, books);
    case ChargeRefunded(Some(pi), cents) => RefundBooks(intents, pi, cents, books);
    case ChargeDisputed(Some(pi), d, cents) => DisputeBooks(intents, pi, d, cents, books);
    case _ =>
  }

  /** The most cents that any refund event of a PaymentIntent, handled when its deposit was credited, says are refunded. */
  ghost function MaxCentsAfterCredit(turns: seq<Turn<Notice, Move>>, events: seq<StripeEvent>, pi: Id): nat {
    if turns == [] then 0
    else
      var before, t := turns[..|turns| - 1], turns[|turns| - 1];
      var earlier := MaxCentsAfterCredit(before, events, pi);
      if t.Arrive? && ReplyTo(At(before).rows, t.delivery) == HandledNow && t.delivery.key.event < |events| then
        match events[t.delivery.key.event]
        case ChargeRefunded(Some(q), cents) =>
          if q == pi && (exists a: Id :: HasDeposit(At(before).state, a, pi)) && cents > earlier then cents else earlier
        case _ => earlier
      else earlier
  }

  lemma {:induction false} MaxIsOfEvents(turns: seq<Turn<Notice, Move>>, intents: map<Id, TopupIntent>, events: seq<StripeEvent>, pi: Id)
    requires DeliveriesOk(turns, intents, events)
    ensures MaxAfterCredit(turns, pi) == MaxCentsAfterCredit(turns, events, pi) * 10000
  {
    if turns != [] {
      var before := turns[..|turns| - 1];
      assert forall k: nat | k < |before| :: before[k] == turns[k];
      MaxIsOfEvents(before, intents, events, pi);
      BooksFollowDeliveries(before, pi, 0);
      CreditedIsDeposit(At(before).state, pi);
    }
  }

  lemma CreditedIsDeposit(books: Books, pi: Id)
    ensures Credited(books, pi).Some? <==> exists a: Id :: HasDeposit(books, a, pi)
  {
  }

  class Portal {
    var sessions: seq<Session>
    var handed: set<Id>
    var intents: map<Id, TopupIntent>
    var accounts: Books
    var events: seq<StripeEvent>
    var captured: nat            // PaymentIntents captured so far; the next one's id
    const dedup: DedupTable      // shared with the other endpoint
    ghost var turns: seq<Turn<Notice, Move>>

    /** The accounts and this endpoint's rows are where the deliveries so far, and the other movements, lead. */
    ghost predicate Valid()
      reads this, dedup
    {
      && IntentsOk(sessions, handed, intents)
      && SessionsOk(sessions, handed, captured)
      && EventsOk(sessions, events)
      && DeliveriesOk(turns, intents, events)
      && accounts == At(turns).state
      && dedup.Own(AdvertiserPortal) == At(turns).rows
    }

    constructor (dedup: DedupTable)
      requires dedup.Own(AdvertiserPortal) == {}
      ensures Valid() && this.dedup == dedup && turns == []
    {
      this.dedup := dedup;
      sessions, handed, intents, accounts, events, captured, turns := [], {}, map[], map[], [], 0, [];
    }

    lemma BooksAreSound()
      requires Valid()
      ensures Sound(accounts)
    {
      BooksFollowDeliveries(turns, 0, 0);
    }

    // -------------------------------------------------------------- checkout

    /**
     POST /funding/checkout: validate, create the session, store the intent, and only then hand out
     the URL. A conflict on insert counts as stored; a fresh session id never conflicts.
     */
    method Checkout(advertiser: Id, requested: real) returns (reply: CheckoutReply)
      requires Valid()
      modifies this
      ensures Valid()
      ensures accounts == old(accounts) && events == old(events) && turns == old(turns)
      ensures reply.InvalidAmount? <==> requested < 1.0
      ensures reply.OutOfRange? <==> 1.0 <= requested < 5000000.0 || requested >= 5000000001.0
      ensures reply.NotWholeCents? <==>
                5000000.0 <= requested < 5000000001.0 && forall cents: nat :: !ComesTo(requested, cents)
      ensures handed == old(handed) + if reply.Url? then {reply.session} else {}
      ensures reply.Url? ==>
                && reply.session == |old(sessions)| && reply.session !in old(handed)
                && |sessions| == |old(sessions)| + 1
                && var cents := sessions[reply.session].cents;
                   && ComesTo(requested, cents)
                   && sessions == old(sessions) + [Session(advertiser, cents, None)]
                   && reply.session in intents && intents[reply.session] == TopupIntent(advertiser, cents * 10000)
    {
      var micros := Trunc(requested);
      TruncIsWhole(requested);
      if micros <= 0 {
        return InvalidAmount;
      }
      if micros < MIN_DEPOSIT_MICROS || micros > MAX_DEPOSIT_MICROS {
        return OutOfRange;
      }
      if micros % MICROS_PER_CENT != 0 {
        return NotWholeCents;
      }
      reply := CreateSession(advertiser, micros);
    }

    /** The session at Stripe, then its intent here, and only then the URL. */
    method CreateSession(advertiser: Id, micros: nat) returns (reply: CheckoutReply)
      requires Valid() && MIN_DEPOSIT_MICROS <= micros <= MAX_DEPOSIT_MICROS && micros % MICROS_PER_CENT == 0
      modifies this
      ensures Valid()
      ensures accounts == old(accounts) && events == old(events) && turns == old(turns)
      ensures reply.CheckoutError? || reply.NotRecorded? || reply.Url?
      ensures handed == old(handed) + if reply.Url? then {reply.session} else {}
      ensures reply.Url? ==>
                && reply.session == |old(sessions)| && reply.session !in old(handed)
                && sessions == old(sessions) + [Session(advertiser, micros / MICROS_PER_CENT, None)]
                && reply.session in intents && intents[reply.session] == TopupIntent(advertiser, micros)
    {
      var created: bool := *;
      if !created {
        return CheckoutError;
      }
      var s := |sessions|;
      sessions := sessions + [Session(advertiser, micros / MICROS_PER_CENT, None)];
      var stored: bool := *;
      if !stored && s !in intents {
        return NotRecorded;
      }
      intents := intents[s := TopupIntent(advertiser, micros)];
      handed := handed + {s};
      return Url(s);
    }

    // -------------------------------------------------------------- Stripe

    /** The advertiser pays at the URL: one capture per session, of the session's amount. */
    method Pay(s: Id)
      requires Valid() && s in handed && sessions[s].pi.None?
      modifies this
      ensures Valid() && captured == old(captured) + 1
      ensures sessions == old(sessions)[s := old(sessions)[s].(pi := Some(old(captured)))]
      ensures accounts == old(accounts) && intents == old(intents) && turns == old(turns)
    {
      sessions := sessions[s := sessions[s].(pi := Some(captured))];
      captured := captured + 1;
    }

    /** Stripe emits an event: a truthful completion, or any refund, dispute or unrelated event. */
    method Emit(e: StripeEvent)
      requires Valid()
      requires e.SessionCompleted? && e.paid && e.pi.Some? ==> e.session < |sessions| && sessions[e.session].pi == e.pi
      modifies this
      ensures Valid() && events == old(events) + [e]
      ensures accounts == old(accounts) && turns == old(turns)
    {
      events := events + [e];
    }

    /** Draws, windows, clawbacks and adjustments of the account. */
    method Happens(a: Id, e: Prepay.Event)
      requires Valid()
      modifies this
      ensures Valid() && accounts == Moved(old(accounts), Move(a, e))
      ensures turns == old(turns) + [Other(Move(a, e))]
    {
      AfterMore(Handle, Moved, map[], turns, Other(Move(a, e)));
      accounts := Moved(accounts, Move(a, e));
      turns := turns + [Other(Move(a, e))];
    }

    // -------------------------------------------------------------- the webhook

    /** The deposit row keyed by a PaymentIntent. */
    method DepositOwner(pi: Id) returns (owner: Option<Id>)
      requires Valid()
      ensures owner == Owner(accounts, pi)
    {
      BooksAreSound();
      owner := None;
      if exists a <- accounts :: HasDeposit(accounts, a, pi) {
        var a :| a in accounts && HasDeposit(accounts, a, pi);
        owner := Some(a);
        OwnerIs(accounts, a, pi);
      }
    }

    /** advertiser_credit_deposit: the PaymentIntent is unique in the sub-ledger. */
    method CreditDeposit(a: Id, pi: Id, micros: nat)
      requires Valid() && micros > 0
      modifies `accounts
      ensures accounts == Handle(old(accounts), Credit(a, pi, micros))
    {
      var known := DepositOwner(pi);
      if known.None? {
        accounts := accounts[a := Prepay.Next(AccountIn(accounts, a), Prepay.Deposit(pi, micros))];
      }
    }

    /** Look the deposit up, then book what the cumulative refund adds. */
    method RefundDeposit(pi: Id, cumulative: nat)
      requires Valid() && cumulative > 0
      modifies `accounts
      ensures accounts == Handle(old(accounts), Refund(pi, cumulative))
    {
      var owner := DepositOwner(pi);
      if owner.Some? {
        accounts := accounts[owner.value := Prepay.Next(AccountIn(accounts, owner.value), Prepay.RefundDeposit(pi, cumulative))];
      }
    }

    /** Look the deposit up, then reverse the disputed amount, or all of it; the dispute id is unique. */
    method ReverseDeposit(pi: Id, dispute: Id, micros: nat)
      requires Valid()
      modifies `accounts
      ensures accounts == Handle(old(accounts), Chargeback(pi, dispute, micros))
    {
      var owner := DepositOwner(pi);
      if owner.Some? && !IsDisputed(accounts, dispute) {
        BooksAreSound();
        var a := owner.value;
        var reversed := if micros > 0 then micros else accounts[a].deposits[pi];
        accounts := accounts[a := Prepay.Next(accounts[a], Prepay.Dispute(dispute, reversed))];
      }
    }

    /** The handler proper; a failed lookup or primitive leaves everything as it was. */
    method HandleEvent(e: Id, fails: bool) returns (ok: bool)
      requires Valid() && e < |events|
      modifies `accounts
      ensures ok <==> !fails
      ensures accounts == if ok then Handle(old(accounts), NoticeOf(intents, events[e])) else old(accounts)
      ensures ok ==> EventBooked(sessions, events[e], old(accounts), accounts)
    {
      if fails {
        return false;
      }
      BooksAreSound();
      HandlingBooks(sessions, handed, intents, captured, events, e, accounts);
      match events[e] {
        case SessionCompleted(s, paid, pi) =>
          if paid && pi.Some? {
            // The session was captured, so its URL was handed out, so its intent is stored.
            assert s in intents;
            CreditDeposit(intents[s].advertiser, pi.value, intents[s].micros);
          }
        case ChargeRefunded(pi, cents) =>
          if pi.Some? && cents > 0 {
            RefundDeposit(pi.value, cents * MICROS_PER_CENT);
          }
        case ChargeDisputed(pi, d, cents) =>
          if pi.Some? {
            ReverseDeposit(pi.value, d, cents * MICROS_PER_CENT);
          }
        case Unrelated =>
      }
      return true;
    }

    /** POST /webhook: check this endpoint's row, handle, then record. */
    method Webhook(e: Id, misses: bool, fails: bool, lost: bool) returns (reply: Reply)
      requires Valid() && e < |events|
      modifies `accounts, `turns, dedup
      ensures Valid()
      ensures var d := Delivery(Dedup(e, AdvertiserPortal), NoticeOf(intents, events[e]), misses, fails, lost);
              && reply == ReplyTo(old(dedup.rows), d)
              && dedup.rows == RowsAfter(old(dedup.rows), d)
              && accounts == (if reply == HandledNow then Handle(old(accounts), d.notice) else old(accounts))
              && turns == old(turns) + [Arrive(d)]
      ensures reply == Seen ==> Dedup(e, AdvertiserPortal) in old(dedup.rows)
      ensures reply == HandlerFailed ==> dedup.rows == old(dedup.rows) && accounts == old(accounts)
      ensures reply == HandledNow ==> EventBooked(sessions, events[e], old(accounts), accounts)
    {
      var key := Dedup(e, AdvertiserPortal);
      ghost var d := Delivery(key, NoticeOf(intents, events[e]), misses, fails, lost);
      DeliveryLeads(Handle, Moved, map[], turns, d, dedup.rows);
      OneMoreDelivery(turns, intents, events, d);
      var seen := dedup.Check(key, misses);
      if seen {
        turns := turns + [Arrive(d)];
        return Seen;
      }
      var ok := HandleEvent(e, fails);
      turns := turns + [Arrive(d)];
      if !ok {
        return HandlerFailed;
      }
      dedup.Record(key, lost);
      return HandledNow;
    }

    // -------------------------------------------------------------- deposit exactness

    /**
     A captured session whose completion was recorded has been credited to its own advertiser, booked
     once in the ledger, at exactly ten thousand micros a cent.
     */
    lemma CreditedExactly(e: Id)
      requires Valid() && e < |events| && Dedup(e, AdvertiserPortal) in dedup.rows
      requires events[e].SessionCompleted? && events[e].paid && events[e].pi.Some?
      ensures var s, pi := events[e].session, events[e].pi.value;
              && s < |sessions|
              && HasDeposit(accounts, sessions[s].advertiser, pi)
              && var account := accounts[sessions[s].advertiser];
                 && account.deposits[pi] == sessions[s].cents * MICROS_PER_CENT
                 && PrepayHolds.CashFrom(account.ledger, Prepay.DepositOf(pi)) == sessions[s].cents * MICROS_PER_CENT
    {
      var s, pi := events[e].session, events[e].pi.value;
      var key := Dedup(e, AdvertiserPortal);
      var t: Turn<Notice, Move> := Arrive(Delivery(key, NoticeOf(intents, events[e]), false, false, false));
      assert s in handed && s in intents;
      assert key in dedup.Own(AdvertiserPortal);
      RowsWereHandled(Handle, Moved, map[], turns, key);
      SameEventSaysTheSame(turns + [t], intents, events);
      HandledCreditIsBooked(turns, t);
      var c := CreditsAreCaptures(turns, sessions, handed, intents, events, pi);
      assert c == s;
      RefundsConverge(turns, sessions[s].advertiser, pi);
      BooksFollowDeliveries(turns, pi, 0);
      OwnerIs(accounts, sessions[s].advertiser, pi);
    }

    /** No credit without a capture, and no capture credited to two advertisers. */
    lemma NothingInvented(a: Id, b: Id, pi: Id)
      requires Valid() && HasDeposit(accounts, a, pi) && HasDeposit(accounts, b, pi)
      ensures a == b
      ensures exists s: Id :: CapturedBy(sessions, s, a, pi, accounts[a].deposits[pi]) && s in intents
    {
      BooksFollowDeliveries(turns, pi, 0);
      OwnerIs(accounts, a, pi);
      OwnerIs(accounts, b, pi);
      var s := CreditsAreCaptures(turns, sessions, handed, intents, events, pi);
    }

    /** The portal's own books are those of handling each event once exactly when no early reversal came back late. */
    lemma OnceUnlessLate()
      requires Valid()
      ensures AlwaysOnce(Handle, Moved, map[], turns) <==> NoLateReversal(turns)
    {
      SameEventSaysTheSame(turns, intents, events);
      DepositsOnceExactly(turns);
    }

    /** What is refunded of a deposit is ten thousand micros for each of the most cents any refund handled after its credit says. */
    lemma RefundedAsHandled(a: Id, pi: Id)
      requires Valid() && HasDeposit(accounts, a, pi)
      ensures PrepayHolds.CashFrom(accounts[a].ledger, Prepay.RefundOf(pi)) + MaxCentsAfterCredit(turns, events, pi) * 10000 == 0
    {
      RefundsConverge(turns, a, pi);
      MaxIsOfEvents(turns, intents, events, pi);
    }
  }
}
