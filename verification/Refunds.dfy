/** POST /refund: card refunds of single clawed-back groups never exceed the charge of their batch. */
module Refunds {
  import opened Basics
  import opened ChargeProtocol
  import opened ChargeSafety
  import opened BillingRun
  import opened ChargeRun

  // ---------------------------------------------------------------- floors of parts, floor of the sum

  /** The cents of the groups of s, each rounded down on its own. */
  function CentsOf(groups: seq<Group>, s: set<Id>): nat {
    if groups == [] then 0
    else
      var last := |groups| - 1;
      CentsOf(groups[..last], s) + if last in s then MicrosToCents(groups[last].micros) else 0
  }

  /** Refunding every group of s leaves less than one cent per group. */
  lemma {:induction false} FloorsLoseLittle(groups: seq<Group>, s: set<Id>)
    ensures CentsOf(groups, s) * MICROS_PER_CENT <= Total(groups, s)
    ensures Total(groups, s) <= CentsOf(groups, s) * MICROS_PER_CENT + (MICROS_PER_CENT - 1) * |s|
  {
    if groups == [] {
    } else {
      var last := |groups| - 1;
      if last in s {
        FloorsLoseLittle(groups[..last], s - {last});
        WithoutLast(groups[..last], s, last);
      } else {
        FloorsLoseLittle(groups[..last], s);
      }
    }
  }

  lemma WithoutLast(groups: seq<Group>, s: set<Id>, g: Id)
    requires g >= |groups|
    ensures CentsOf(groups, s) == CentsOf(groups, s - {g}) && Total(groups, s) == Total(groups, s - {g})
  {
  }

  lemma CentsOfSubset(groups: seq<Group>, s: set<Id>, t: set<Id>)
    requires s <= t
    ensures CentsOf(groups, s) <= CentsOf(groups, t)
  {
  }

  lemma CentsOfAdd(groups: seq<Group>, s: set<Id>, g: Id)
    requires g !in s && g < |groups|
    ensures CentsOf(groups, s + {g}) == CentsOf(groups, s) + MicrosToCents(groups[g].micros)
  {
    var last := |groups| - 1;
    if g < last {
      CentsOfAdd(groups[..last], s, g);
    } else {
      CentsOfUnseen(groups[..last], s, g);
    }
  }

  lemma CentsOfUnseen(groups: seq<Group>, s: set<Id>, g: Id)
    requires g >= |groups|
    ensures CentsOf(groups, s + {g}) == CentsOf(groups, s)
  {
  }

  lemma CentsOfNothing(groups: seq<Group>)
    ensures CentsOf(groups, {}) == 0
  {
  }

  /**
   Refunding any of a batch's groups, each at its own whole cents, never exceeds the charge;
   refunding all of them falls short by less than one cent a group.
   */
  lemma PartsWithinCharge(w0: World, es: seq<Event>, w: World, i: Id, s: set<Id>)
    requires Initial(w0) && Reaches(w0, es, w) && i < |w.intents|
    requires w.intents[i].batch < |w.claims| && s <= w.claims[w.intents[i].batch].members
    ensures CentsOf(w.groups, s) <= w.intents[i].cents
    ensures s == w.claims[w.intents[i].batch].members ==> w.intents[i].cents - CentsOf(w.groups, s) < |s|
  {
    InitialInv(w0);
    ReachesInv(w0, es, w);
    var members := w.claims[w.intents[i].batch].members;
    assert w.intents[i].cents == MicrosToCents(Total(w.groups, members));
    FloorsLoseLittle(w.groups, members);
    CentsOfSubset(w.groups, s, members);
  }

  // ---------------------------------------------------------------- reviews and refunds

  datatype ReviewStatus = ReviewPending | Approved | Rejected

  /** A clawback review of one impression, that is of the one ledger group the impression accrued. */
  datatype Review = Review(group: Id, status: ReviewStatus, queued: bool)

  datatype Refund = Refund(review: Id, group: Id, pi: Id, cents: nat)

  /** What Stripe replays for a review's idempotency key. */
  datatype RefundKey = RefundKey(at: nat, refund: Id)

  datatype RefundReply =
    | NotRefundable      // not found, not approved, or queued already
    | NothingCharged
    | ThroughBalance(queued: bool)
    | MissingIntent
    | ZeroCharge
    | StripeError
    | Refunded(refund: Id)

  /** The refund pays back the group's own whole cents, on an intent of the group's batch. */
  ghost predicate RefundFits(w: World, r: Refund) {
    && r.pi < |w.intents| && w.intents[r.pi].batch < |w.claims|
    && r.group in w.claims[w.intents[r.pi].batch].members
    && r.group < |w.groups|
    && r.cents == MicrosToCents(w.groups[r.group].micros)
  }

  ghost predicate RefundsFit(w: World, refunds: seq<Refund>) {
    forall k: nat | k < |refunds| :: RefundFits(w, refunds[k])
  }

  /** No group was refunded twice on the intent. */
  ghost predicate OneRefundPerGroup(refunds: seq<Refund>, i: Id) {
    forall j: nat, k: nat | j < k < |refunds| && refunds[j].pi == i && refunds[k].pi == i ::
      refunds[j].group != refunds[k].group
  }

  /** Cents refunded on one PaymentIntent. */
  function RefundedOn(refunds: seq<Refund>, i: Id): nat {
    if refunds == [] then 0
    else
      var last := |refunds| - 1;
      RefundedOn(refunds[..last], i) + if refunds[last].pi == i then refunds[last].cents else 0
  }

  ghost function GroupsRefunded(refunds: seq<Refund>, i: Id): set<Id> {
    set k: nat | k < |refunds| && refunds[k].pi == i :: refunds[k].group
  }

  lemma {:induction false} RefundedIsCentsOf(w: World, refunds: seq<Refund>, i: Id)
    requires RefundsFit(w, refunds) && OneRefundPerGroup(refunds, i)
    ensures RefundedOn(refunds, i) == CentsOf(w.groups, GroupsRefunded(refunds, i))
  {
    if refunds == [] {
      CentsOfNothing(w.groups);
      assert GroupsRefunded(refunds, i) == {};
    } else {
      var last := |refunds| - 1;
      var fewer := refunds[..last];
      assert forall k: nat | k < last :: fewer[k] == refunds[k];
      RefundedIsCentsOf(w, fewer, i);
      assert RefundFits(w, refunds[last]);
      if refunds[last].pi == i {
        assert GroupsRefunded(refunds, i) == GroupsRefunded(fewer, i) + {refunds[last].group};
        CentsOfAdd(w.groups, GroupsRefunded(fewer, i), refunds[last].group);
      } else {
        assert GroupsRefunded(refunds, i) == GroupsRefunded(fewer, i);
      }
    }
  }

  /** All refunds ever made on a PaymentIntent together stay within what it charged. */
  lemma RefundsWithinCharge(w0: World, es: seq<Event>, w: World, refunds: seq<Refund>, i: Id)
    requires Initial(w0) && Reaches(w0, es, w) && i < |w.intents|
    requires RefundsFit(w, refunds) && OneRefundPerGroup(refunds, i)
    ensures RefundedOn(refunds, i) <= w.intents[i].cents
  {
    ClaimOfIntent(w0, es, w, i);
    forall g <- GroupsRefunded(refunds, i)
      ensures g in w.claims[w.intents[i].batch].members
    {
      var k: nat :| k < |refunds| && refunds[k].pi == i && refunds[k].group == g;
      assert RefundFits(w, refunds[k]);
    }
    RefundedIsCentsOf(w, refunds, i);
    PartsWithinCharge(w0, es, w, i, GroupsRefunded(refunds, i));
  }

  lemma ClaimOfIntent(w0: World, es: seq<Event>, w: World, i: Id)
    requires Initial(w0) && Reaches(w0, es, w) && i < |w.intents|
    ensures w.intents[i].batch < |w.claims|
  {
    InitialInv(w0);
    ReachesInv(w0, es, w);
  }

  /** Later charge runs cannot make an earlier refund misfit. */
  lemma RefundsStillFit(w0: World, es: seq<Event>, w: World, fs: seq<Event>, w': World, refunds: seq<Refund>)
    requires Initial(w0) && Reaches(w0, es, w) && Reaches(w0, fs, w') && es <= fs
    requires RefundsFit(w, refunds)
    ensures RefundsFit(w', refunds)
  {
    InitialInv(w0);
    LaterKept(w0, es, w, fs, w');
    forall k: nat | k < |refunds| ensures RefundFits(w', refunds[k]) {
      assert RefundFits(w, refunds[k]);
      var i := refunds[k].pi;
      assert w'.intents[i].(status := w.intents[i].status) == w.intents[i];
      assert w'.claims[w.intents[i].batch].(phase := w.claims[w.intents[i].batch].phase) == w.claims[w.intents[i].batch];
    }
  }

  /** The charge row /refund reads for a group on the card route leads to an intent of the group's batch. */
  lemma RowLeadsToIntent(w0: World, es: seq<Event>, w: World, g: Id)
    requires Initial(w0) && Reaches(w0, es, w)
    requires g in w.charges && w.charges[g].pi.Some?
    ensures forall review: Id ::
              RefundFits(w, Refund(review, g, w.charges[g].pi.value, MicrosToCents(w.charges[g].micros)))
    ensures !w.charges[g].viaBalance
  {
    InitialInv(w0);
    ReachesInv(w0, es, w);
    var b := w.charges[g].batch.value;
    assert w.charges[g] == MemberRow(w.groups[g], b, w.claims[b]);
  }

  /** Every refund is of an approved review that has a key, and every key remembers a refund of its review. */
  ghost predicate Keyed(refunds: seq<Refund>, keys: map<Id, RefundKey>, reviews: map<Id, Review>) {
    && (forall k: nat | k < |refunds| ::
          && refunds[k].review in keys
          && refunds[k].review in reviews
          && reviews[refunds[k].review].status == Approved
          && reviews[refunds[k].review].group == refunds[k].group)
    && (forall r <- keys :: keys[r].refund < |refunds| && refunds[keys[r].refund].review == r)
  }

  ghost predicate TwiceRefunded(refunds: seq<Refund>, r: Id) {
    exists j: nat, k: nat :: j < k < |refunds| && refunds[j].review == r && refunds[k].review == r
  }

  /** Exactly the late reviews have a second refund. */
  ghost predicate SecondsAreLate(refunds: seq<Refund>, late: set<Id>) {
    forall r: Id :: r in late <==> TwiceRefunded(refunds, r)
  }

  lemma OneMoreRefund(refunds: seq<Refund>, late: set<Id>, more: Refund, again: bool)
    requires SecondsAreLate(refunds, late)
    requires again <==> exists k: nat :: k < |refunds| && refunds[k].review == more.review
    ensures SecondsAreLate(refunds + [more], late + if again then {more.review} else {})
  {
    var grown := refunds + [more];
    assert forall k: nat | k < |refunds| :: grown[k] == refunds[k];
    forall r: Id
      ensures TwiceRefunded(grown, r) <==> TwiceRefunded(refunds, r) || (again && r == more.review)
    {
      if TwiceRefunded(refunds, r) {
        var j: nat, k: nat :| j < k < |refunds| && refunds[j].review == r && refunds[k].review == r;
        assert grown[j].review == r && grown[k].review == r;
      }
      if again && r == more.review {
        var k: nat :| k < |refunds| && refunds[k].review == r;
        assert grown[k].review == r && grown[|refunds|].review == r;
      }
    }
  }

  lemma KeysKnowTheirRefunds(refunds: seq<Refund>, keys: map<Id, RefundKey>, reviews: map<Id, Review>, r: Id)
    requires Keyed(refunds, keys, reviews)
    ensures r in keys <==> exists k: nat :: k < |refunds| && refunds[k].review == r
  {
  }

  lemma KeyedMore(refunds: seq<Refund>, keys: map<Id, RefundKey>, reviews: map<Id, Review>, more: Refund, now: nat)
    requires Keyed(refunds, keys, reviews)
    requires more.review in reviews && reviews[more.review].status == Approved && reviews[more.review].group == more.group
    ensures Keyed(refunds + [more], keys[more.review := RefundKey(now, |refunds|)], reviews)
  {
  }

  /** Every refund fits its charge, has its key and its approved review, and the second ones are late. */
  ghost predicate InOrder(w: World, refunds: seq<Refund>, keys: map<Id, RefundKey>, reviews: map<Id, Review>, late: set<Id>) {
    RefundsFit(w, refunds) && Keyed(refunds, keys, reviews) && SecondsAreLate(refunds, late)
  }

  /** One more refund of an approved review, of its own charge, keeps that. */
  lemma OneMoreInOrder(
    w: World, refunds: seq<Refund>, keys: map<Id, RefundKey>, reviews: map<Id, Review>, late: set<Id>, more: Refund, now: nat)
    requires InOrder(w, refunds, keys, reviews, late) && RefundFits(w, more)
    requires more.review in reviews && reviews[more.review].status == Approved && reviews[more.review].group == more.group
    ensures InOrder(w, refunds + [more], keys[more.review := RefundKey(now, |refunds|)], reviews,
                    late + if more.review in keys then {more.review} else {})
  {
    KeysKnowTheirRefunds(refunds, keys, reviews, more.review);
    OneMoreRefund(refunds, late, more, more.review in keys);
    KeyedMore(refunds, keys, reviews, more, now);
  }

  function QueuedIf(reviews: map<Id, Review>, r: Id, queued: bool): map<Id, Review> {
    if queued && r in reviews then reviews[r := reviews[r].(queued := true)] else reviews
  }

  // ---------------------------------------------------------------- the handler

  class RefundDesk {
    const billing: Billing
    var reviews: map<Id, Review>
    var refunds: seq<Refund>
    var keys: map<Id, RefundKey>
    var clawed: set<Id>          // groups whose impression was clawed back
    ghost var late: set<Id>      // reviews whose refund was created again after its key expired

    ghost predicate Valid()
      reads this, billing, billing.db, billing.stripe
    {
      && billing.Valid()
      && OneActiveReview()
      && InOrder(billing.World(), refunds, keys, reviews, late)
      && ApprovedAreClawed()
    }

    /** Approving a review, or opening an approved one, claws the impression back in the same transaction. */
    ghost predicate ApprovedAreClawed()
      reads this
    {
      forall r <- reviews | reviews[r].status == Approved :: reviews[r].group in clawed
    }

    /** The partial unique index: one review per impression that is not rejected. */
    ghost predicate OneActiveReview()
      reads this
    {
      forall r <- reviews, q <- reviews ::
        reviews[r].status != Rejected && reviews[q].status != Rejected && reviews[r].group == reviews[q].group
        ==> r == q
    }

    constructor (billing: Billing)
      requires billing.Valid()
      ensures Valid() && this.billing == billing && refunds == []
    {
      this.billing := billing;
      reviews, refunds, keys, clawed, late := map[], [], map[], {}, {};
    }

    /** Reviews are opened once per impression, decided once, and only an approved one stays refundable. */
    method OpenReview(r: Id, group: Id, status: ReviewStatus) returns (ok: bool)
      requires Valid() && r !in reviews && status != Rejected
      modifies `reviews, `clawed
      ensures Valid()
      ensures ok <==> !exists q :: q in old(reviews) && old(reviews)[q].group == group && old(reviews)[q].status != Rejected
      ensures reviews == if ok then old(reviews)[r := Review(group, status, false)] else old(reviews)
    {
      ok := !exists q :: q in reviews && reviews[q].group == group && reviews[q].status != Rejected;
      if ok {
        reviews := reviews[r := Review(group, status, false)];
        clawed := if status == Approved then clawed + {group} else clawed;
      }
    }

    method DecideReview(r: Id, approve: bool) returns (ok: bool)
      requires Valid()
      modifies `reviews, `clawed
      ensures Valid()
      ensures ok <==> r in old(reviews) && old(reviews)[r].status == ReviewPending
      ensures reviews == if ok then old(reviews)[r := old(reviews)[r].(status := if approve then Approved else Rejected)]
                         else old(reviews)
    {
      ok := r in reviews && reviews[r].status == ReviewPending;
      if ok {
        reviews := reviews[r := reviews[r].(status := if approve then Approved else Rejected)];
        clawed := if approve then clawed + {reviews[r].group} else clawed;
      }
    }

    predicate KeyAnswers(r: Id)
      reads this, billing.stripe
    {
      r in keys && billing.stripe.now < keys[r].at + KEY_LIFETIME
    }

    /** refunds.create under the review's key; an answer may get lost whatever was done. */
    method CreateRefund(r: Id, group: Id, pi: Id, cents: nat, calm: bool) returns (reply: Option<Id>)
      modifies `refunds, `keys
      ensures old(KeyAnswers(r)) ==> refunds == old(refunds) && keys == old(keys)
      ensures !old(KeyAnswers(r)) ==>
                || (refunds == old(refunds) && keys == old(keys) && reply.None?)
                || (refunds == old(refunds) + [Refund(r, group, pi, cents)]
                    && keys == old(keys)[r := RefundKey(billing.stripe.now, |old(refunds)|)])
      ensures reply.Some? ==> r in keys && reply.value == keys[r].refund
      ensures calm ==> reply.Some?
      ensures calm && !old(KeyAnswers(r)) ==> |refunds| == |old(refunds)| + 1
    {
      var reaches: bool := *;
      var lost: bool := *;
      lost := lost && !calm;
      if !KeyAnswers(r) && !reaches && !calm {
        return None;
      }
      if !KeyAnswers(r) {
        keys := keys[r := RefundKey(billing.stripe.now, |refunds|)];
        refunds := refunds + [Refund(r, group, pi, cents)];
      }
      reply := if lost then None else Some(keys[r].refund);
    }

    predicate Refundable(r: Id)
      reads this
    {
      r in reviews && reviews[r].status == Approved && !reviews[r].queued
    }

    predicate HasCharge(group: Id)
      reads billing, billing.db
    {
      group in billing.db.charges && billing.db.charges[group].status == Status.Succeeded
    }

    function ChargeRow(group: Id): Row
      reads billing, billing.db
      requires HasCharge(group)
    {
      billing.db.charges[group]
    }

    /** Charged to a card, for at least a cent. */
    predicate OnCard(group: Id)
      reads billing, billing.db
    {
      HasCharge(group) && !ChargeRow(group).viaBalance && ChargeRow(group).pi.Some? && MicrosToCents(ChargeRow(group).micros) > 0
    }

    /**
     POST /refund, possibly cut short before it marks the review. A second refund of a review is made
     only when a retry reaches Stripe after the review's key expired. A balance-settled charge is never
     credited this way: an approved review means the impression is clawed back already, and the
     balance path refuses that.
     */
    method RefundReview(r: Id, calm: bool) returns (reply: RefundReply)
      requires Valid()
      modifies this
      ensures Valid()
      ensures late == old(late) + if |refunds| > |old(refunds)| && r in old(keys) then {r} else {}
      ensures |refunds| > |old(refunds)| ==> !old(KeyAnswers(r))
      ensures old(refunds) <= refunds && |refunds| <= |old(refunds)| + 1
      ensures |refunds| > |old(refunds)| ==>
                && r in reviews && reviews[r].status == Approved
                && refunds[|old(refunds)|].review == r
                && reviews[r].group in billing.db.charges
                && refunds[|old(refunds)|].cents == MicrosToCents(billing.db.charges[reviews[r].group].micros)
                && Some(refunds[|old(refunds)|].pi) == billing.db.charges[reviews[r].group].pi
                && billing.db.charges[reviews[r].group].status == Status.Succeeded
      ensures reply.Refunded? ==>
                && reply.refund < |refunds| && refunds[reply.refund].review == r
                && (calm ==> r in reviews && reviews[r].queued)
      ensures reply.NotRefundable? <==> !old(Refundable(r))
      ensures reply.NothingCharged? <==> old(Refundable(r)) && !old(HasCharge(reviews[r].group))
      ensures reply.ThroughBalance? <==>
                old(Refundable(r)) && old(HasCharge(reviews[r].group)) && old(ChargeRow(reviews[r].group)).viaBalance
      ensures reply.Refunded? || reply.StripeError? <==>
                old(Refundable(r)) && old(HasCharge(reviews[r].group)) && old(OnCard(reviews[r].group))
      ensures calm ==> !reply.StripeError?
      ensures reply.ThroughBalance? ==> !reply.queued && reviews == old(reviews) && refunds == old(refunds)
      ensures |refunds| > |old(refunds)| && r in old(keys) ==> billing.stripe.now >= old(keys)[r].at + 86400
      ensures calm && old(Refundable(r)) && old(OnCard(reviews[r].group)) ==>
                || (|refunds| == |old(refunds)| + 1 && reply == Refunded(|old(refunds)|))
                || (refunds == old(refunds) && r in old(keys) && billing.stripe.now < old(keys)[r].at + 86400
                    && reply == Refunded(old(keys)[r].refund))
      ensures reviews.Keys == old(reviews).Keys
      ensures forall q <- reviews :: reviews[q].(queued := old(reviews)[q].queued) == old(reviews)[q]
    {
      if r !in reviews || reviews[r].status != Approved || reviews[r].queued {
        return NotRefundable;
      }
      var group := reviews[r].group;
      if group !in billing.db.charges || billing.db.charges[group].status != Status.Succeeded {
        return NothingCharged;
      }
      reply := RefundCharged(r, group, calm);
    }

    /** What was charged goes back the way it came: through the balance, or to the card. */
    method RefundCharged(r: Id, group: Id, calm: bool) returns (reply: RefundReply)
      requires Valid() && Refundable(r) && reviews[r].group == group && HasCharge(group)
      modifies this
      ensures Valid() && r in reviews
      ensures late == old(late) + if |refunds| > |old(refunds)| && r in old(keys) then {r} else {}
      ensures |refunds| > |old(refunds)| ==> !old(KeyAnswers(r))
      ensures refunds == old(refunds) ||
              (old(OnCard(group))
               && refunds == old(refunds) + [Refund(r, group, ChargeRow(group).pi.value, MicrosToCents(ChargeRow(group).micros))])
      ensures reply.Refunded? ==>
                && reply.refund < |refunds| && refunds[reply.refund].review == r
                && (calm ==> reviews[r].queued)
      ensures !reply.NotRefundable? && !reply.NothingCharged?
      ensures reply.ThroughBalance? <==> ChargeRow(group).viaBalance
      ensures reply.Refunded? || reply.StripeError? <==> old(OnCard(group))
      ensures calm ==> !reply.StripeError?
      ensures calm && old(OnCard(group)) ==>
                || (|refunds| == |old(refunds)| + 1 && reply == Refunded(|old(refunds)|))
                || (refunds == old(refunds) && old(KeyAnswers(r)) && reply == Refunded(old(keys)[r].refund))
      ensures reply.ThroughBalance? ==> !reply.queued && reviews == old(reviews) && refunds == old(refunds)
      ensures reviews == old(reviews) || reviews == old(reviews)[r := old(reviews)[r].(queued := true)]
    {
      var row := billing.db.charges[group];
      var cents := MicrosToCents(row.micros);
      if row.viaBalance {
        // Handed to admin_prepay_clawback; never a card refund as well.
        var credited := PrepayClawback(group);
        reviews := QueuedIf(reviews, r, credited);
        return ThroughBalance(credited);
      }
      if row.pi.None? {
        return MissingIntent;
      }
      if cents == 0 {
        return ZeroCharge;
      }
      reply := RefundCard(r, group, row.pi.value, cents, calm);
    }

    /** The card half: create the refund, then mark the review. */
    method RefundCard(r: Id, group: Id, pi: Id, cents: nat, calm: bool) returns (reply: RefundReply)
      requires Valid()
      requires r in reviews && reviews[r].status == Approved && !reviews[r].queued && reviews[r].group == group
      requires group in billing.db.charges && billing.db.charges[group].pi == Some(pi)
      requires cents == MicrosToCents(billing.db.charges[group].micros)
      modifies `reviews, `refunds, `keys, `late
      ensures Valid()
      ensures late == old(late) + if |refunds| > |old(refunds)| && r in old(keys) then {r} else {}
      ensures |refunds| > |old(refunds)| ==> !old(KeyAnswers(r))
      ensures refunds == old(refunds) || refunds == old(refunds) + [Refund(r, group, pi, cents)]
      ensures reply.Refunded? || (reply.StripeError? && !calm)
      ensures calm ==>
                || (|refunds| == |old(refunds)| + 1 && reply == Refunded(|old(refunds)|))
                || (refunds == old(refunds) && old(KeyAnswers(r)) && reply == Refunded(old(keys)[r].refund))
      ensures reply.Refunded? ==>
                && reply.refund < |refunds| && refunds[reply.refund].review == r
                && (calm ==> reviews[r].queued)
      ensures reviews == old(reviews) || reviews == old(reviews)[r := old(reviews)[r].(queued := true)]
      ensures r in reviews
    {
      var made := CreateForReview(r, group, pi, cents, calm);
      if made.None? {
        return StripeError;
      }
      var arrives: bool := *;
      if calm || arrives {
        MarkQueued(r);
      }
      return Refunded(made.value);
    }

    method CreateForReview(r: Id, group: Id, pi: Id, cents: nat, calm: bool) returns (made: Option<Id>)
      requires Valid()
      requires r in reviews && reviews[r].status == Approved && reviews[r].group == group
      requires group in billing.db.charges && billing.db.charges[group].pi == Some(pi)
      requires cents == MicrosToCents(billing.db.charges[group].micros)
      modifies `refunds, `keys, `late
      ensures Valid()
      ensures late == old(late) + if |refunds| > |old(refunds)| && r in old(keys) then {r} else {}
      ensures |refunds| > |old(refunds)| ==> !old(KeyAnswers(r))
      ensures refunds == old(refunds) || refunds == old(refunds) + [Refund(r, group, pi, cents)]
      ensures made.Some? ==> made.value < |refunds| && refunds[made.value].review == r
      ensures calm ==> made.Some?
      ensures calm ==>
                || (|refunds| == |old(refunds)| + 1 && made == Some(|old(refunds)|))
                || (refunds == old(refunds) && old(KeyAnswers(r)) && made == Some(old(keys)[r].refund))
    {
      RowLeadsToIntent(billing.start, billing.log, billing.World(), group);
      ghost var before, again := refunds, r in keys;
      OneMoreInOrder(billing.World(), refunds, keys, reviews, late, Refund(r, group, pi, cents), billing.stripe.now);
      made := CreateRefund(r, group, pi, cents, calm);
      if |refunds| > |before| && again {
        late := late + {r};
      }
    }

    /** admin_prepay_clawback refuses a group already clawed back, and may refuse for other reasons. */
    method PrepayClawback(group: Id) returns (ok: bool)
      modifies `clawed
      ensures ok ==> group !in old(clawed) && clawed == old(clawed) + {group}
      ensures !ok ==> clawed == old(clawed)
    {
      var refused: bool := *;
      ok := group !in clawed && !refused;
      clawed := if ok then clawed + {group} else clawed;
    }

    method MarkQueued(r: Id)
      requires Valid() && r in reviews
      modifies `reviews
      ensures Valid()
      ensures reviews == old(reviews)[r := old(reviews)[r].(queued := true)]
    {
      reviews := QueuedIf(reviews, r, true);
    }

    /** Charge runs and the rest of the environment in between. */
    method BillingMovesOn()
      requires Valid()
      modifies billing, billing.db, billing.stripe
      ensures Valid() && old(billing.log) <= billing.log
    {
      ghost var w, es := billing.World(), billing.log;
      var dryRun: bool := *;
      var rivals := AnyNat();
      var finished := Charge(billing, dryRun, rivals, false);
      billing.Interleave(false);
      RefundsStillFit(billing.start, es, w, billing.log, billing.World(), refunds);
    }

    /** A review was refunded twice exactly when a retry of it reached Stripe after its key had expired. */
    lemma RefundedTwiceExactly(r: Id)
      requires Valid()
      ensures TwiceRefunded(refunds, r) <==> r in late
    {
    }

    lemma OneRefundEach(i: Id)
      requires Valid() && forall k: nat | k < |refunds| && refunds[k].pi == i :: refunds[k].review !in late
      ensures OneRefundPerGroup(refunds, i)
    {
      forall j: nat, k: nat | j < k < |refunds| && refunds[j].pi == i && refunds[k].pi == i
        ensures refunds[j].group != refunds[k].group
      {
        assert refunds[j].review != refunds[k].review;
      }
    }

    /** Whatever was refunded on a charge, at any time: without a late retry, never more than the charge. */
    lemma NeverOverRefunded(i: Id)
      requires Valid() && i < |billing.stripe.intents|
      requires forall k: nat | k < |refunds| && refunds[k].pi == i :: refunds[k].review !in late
      ensures RefundedOn(refunds, i) <= billing.stripe.intents[i].cents
    {
      OneRefundEach(i);
      RefundsWithinCharge(billing.start, billing.log, billing.World(), refunds, i);
    }

    /** Two refunds of one group are one refund, or its review was retried late. */
    lemma NeverRefundedTwice(j: nat, k: nat)
      requires Valid() && j < |refunds| && k < |refunds| && refunds[j].group == refunds[k].group
      ensures refunds[j].review == refunds[k].review
      ensures refunds[j].review !in late ==> j == k
    {
    }
  }

  /**
   A create that reaches Stripe leaves a review with two refunds if and only if its key exists and no
   longer answers.
   */
  lemma CreateRefundsTwiceExactly(refunds: seq<Refund>, keys: map<Id, RefundKey>, reviews: map<Id, Review>, now: nat, made: Refund)
    requires Keyed(refunds, keys, reviews) && !TwiceRefunded(refunds, made.review)
    ensures var answers := made.review in keys && now < keys[made.review].at + KEY_LIFETIME;
            TwiceRefunded(if answers then refunds else refunds + [made], made.review) <==>
              made.review in keys && now >= keys[made.review].at + KEY_LIFETIME
  {
    KeysKnowTheirRefunds(refunds, keys, reviews, made.review);
    OneMoreRefund(refunds, set k <- refunds | TwiceRefunded(refunds, k.review) :: k.review, made, made.review in keys);
  }
}
