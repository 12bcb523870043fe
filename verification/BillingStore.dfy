/** The two remote parties of a charge run: the database tables it writes, and Stripe. */
module BillingStore {
  import opened Basics
  import opened ChargeProtocol
  import opened Planning

  /** A row as recovery reads it. */
  datatype PendingRow = PendingRow(batch: Option<Id>, group: Id, advertiser: Id, mode: Option<Mode>)

  /** A row as a batch reads its own members. */
  datatype PendingGroup = PendingGroup(group: Id, micros: nat)

  /** Reply of advertiser_draw_down_batch. */
  datatype DrawReply = Drawn | Duplicate | InsufficientBalance | NothingToDraw

  /** Reply of paymentIntents.create: an intent, a card decline, or an error that decides nothing. */
  datatype CreateReply = Accepted(pi: Id) | CardDeclined | Ambiguous

  predicate Awaiting(row: Row) {
    row.status == Pending && row.pi.None?
  }

  function PendingOf(charges: map<Id, Row>, b: Id, n: nat): seq<PendingGroup> {
    if n == 0 then []
    else
      var g := n - 1;
      PendingOf(charges, b, g)
      + if g in charges && charges[g].batch == Some(b) && Awaiting(charges[g])
        then [PendingGroup(g, charges[g].micros)] else []
  }

  function AllPending(charges: map<Id, Row>, n: nat): seq<PendingRow> {
    if n == 0 then []
    else
      var g := n - 1;
      AllPending(charges, g)
      + if g in charges && Awaiting(charges[g])
        then [PendingRow(charges[g].batch, g, charges[g].advertiser, charges[g].mode)] else []
  }

  /** uncharged_advertiser_billings: the cleared groups no row claims, oldest first. */
  function Uncharged(groups: seq<Group>, charges: map<Id, Row>, house: set<Id>, prepay: set<Id>, n: nat): seq<ViewRow>
    requires n <= |groups|
  {
    if n == 0 then []
    else
      var g := n - 1;
      Uncharged(groups, charges, house, prepay, g)
      + if g !in charges
        then [ViewRow(g, groups[g].advertiser, groups[g].micros, groups[g].advertiser in house,
                      if groups[g].advertiser in prepay then Prepay else Postpay)]
        else []
  }

  class Database {
    const house: set<Id>
    var prepayNow: set<Id>
    var groups: seq<Group>
    var charges: map<Id, Row>
    var balances: map<Id, nat>
    var drawn: map<Id, nat>

    constructor (house: set<Id>, groups: seq<Group>, charges: map<Id, Row>)
      ensures this.house == house && this.groups == groups && this.charges == charges
      ensures prepayNow == {} && balances == map[] && drawn == map[]
    {
      this.house, this.prepayNow, this.groups, this.charges := house, {}, groups, charges;
      this.balances, this.drawn := map[], map[];
    }

    /** SELECT on the view, oldest first, limit 500. */
    method SelectUncharged() returns (rows: seq<ViewRow>)
      ensures var all := Uncharged(groups, charges, house, prepayNow, |groups|);
              rows == if |all| <= 500 then all else all[..500]
    {
      var all := Uncharged(groups, charges, house, prepayNow, |groups|);
      rows := if |all| <= 500 then all else all[..500];
    }

    /** Every pending row without a charge id, limit 1000. */
    method SelectPending() returns (rows: seq<PendingRow>)
      ensures var all := AllPending(charges, |groups|);
              rows == if |all| <= 1000 then all else all[..1000]
    {
      var all := AllPending(charges, |groups|);
      rows := if |all| <= 1000 then all else all[..1000];
    }

    /** A batch's own pending rows without a charge id, limit 1000. */
    method SelectBatch(b: Id) returns (rows: seq<PendingGroup>)
      ensures var all := PendingOf(charges, b, |groups|);
              rows == if |all| <= 1000 then all else all[..1000]
    {
      var all := PendingOf(charges, b, |groups|);
      rows := if |all| <= 1000 then all else all[..1000];
    }

    /** INSERT ... ON CONFLICT (entry_group_id) DO NOTHING. */
    method InsertIgnoringDuplicates(rows: map<Id, Row>)
      modifies `charges
      ensures charges == rows + old(charges)
    {
      charges := rows + charges;
    }

    /** UPDATE the pending rows among ids. */
    method UpdatePending(ids: seq<Id>, status: Status, pi: Option<Id>, viaBalance: bool)
      modifies `charges
      ensures charges.Keys == old(charges.Keys)
      ensures forall g <- charges ::
                charges[g] ==
                if g in ids && old(charges)[g].status == Pending
                then old(charges)[g].(status := status, pi := pi, viaBalance := viaBalance)
                else old(charges)[g]
    {
      charges := map g <- charges ::
        if g in ids && charges[g].status == Pending
        then charges[g].(status := status, pi := pi, viaBalance := viaBalance)
        else charges[g];
    }

    /** DELETE the pending rows among ids that carry no charge id. */
    method DeletePending(ids: seq<Id>)
      modifies `charges
      ensures charges == map g <- old(charges) | !(g in ids && Awaiting(old(charges)[g])) :: old(charges)[g]
    {
      charges := map g <- charges | !(g in ids && Awaiting(charges[g])) :: charges[g];
    }

    function BalanceOf(a: Id): nat
      reads `balances
    {
      if a in balances then balances[a] else 0
    }

    /**
     advertiser_draw_down_batch. An advertiser without a balance row answers like one with an
     empty balance: in that case no batch of theirs was drawn, so the order of the two checks
     cannot show.
     */
    method DrawDownBatch(a: Id, b: Id, micros: nat) returns (reply: DrawReply)
      modifies `balances, `drawn
      ensures reply == if micros == 0 then NothingToDraw
                       else if b in old(drawn) then Duplicate
                       else if old(BalanceOf(a)) < micros then InsufficientBalance
                       else Drawn
      ensures reply == Drawn ==>
                && balances == old(balances)[a := old(BalanceOf(a)) - micros]
                && drawn == old(drawn)[b := micros]
      ensures reply != Drawn ==> balances == old(balances) && drawn == old(drawn)
    {
      if micros == 0 {
        return NothingToDraw;
      }
      if b in drawn {
        return Duplicate;
      }
      if BalanceOf(a) < micros {
        return InsufficientBalance;
      }
      balances := balances[a := BalanceOf(a) - micros];
      drawn := drawn[b := micros];
      return Drawn;
    }
  }

  function IntentsOf(intents: seq<Intent>, b: Id): seq<Id> {
    if intents == [] then []
    else
      var last := |intents| - 1;
      IntentsOf(intents[..last], b) + if intents[last].batch == b then [last] else []
  }

  lemma IntentsOfComplete(intents: seq<Intent>, b: Id)
    ensures forall i: Id :: i in IntentsOf(intents, b) <==> i < |intents| && intents[i].batch == b
  {
  }

  class Stripe {
    var intents: seq<Intent>
    var keys: map<Id, Key>
    var now: nat

    constructor ()
      ensures intents == [] && keys == map[] && now == 0
    {
      intents, keys, now := [], map[], 0;
    }

    predicate KeyAnswers(b: Id)
      reads this
    {
      b in keys && now < keys[b].at + KEY_LIFETIME
    }

    /**
     paymentIntents.search on the batch id in the metadata. It may error, or lag behind, while the
     batch's key still answers; once the key is gone it is assumed to show every intent.
     */
    method Search(b: Id) returns (found: Option<seq<Id>>)
      ensures found.Some? ==>
                forall k | 0 <= k < |found.value| :: found.value[k] < |intents| && intents[found.value[k]].batch == b
      ensures !KeyAnswers(b) ==>
                found.Some? && forall i: Id | i < |intents| && intents[i].batch == b :: i in found.value
    {
      IntentsOfComplete(intents, b);
      var all := IntentsOf(intents, b);
      assert forall k | 0 <= k < |all| :: all[k] in all;
      found := Some(all);
      if KeyAnswers(b) {
        if * {
          found := None;
        } else if * {
          found := Some([]);
        }
      }
    }

    /**
     paymentIntents.create under the batch's idempotency key. A key that still answers replays what
     it saved; otherwise the call may charge, be declined, or do nothing. Unless definite, the
     answer may get lost whatever was done.
     */
    method CreateIntent(b: Id, cents: nat, definite: bool) returns (reply: CreateReply, attempt: Attempt)
      requires forall c <- keys :: keys[c].intent < |intents|
      modifies this
      ensures now == old(now)
      ensures attempt.Made? ==> attempt.status == PiSucceeded || attempt.status == PiProcessing || attempt.status == PiRequiresCapture
      ensures if old(KeyAnswers(b)) || attempt.Nothing?
              then intents == old(intents) && keys == old(keys)
              else
                && intents == old(intents) + [Intent(b, cents, if attempt.Made? then attempt.status else PiRequiresPaymentMethod)]
                && keys == old(keys)[b := Key(now, |old(intents)|, attempt.Refused?)]
      ensures reply.Accepted? ==> b in keys && reply.pi == keys[b].intent && !keys[b].declined
      ensures reply.CardDeclined? ==> b in keys && keys[b].declined
      ensures definite ==> !reply.Ambiguous? && !attempt.Nothing?
    {
      attempt := Refused;
      if * {
        attempt := Made(PiSucceeded);
      } else if * {
        attempt := Made(PiProcessing);
      } else if * {
        attempt := Made(PiRequiresCapture);
      } else if !definite {
        if * {
          attempt := Nothing;
        }
      }
      if !KeyAnswers(b) && !attempt.Nothing? {
        var status := if attempt.Made? then attempt.status else PiRequiresPaymentMethod;
        keys := keys[b := Key(now, |intents|, attempt.Refused?)];
        intents := intents + [Intent(b, cents, status)];
      }
      if b !in keys || (!KeyAnswers(b) && attempt.Nothing?) {
        return Ambiguous, attempt;
      }
      reply := if keys[b].declined then CardDeclined else Accepted(keys[b].intent);
      if !definite {
        if * {
          reply := Ambiguous;
        }
      }
    }
  }
}
