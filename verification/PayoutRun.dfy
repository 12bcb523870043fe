/**
 The stripe-connect handlers, call by call: the payout batch, onboarding and the webhook. Any call may
 fail to arrive or lose its answer, a run may end after any call, and between calls the environment
 moves. Each change is recorded as an event; Valid() says the record is legal and explains the tables.

 quiet describes an undisturbed run: every call arrives, answers are definite, nothing else happens.
 */
module PayoutRun {
  import opened Basics
  import opened PayoutProtocol
  import opened PayoutSafety
  import opened Paging

  datatype TransferReply = Sent(transfer: Id) | Rejected | Unclear

  datatype PayoutOutcome = PaidOver(transfer: Id) | FailedForGood | Deferred

  datatype OnboardReply = LinkReady | TooFarToChange | CountryRequired | Unsupported | OnboardError

  /** What may happen between two calls of a handler: onboarding, webhooks, accruals, clawbacks, time. */
  predicate IsEnvironment(e: Event) {
    Quiet(e) || e.ReverseTransfer? || e.TransferReversed?
  }

  /** Changes one publisher's connected account. */
  predicate Relinks(e: Event, p: Id) {
    match e
    case LinkAccount(q, _) => q == p
    case UnlinkAccount(q) => q == p
    case Erase(q) => q == p
    case _ => false
  }

  /** The environment leaves every pending payout, its destination and the set of transfers alone. */
  ghost predicate PendingSame(w: World, w': World) {
    && |w'.payouts| == |w.payouts|
    && |w'.publishers| >= |w.publishers|
    && (forall po: Id | po < |w.payouts| && w.payouts[po].status == PayoutPending ::
          && w'.payouts[po] == w.payouts[po]
          && w.payouts[po].publisher < |w.publishers|
          && w'.publishers[w.payouts[po].publisher].account == w.publishers[w.payouts[po].publisher].account)
    && (forall po: Id | po < |w.payouts| && w.payouts[po].status != PayoutPending :: w'.payouts[po].status != PayoutPending)
    && SameTransfers(w, w')
  }

  ghost predicate SameTransfers(w: World, w': World) {
    && |w'.transfers| == |w.transfers|
    && forall t: Id | t < |w.transfers| :: w'.transfers[t].payout == w.transfers[t].payout
  }

  lemma ReversalsKeepPending(w: World, e: Event)
    requires PayoutsOk(w) && Legal(w, e) && (e.ReverseTransfer? || e.TransferReversed?)
    requires forall po: Id | po < |w.payouts| :: w.payouts[po].publisher < |w.publishers|
    ensures PendingSame(w, Next(w, e))
  {
  }

  lemma EnvironmentKeepsPending(w: World, e: Event)
    requires Inv(w) && Legal(w, e) && IsEnvironment(e)
    ensures PendingSame(w, Next(w, e))
  {
    assert forall po: Id | po < |w.payouts| :: w.payouts[po].publisher < |w.publishers|;
    if Quiet(e) {
      QuietLeavesPending(w, e);
      QuietWritesNothing(w, e);
    } else {
      ReversalsKeepPending(w, e);
    }
  }

  lemma PendingSameReflexive(w0: World, es: seq<Event>, w: World)
    requires Initial(w0) && Reaches(w0, es, w)
    ensures PendingSame(w, w)
  {
    InitialInv(w0);
    ReachesInv(w0, es, w);
  }

  /** Accounts are never forgotten, and another publisher's onboarding leaves this one's account alone. */
  ghost predicate AccountsKept(w: World, w': World, p: Option<Id>) {
    && |w.accounts| <= |w'.accounts|
    && |w.publishers| <= |w'.publishers|
    && (forall a: Id | a < |w.accounts| && w.accounts[a].deleted :: w'.accounts[a].deleted)
    && (p.Some? && p.value < |w.publishers| ==> w'.publishers[p.value].account == w.publishers[p.value].account)
  }

  lemma EnvironmentKeepsAccounts(w: World, e: Event, p: Option<Id>)
    requires Legal(w, e) && IsEnvironment(e) && (p.Some? ==> !Relinks(e, p.value))
    ensures AccountsKept(w, Next(w, e), p)
  {
  }

  lemma PendingSameTransitive(u: World, v: World, w: World)
    requires PendingSame(u, v) && PendingSame(v, w)
    ensures PendingSame(u, w)
  {
  }

  function PendingIds(payouts: seq<Payout>): seq<Id> {
    if payouts == [] then []
    else
      var last := |payouts| - 1;
      PendingIds(payouts[..last]) + if payouts[last].status == PayoutPending then [last] else []
  }

  lemma {:induction false} PendingIdsMembers(payouts: seq<Payout>)
    ensures var ids := PendingIds(payouts);
            && (forall po: Id :: po in ids <==> po < |payouts| && payouts[po].status == PayoutPending)
            && (forall i: nat | i < |ids| :: ids[i] < |payouts| && payouts[ids[i]].status == PayoutPending)
            && (forall i: nat, j: nat | i < j < |ids| :: ids[i] < ids[j])
  {
    if payouts != [] {
      PendingIdsMembers(payouts[..|payouts| - 1]);
    }
  }

  /** What Stripe lists for a destination from a point in time on, newest first. */
  function ListedTo(transfers: seq<Transfer>, destination: Id, since: int): seq<Item<ListedTransfer>> {
    if transfers == [] then []
    else
      var last := |transfers| - 1;
      var t := transfers[last];
      (if t.destination == destination && t.createdAt >= since
       then [Item(last, ListedTransfer(true, Some(t.payout), t.cents, t.reversed))] else [])
      + ListedTo(transfers[..last], destination, since)
  }

  predicate Matches(t: Transfer, destination: Id, since: int) {
    t.destination == destination && t.createdAt >= since
  }

  /** Every entry is a transfer of the world, and every match has an entry. */
  lemma {:induction false} ListedToIs(transfers: seq<Transfer>, destination: Id, since: int)
    ensures var list := ListedTo(transfers, destination, since);
            && (forall x <- list :: x.id < |transfers| && x.content.payout == Some(transfers[x.id].payout)
                                    && Matches(transfers[x.id], destination, since))
            && (forall t: nat | t < |transfers| && Matches(transfers[t], destination, since) ::
                  exists x :: x in list && x.id == t)
  {
    if transfers != [] {
      var last := |transfers| - 1;
      var list := ListedTo(transfers, destination, since);
      ListedToIs(transfers[..last], destination, since);
      forall t: nat | t < |transfers| && Matches(transfers[t], destination, since)
        ensures exists x :: x in list && x.id == t
      {
        if t == last {
          assert list[0].id == t && list[0] in list;
        } else {
          assert transfers[..last][t] == transfers[t];
          var x :| x in ListedTo(transfers[..last], destination, since) && x.id == t;
          assert x in list;
        }
      }
    }
  }

  predicate DescendsBelow(list: seq<Item<ListedTransfer>>, n: nat) {
    && (forall i: nat | i < |list| :: list[i].id < n)
    && (forall i: nat, j: nat | i < j < |list| :: list[i].id > list[j].id)
  }

  lemma DescendsOn(x: Item<ListedTransfer>, rest: seq<Item<ListedTransfer>>, n: nat)
    requires DescendsBelow(rest, n) && x.id == n
    ensures DescendsBelow([x] + rest, n + 1)
  {
  }

  lemma {:induction false} ListedToDescends(transfers: seq<Transfer>, destination: Id, since: int)
    ensures DescendsBelow(ListedTo(transfers, destination, since), |transfers|)
  {
    if transfers != [] {
      var last := |transfers| - 1;
      var t := transfers[last];
      var rest := ListedTo(transfers[..last], destination, since);
      ListedToDescends(transfers[..last], destination, since);
      DescendsOn(Item(last, ListedTransfer(true, Some(t.payout), t.cents, t.reversed)), rest, last);
      assert [] + rest == rest;
    }
  }

  class PayoutDesk {
    var publishers: seq<Publisher>
    var accounts: seq<Account>
    var payouts: seq<Payout>
    var ledger: seq<Legs>
    var transfers: seq<Transfer>
    var keys: map<Id, TransferKey>
    var now: nat
    var blind: set<Id>              // of the world's history; no table stores these two
    var overdrawn: set<Id>
    ghost const start: World
    ghost var log: seq<Event>
    ghost var rejected: set<Id>     // payouts whose create Stripe definitively rejected

    function World(): World
      reads this
    {
      PayoutProtocol.World(publishers, accounts, payouts, ledger, transfers, keys, now, blind, overdrawn)
    }

    ghost predicate Valid()
      reads this
    {
      Initial(start) && Reaches(start, log, World())
    }

    constructor ()
      ensures Valid() && log == []
    {
      publishers, accounts, payouts, ledger, transfers, keys, now := [], [], [], [], [], map[], 0;
      blind, overdrawn, log, rejected := {}, {}, [], {};
      start := PayoutProtocol.World([], [], [], [], [], map[], 0, {}, {});
    }

    lemma HasInv()
      requires Valid()
      ensures Inv(World())
    {
      InitialInv(start);
      ReachesInv(start, log, World());
    }

    ghost method Record(before: World, e: Event)
      requires Initial(start) && Reaches(start, log, before) && Legal(before, e) && World() == Next(before, e)
      modifies `log
      ensures Valid() && log == old(log) + [e]
    {
      ReachesStep(start, log, before, e);
      log := log + [e];
    }

    // -------------------------------------------------------------- the environment

    method Happen(e: Event)
      requires Valid() && Legal(World(), e) && IsEnvironment(e)
      modifies this
      ensures Valid() && old(log) <= log && rejected == old(rejected) && World() == Next(old(World()), e)
      ensures PendingSame(old(World()), World())
    {
      HasInv();
      EnvironmentKeepsPending(World(), e);
      ghost var before := World();
      var w := Next(World(), e);
      publishers, accounts, payouts, ledger := w.publishers, w.accounts, w.payouts, w.ledger;
      transfers, keys, now, blind, overdrawn := w.transfers, w.keys, w.now, w.blind, w.overdrawn;
      assert World() == w;
      Record(before, e);
    }

    /** Any number of environment steps; onboarding names a publisher no other onboarding request touches. */
    method Interleave(onboarding: Option<Id>, quiet: bool)
      requires Valid()
      modifies this
      ensures Valid() && old(log) <= log && rejected == old(rejected) && PendingSame(old(World()), World())
      ensures quiet ==> World() == old(World())
      ensures AccountsKept(old(World()), World(), onboarding)
    {
      PendingSameReflexive(start, log, World());
      ghost var before := World();
      var n: int := *;
      var k := if quiet then 0 else n;
      while k > 0
        invariant Valid() && old(log) <= log && rejected == old(rejected) && PendingSame(before, World())
        invariant quiet ==> World() == before
        invariant AccountsKept(before, World(), onboarding)
      {
        var e: Event := *;
        if IsEnvironment(e) && Legal(World(), e) && (onboarding.None? || !Relinks(e, onboarding.value)) {
          ghost var mid := World();
          EnvironmentKeepsAccounts(mid, e, onboarding);
          Happen(e);
          PendingSameTransitive(before, mid, World());
        }
        k := k - 1;
      }
    }

    // -------------------------------------------------------------- database calls

    /** payout_batch_reserve: one transaction over at most a hundred eligible publishers, oldest first. */
    method ReserveBatch(min: nat, max: nat)
      requires Valid() && min >= 1
      modifies this
      ensures Valid() && old(log) <= log && rejected == old(rejected)
      ensures publishers == old(publishers) && ledger == old(ledger) && transfers == old(transfers)
      ensures NewReserved(old(World()), payouts, min, max)
      ensures forall p: Id | MayReserve(old(World()), p) && Candidates(old(World()), p) < 100
                             && ReserveAmount(old(World()), p, min, max).Some? ::
                ReservedFrom(payouts, |old(payouts)|, p)
      ensures max == 10000000000 ==> ReservesExactly(old(World()), payouts, min)
    {
      ghost var before := World();
      var taken, p := 0, 0;
      while p < |publishers| && taken < 100
        invariant Valid() && old(log) <= log && rejected == old(rejected)
        invariant World() == before.(payouts := payouts)
        invariant p <= |publishers| && taken == Candidates(before, p)
        invariant NewReserved(before, payouts, min, max) && NewOnlyBelow(before, payouts, p)
        invariant AllReservedBelow(before, payouts, p, min, max)
        invariant NewApart(before, payouts)
      {
        PendingOnlyBelow(before, World(), p);
        ghost var rows := payouts;
        if MayReserve(World(), p) {
          taken := taken + 1;
          ReserveOne(p, min, max);
        }
        ReservedOneMore(before, rows, payouts, p, min, max);
        ApartOneMore(before, rows, payouts, p);
        p := p + 1;
      }
      CandidatesGrow(before, p);
      if max == 10000000000 {
        ReservedExactly(before, payouts, min);
      }
    }

    method ReserveOne(p: Id, min: nat, max: nat)
      requires Valid() && min >= 1 && MayReserve(World(), p)
      modifies this
      ensures Valid() && old(log) <= log && rejected == old(rejected)
      ensures World() == old(World()).(payouts := payouts)
      ensures payouts == old(payouts) + Due(old(World()), p, min, max)
    {
      ghost var before := World();
      var amount := ReserveAmount(World(), p, min, max);
      DueIs(before, p, min, max, amount);
      if amount.Some? {
        payouts := payouts + [Payout(p, amount.value, PayoutPending, now, None, 0)];
      }
      Record(before, Reserve(p, min, max));
    }

    method ConfirmRow(po: Id, t: Id)
      requires Valid() && Legal(World(), Confirm(po, t))
      modifies this
      ensures Valid() && old(log) <= log && rejected == old(rejected)
      ensures World() == ConfirmPayout(old(World()), po, t)
    {
      ghost var before := World();
      var row := payouts[po];
      if row.status == PayoutPending {
        ledger := ledger + [Legs(po, row.publisher, row.micros, 0 - row.micros)];
        payouts := payouts[po := row.(status := Paid, transfer := Some(t))];
      }
      assert World() == ConfirmPayout(before, po, t);
      Record(before, Confirm(po, t));
    }

    /** payout_fail, after a scan that showed nothing, or blind. */
    method FailRow(po: Id, unseen: bool)
      requires Valid() && Legal(World(), if unseen then FailBlind(po) else Fail(po))
      modifies this
      ensures Valid() && old(log) <= log && rejected == old(rejected)
      ensures World() == FailPayout(old(World()), po).(blind := old(blind) + if unseen then {po} else {})
    {
      ghost var before := World();
      payouts := payouts[po := payouts[po].(status := PayoutFailed)];
      blind := blind + if unseen then {po} else {};
      Record(before, if unseen then FailBlind(po) else Fail(po));
    }

    // -------------------------------------------------------------- Stripe calls

    /** The publisher read; a failed one looks like a publisher without an account. */
    method ReadAccount(po: Id, quiet: bool) returns (acct: Option<Id>)
      requires Valid() && po < |payouts| && payouts[po].publisher < |publishers|
      ensures acct.Some? || quiet ==> acct == publishers[payouts[po].publisher].account
    {
      acct := publishers[payouts[po].publisher].account;
      var fails: bool := *;
      if fails && !quiet {
        acct := None;
      }
    }

    /** findExistingTransfer; None when a list call failed. */
    method FindExistingTransfer(acct: Id, po: Id, since: int, quiet: bool) returns (found: Option<Option<Id>>)
      ensures found.Some? && found.value.Some? ==>
                && found.value.value < |transfers| && transfers[found.value.value].payout == po
                && Matches(transfers[found.value.value], acct, since)
      ensures found == Some(None) ==>
                forall t: Id | t < |transfers| && Matches(transfers[t], acct, since) ::
                  transfers[t].payout != po
      ensures quiet ==> found.Some?
    {
      var fails: bool := *;
      if fails && !quiet {
        return None;
      }
      ListedToIs(transfers, acct, since);
      ListedToDescends(transfers, acct, since);
      var list := new Listing(ListedTo(transfers, acct, since));
      var t := FindTransferIdByMetadata(list, po);
      if t.None? {
        forall u: Id | u < |transfers| && Matches(transfers[u], acct, since)
          ensures transfers[u].payout != po
        {
          var x :| x in list.items && x.id == u;
          var k :| 0 <= k < |list.items| && list.items[k] == x;
          assert !Carries(list.items[k], po);
        }
      } else {
        ghost var k: nat :| k < |list.items| && Carries(list.items[k], po) && list.items[k].id == t.value;
        assert list.items[k] in list.items;
      }
      return Some(t);
    }

    /** transfers.create under the payout's key. */
    method CreateTransferCall(po: Id, quiet: bool) returns (reply: TransferReply)
      requires Valid() && Legal(World(), CreateTransfer(po, now, true)) && ShowsNone(World(), po)
      modifies this
      ensures Valid() && old(log) <= log
      ensures payouts == old(payouts) && publishers == old(publishers) && ledger == old(ledger) && blind == old(blind)
      ensures reply.Sent? ==> reply.transfer < |transfers| && transfers[reply.transfer].payout == po
      ensures rejected == old(rejected) + if reply.Rejected? then {po} else {}
      ensures quiet ==> !reply.Unclear?
    {
      var made: bool := *;
      var lag: int := *;
      MakeTransferOrNot(po, made, if 0 <= lag <= KEY_LIFETIME && lag <= now then now - lag else now);
      var lost: bool := *;
      if lost && !quiet {
        return Unclear;
      }
      var rejects: bool := *;
      reply := if made && !rejects then Sent(|transfers| - 1) else Rejected;
      rejected := rejected + if reply.Rejected? then {po} else {};
    }

    /** What the call does at Stripe, if it arrives and Stripe accepts it. */
    method MakeTransferOrNot(po: Id, made: bool, at: nat)
      requires Valid() && Legal(World(), CreateTransfer(po, now, true)) && ShowsNone(World(), po)
      requires at <= now <= at + KEY_LIFETIME
      modifies this
      ensures Valid() && old(log) <= log && rejected == old(rejected)
      ensures payouts == old(payouts) && publishers == old(publishers) && ledger == old(ledger) && blind == old(blind)
      ensures made ==> |transfers| == |old(transfers)| + 1 && transfers[|old(transfers)|].payout == po
    {
      KeySavedNothing(start, log, World(), po);
      ghost var before := World();
      var row := payouts[po];
      var acct := publishers[row.publisher].account.value;
      if KeyLive(World(), po) {
        // The key would replay the transfer it saved; there is none, so it saved none.
        assert false;
      } else if made {
        keys := keys[po := TransferKey(now, |transfers|)];
        transfers := transfers + [Transfer(po, acct, RoundToCents(row.micros), at, 0)];
      }
      Record(before, CreateTransfer(po, at, made));
    }

    // -------------------------------------------------------------- one payout

    /** The scan before a create and after a rejection; finding none, it rules out every transfer of the payout. */
    method PreCheck(po: Id, acct: Id, quiet: bool) returns (found: Option<Option<Id>>)
      requires Valid() && po < |payouts| && payouts[po].status == PayoutPending
      requires payouts[po].publisher < |publishers| && publishers[payouts[po].publisher].account == Some(acct)
      ensures found.Some? && found.value.Some? ==>
                found.value.value < |transfers| && transfers[found.value.value].payout == po
      ensures found == Some(None) ==> ShowsNone(World(), po) && !HasTransfer(World(), po)
      ensures quiet ==> found.Some?
    {
      found := FindExistingTransfer(acct, po, payouts[po].createdAt - KEY_LIFETIME, quiet);
      forall t: Id | t < |transfers| && transfers[t].payout == po
        ensures Matches(transfers[t], acct, payouts[po].createdAt - KEY_LIFETIME)
      {
        ScanHidesNothing(start, log, World(), po, t);
      }
    }

    /** Phase A: a transfer id, by finding one or creating one; a definitive rejection fails the payout. */
    method ObtainTransfer(po: Id, acct: Id, quiet: bool) returns (transfer: Option<Id>, failed: bool)
      requires Valid() && po < |payouts| && payouts[po].status == PayoutPending
      requires payouts[po].publisher < |publishers| && publishers[payouts[po].publisher].account == Some(acct)
      modifies this
      ensures Valid() && old(log) <= log
      ensures |payouts| == |old(payouts)| && OthersKeepStatus(old(payouts), payouts, po)
      ensures transfer.Some? ==> transfer.value < |transfers| && transfers[transfer.value].payout == po
      ensures transfer.Some? ==> payouts[po].status == PayoutPending
      ensures failed ==> transfer.None? && payouts[po].status == PayoutFailed && po in rejected
      ensures blind == old(blind) || (blind == old(blind) + {po} && failed && !quiet)
      ensures failed && blind == old(blind) && po !in blind ==> !HasTransfer(World(), po)
      ensures old(rejected) <= rejected <= old(rejected) + {po}
      ensures quiet ==> transfer.Some? || failed
      ensures quiet ==> payouts == old(payouts)[po := payouts[po]]
    {
      var found := PreCheck(po, acct, quiet);
      if found.None? {
        return None, false;
      }
      if found.value.Some? {
        return found.value, false;
      }
      var reply := CreateTransferCall(po, quiet);
      match reply {
        case Sent(t) =>
          return Some(t), false;
        case Unclear =>
          return None, false;
        case Rejected =>
          var recheck := PreCheck(po, acct, quiet);
          if recheck.Some? && recheck.value.Some? {
            return recheck.value, false;
          }
          FailRow(po, recheck.None?);
          return None, true;
      }
    }

    /** One iteration of the batch loop. */
    method SettlePayout(po: Id, quiet: bool) returns (outcome: PayoutOutcome)
      requires Valid() && po < |payouts| && payouts[po].status == PayoutPending
      modifies this
      ensures Valid() && old(log) <= log
      ensures |payouts| == |old(payouts)| && OthersKeepStatus(old(payouts), payouts, po)
      ensures quiet ==> payouts[po].status != PayoutPending
      ensures outcome.PaidOver? ==>
                && outcome.transfer < |transfers| && transfers[outcome.transfer].payout == po
                && (quiet ==> payouts[po].status == Paid && payouts[po].transfer == Some(outcome.transfer))
      ensures outcome.FailedForGood? ==> payouts[po].status == PayoutFailed
      ensures outcome.FailedForGood? && po !in blind ==> !HasTransfer(World(), po) && po in rejected
      ensures quiet && po !in old(blind) ==> po !in blind
      ensures quiet ==> !outcome.Deferred? && EndedWell(po) && old(rejected) <= rejected
      ensures quiet ==> payouts == old(payouts)[po := payouts[po]]
    {
      PendingHasAccount(start, log, World(), po);
      var acct := ReadAccount(po, quiet);
      if acct.None? {
        FailRow(po, true);
        return FailedForGood;
      }
      Interleave(None, quiet);
      var transfer, failed := ObtainTransfer(po, acct.value, quiet);
      if failed {
        return FailedForGood;
      }
      if transfer.None? {
        return Deferred;
      }
      var confirmed := ConfirmSoon(po, transfer.value, quiet);
      outcome := if confirmed then PaidOver(transfer.value) else Deferred;
    }

    /** The confirm after a transfer was obtained; it may not arrive. */
    method ConfirmSoon(po: Id, t: Id, quiet: bool) returns (arrived: bool)
      requires Valid() && po < |payouts| && payouts[po].status == PayoutPending
      requires t < |transfers| && transfers[t].payout == po
      modifies this
      ensures Valid() && old(log) <= log && (quiet ==> blind == old(blind))
      ensures |payouts| == |old(payouts)| && OthersKeepStatus(old(payouts), payouts, po)
      ensures t < |transfers| && transfers[t].payout == po
      ensures arrived ==> payouts[po].status == Paid && payouts[po].transfer == Some(t)
      ensures quiet ==> arrived && rejected == old(rejected) && payouts == old(payouts)[po := payouts[po]]
    {
      ghost var was := World();
      Interleave(None, quiet);
      assert payouts[po] == was.payouts[po];
      arrived := *;
      arrived := arrived || quiet;
      if arrived {
        ConfirmRow(po, t);
      }
    }

    // -------------------------------------------------------------- the batch

    /**
     POST /payout/batch: reserve, then settle every pending payout, up to 500, stopping anywhere.
     Undisturbed it reserves what every entitled publisher is due; a live run over at most 500 then leaves
     everything that was pending, the new rows included, paid or rejected, and a dry run moves no money.
     */
    method Batch(min: nat, dryRun: bool, quiet: bool)
      requires Valid() && min >= 1
      modifies this
      ensures Valid() && old(log) <= log
      ensures quiet ==> ReservesExactly(old(World()), payouts, min)
      ensures dryRun ==> |transfers| == |old(transfers)|
      ensures dryRun && quiet ==>
                && transfers == old(transfers) && ledger == old(ledger) && old(payouts) <= payouts
                && forall po: Id | |old(payouts)| <= po < |payouts| :: payouts[po].status == PayoutPending
      ensures !dryRun && quiet && |PendingIds(old(payouts))| + |payouts| - |old(payouts)| <= 500 ==>
                && PendingIds(payouts) == []
                && forall po: Id | po < |payouts| && (po < |old(payouts)| ==> old(payouts)[po].status == PayoutPending) ::
                     PaidOrRejected(World(), rejected, po)
    {
      ghost var first := World();
      var arrives: bool := *;
      if !arrives && !quiet {
        return;
      }
      ReserveBatch(min, 10000000000);
      NewPendingCount(first.payouts, payouts);
      Interleave(None, quiet);
      if dryRun {
        return;
      }
      ghost var reserved := payouts;
      SettlePending(quiet);
      if quiet {
        ReservesStay(first, reserved, payouts, min);
      }
    }

    /** Everything pending, up to 500. */
    method SettlePending(quiet: bool)
      requires Valid()
      modifies this
      ensures Valid() && old(log) <= log
      ensures quiet ==> RowsKept(old(World()), World()) && |payouts| == |old(payouts)|
      ensures quiet && |PendingIds(old(payouts))| <= 500 ==>
                && PendingIds(payouts) == []
                && forall po: Id | po < |payouts| && old(payouts)[po].status == PayoutPending :: PaidOrRejected(World(), rejected, po)
    {
      ghost var before, es := World(), log;
      PendingSameReflexive(start, log, before);
      var readFails: bool := *;
      if readFails && !quiet {
        return;
      }
      var ids := PendingIds(payouts);
      var pending := if |ids| <= 500 then ids else ids[..500];
      PendingIdsMembers(payouts);
      SettleAll(pending, quiet);
      RowsKeptLater(start, es, before, log, World());
      if quiet && |ids| <= 500 {
        NoneLeft(before.payouts, payouts);
        AllListed(before.payouts, World(), rejected);
      }
    }

    /** The loop over the listed payouts. */
    method SettleAll(pending: seq<Id>, quiet: bool)
      requires Valid() && StillPending(payouts, pending, 0) && Ascending(pending)
      modifies this
      ensures Valid() && old(log) <= log
      ensures quiet ==> |payouts| == |old(payouts)| && OnlyOutside(old(payouts), payouts, pending)
      ensures quiet ==> forall i: nat | i < |pending| :: PaidOrRejected(World(), rejected, pending[i])
    {
      ghost var before := payouts;
      var k := 0;
      var alive := true;
      while k < |pending| && alive
        invariant 0 <= k <= |pending| && (quiet ==> alive)
        invariant Valid() && old(log) <= log
        invariant StillPending(payouts, pending, k)
        invariant quiet ==> |payouts| == |before| && OnlyOutside(before, payouts, pending[..k])
        invariant quiet ==> forall i: nat | i < k :: EndedWell(pending[i])
      {
        ghost var rows := payouts;
        var outcome := SettlePayout(pending[k], quiet);
        SettledOne(rows, payouts, pending, k);
        if quiet {
          OutsideOneMore(before, rows, payouts, pending, k);
        }
        ghost var mid := World();
        Interleave(None, quiet);
        StillPendingLater(mid, World(), pending, k + 1);
        alive := *;
        alive := alive || quiet;
        k := k + 1;
      }
      assert k == |pending| ==> pending[..k] == pending;
      forall i: nat | quiet && i < |pending|
        ensures PaidOrRejected(World(), rejected, pending[i])
      {
        PaidOverItsOwn(start, log, World(), rejected, pending[i]);
      }
    }

    ghost predicate EndedWell(po: Id)
      reads this
    {
      po < |payouts| && (payouts[po].status == Paid || (payouts[po].status == PayoutFailed && po in rejected))
    }

    // -------------------------------------------------------------- onboarding

    /**
     POST /connect/onboard. wantsOther: the request names a country other than the stored one;
     country: whether a country could be resolved, and whether it is supported. The account is read
     and deleted in one moment, and requests of one publisher do not overlap. Whatever it does, a
     publisher with a pending payout keeps its connected account.
     */
    method Onboard(p: Id, wantsOther: bool, country: Option<bool>, quiet: bool) returns (reply: OnboardReply)
      requires Valid() && p < |publishers|
      modifies this
      ensures Valid() && old(log) <= log && rejected == old(rejected) && PendingSame(old(World()), World())
      ensures forall po: Id | po < |old(payouts)| && old(payouts)[po].status == PayoutPending && old(payouts)[po].publisher == p ::
                publishers[p].account == old(publishers)[p].account
      ensures reply.TooFarToChange? ==> World() == old(World())
      ensures reply.TooFarToChange? <==> wantsOther && old(Underway(World(), p))
      ensures reply.LinkReady? ==>
                && p < |publishers| && publishers[p].account.Some?
                && (wantsOther && old(publishers)[p].account.Some? ==> publishers[p].account.value >= |old(accounts)|)
      ensures quiet ==> OnboardsTo(old(World()), World(), p, wantsOther, country, reply)
    {
      ghost var before := World();
      PendingSameReflexive(start, log, before);
      AccountBounds(start, log, before, p);
      var acct := publishers[p].account;
      if acct.Some? && wantsOther {
        reply := RedoCountry(p, acct.value, quiet);
        if !reply.LinkReady? {
          return;
        }
        acct := None;
      }
      if acct.None? {
        ghost var mid := World();
        reply := CreateAccount(p, country, quiet);
        PendingSameTransitive(before, mid, World());
      } else {
        reply := LinkReady;
      }
    }

    /** Delete an account nobody finished onboarding, and unlink it; possibly cut short in between. */
    method RedoCountry(p: Id, acct: Id, quiet: bool) returns (reply: OnboardReply)
      requires Valid() && p < |publishers| && publishers[p].account == Some(acct)
      modifies this
      ensures Valid() && old(log) <= log && rejected == old(rejected) && PendingSame(old(World()), World())
      ensures reply.LinkReady? || reply.TooFarToChange? || reply.OnboardError?
      ensures reply.TooFarToChange? ==> World() == old(World())
      ensures reply.TooFarToChange? <==> old(Underway(World(), p))
      ensures |accounts| >= |old(accounts)|
      ensures reply.LinkReady? ==> p < |publishers| && publishers[p].account.None?
      ensures quiet ==> reply.LinkReady? || reply.TooFarToChange?
      ensures quiet && reply.LinkReady? ==> Unlinked(old(World()), World(), p)
    {
      ghost var before := World();
      PendingSameReflexive(start, log, before);
      AccountExists(start, log, before, p);
      if accounts[acct].submitted || accounts[acct].enabled {
        return TooFarToChange;
      }
      var arrives: bool := *;
      if !arrives && !quiet {
        return OnboardError;
      }
      DeleteOld(p, acct, quiet);
      arrives := *;
      if !arrives && !quiet {
        return OnboardError;
      }
      ghost var mid := World();
      Happen(UnlinkAccount(p));
      PendingSameTransitive(before, mid, World());
      reply := LinkReady;
    }

    /** accounts.del at Stripe, and what happens before the unlink. */
    method DeleteOld(p: Id, acct: Id, quiet: bool)
      requires Valid() && p < |publishers| && publishers[p].account == Some(acct)
      requires Legal(World(), DeleteAccount(acct))
      modifies this
      ensures Valid() && old(log) <= log && rejected == old(rejected) && PendingSame(old(World()), World())
      ensures |accounts| >= |old(accounts)| && Legal(World(), UnlinkAccount(p))
      ensures quiet ==> World() == old(World()).(accounts := old(accounts)[acct := old(accounts)[acct].(deleted := true)])
    {
      ghost var before := World();
      Happen(DeleteAccount(acct));
      ghost var mid := World();
      Interleave(Some(p), quiet);
      PendingSameTransitive(before, mid, World());
    }

    method CreateAccount(p: Id, country: Option<bool>, quiet: bool) returns (reply: OnboardReply)
      requires Valid() && p < |publishers| && publishers[p].account.None?
      modifies this
      ensures Valid() && old(log) <= log && rejected == old(rejected) && PendingSame(old(World()), World())
      ensures !reply.TooFarToChange?
      ensures reply.CountryRequired? <==> country == None
      ensures reply.Unsupported? <==> country == Some(false)
      ensures reply.CountryRequired? ==> World() == old(World())
      ensures reply.Unsupported? ==>
                World() == old(World()).(publishers := old(publishers)[p := old(publishers)[p].(eligibility := IneligibleCountry)])
      ensures quiet && country == Some(true) ==> reply.LinkReady?
      ensures reply.LinkReady? ==>
                p < |publishers| && publishers[p].account.Some? && publishers[p].account.value >= |old(accounts)|
      ensures quiet && reply.LinkReady? ==> LinkedAfresh(old(World()), World(), p)
    {
      PendingSameReflexive(start, log, World());
      if country.None? {
        return CountryRequired;
      }
      if !country.value {
        Happen(StampIneligible(p));
        return Unsupported;
      }
      reply := OpenAndLink(p, quiet);
    }

    /** accounts.create at Stripe, then the link to the publisher; possibly cut short in between. */
    method OpenAndLink(p: Id, quiet: bool) returns (reply: OnboardReply)
      requires Valid() && p < |publishers| && publishers[p].account.None?
      modifies this
      ensures Valid() && old(log) <= log && rejected == old(rejected) && PendingSame(old(World()), World())
      ensures reply.LinkReady? || (reply.OnboardError? && !quiet)
      ensures reply.LinkReady? ==>
                p < |publishers| && publishers[p].account.Some? && publishers[p].account.value >= |old(accounts)|
      ensures quiet ==> LinkedAfresh(old(World()), World(), p)
    {
      ghost var before := World();
      Happen(OpenAccount(true));
      var a := |accounts| - 1;
      ghost var mid := World();
      Interleave(Some(p), quiet);
      PendingSameTransitive(before, mid, World());
      var arrives: bool := *;
      if !arrives && !quiet {
        return OnboardError;
      }
      mid := World();
      Happen(LinkAccount(p, a));
      PendingSameTransitive(before, mid, World());
      reply := LinkReady;
    }

    // -------------------------------------------------------------- webhook handlers

    /** account.updated: the event shows a state the account had. */
    method OnAccountUpdated(a: Id, seen: Account)
      requires Valid() && Legal(World(), AccountUpdated(a, seen))
      modifies this
      ensures Valid() && old(log) <= log && rejected == old(rejected) && PendingSame(old(World()), World())
      ensures World() == SetEligibility(old(World()), a, EligibilityFor(seen))
      ensures ShowsStatus(old(World()), World(), a, seen)
    {
      HasInv();
      ghost var before := World();
      EnvironmentKeepsPending(before, AccountUpdated(a, seen));
      var status := EligibilityFor(seen);
      publishers := seq(|publishers|, p requires 0 <= p < |publishers| reads this =>
        if publishers[p].account == Some(a)
        then publishers[p].(eligibility := if status == Verified && publishers[p].held then AwaitingDetails else status)
        else publishers[p]);
      Record(before, AccountUpdated(a, seen));
    }

    /** transfer.reversed: look the payout up by its transfer id, then book what is new. */
    method OnTransferReversed(t: Id, seenCents: nat)
      requires Valid() && Legal(World(), TransferReversed(t, seenCents))
      modifies this
      ensures Valid() && old(log) <= log && rejected == old(rejected) && PendingSame(old(World()), World())
      ensures World() == Next(old(World()), TransferReversed(t, seenCents))
    {
      HasInv();
      ghost var before := World();
      EnvironmentKeepsPending(before, TransferReversed(t, seenCents));
      var po := PayoutOfTransfer(payouts, t);
      if po.Some? {
        BookReversal(po.value, seenCents * MICROS_PER_CENT);
      }
      Record(before, TransferReversed(t, seenCents));
    }

    /** payout_reverse: nothing unless the payout is paid and more was reversed than is booked. */
    method BookReversal(po: Id, cumulative: nat)
      requires po < |payouts|
      modifies `payouts, `ledger
      ensures World() == ReversePayout(old(World()), po, cumulative)
    {
      var row := payouts[po];
      var target := if cumulative < row.micros then cumulative else row.micros;
      var delta := target - row.reversed;
      if row.status == Paid && delta > 0 {
        ledger := ledger + [Legs(po, row.publisher, 0 - delta, delta)];
        payouts := payouts[po := row.(reversed := target, status := if target >= row.micros then PayoutFailed else row.status)];
      }
    }
  }

  /**
   An account's publishers show its state: ineligible in an unsupported country, else verified with payouts
   enabled, details submitted and no hold, else awaiting details. Nothing else changes.
   */
  ghost predicate ShowsStatus(w: World, w': World, a: Id, seen: Account) {
    && w' == w.(publishers := w'.publishers)
    && |w'.publishers| == |w.publishers|
    && forall p: Id | p < |w.publishers| ::
         var x, y := w.publishers[p], w'.publishers[p];
         && y == x.(eligibility := y.eligibility)
         && (x.account != Some(a) ==> y == x)
         && (x.account == Some(a) ==>
               && (y.eligibility == Verified <==> seen.supported && seen.enabled && seen.submitted && !x.held)
               && (y.eligibility == IneligibleCountry <==> !seen.supported)
               && (y.eligibility == AwaitingDetails <==> seen.supported && !(seen.enabled && seen.submitted && !x.held)))
  }

  /** A settlement touches the status of its own payout only, except that a paid one may be reversed meanwhile. */
  ghost predicate OthersKeepStatus(before: seq<Payout>, after: seq<Payout>, po: Id) {
    && |after| == |before|
    && forall q: Id | q < |before| && q != po :: before[q].status == PayoutPending <==> after[q].status == PayoutPending
  }

  ghost predicate ReservedFrom(payouts: seq<Payout>, n: nat, p: Id) {
    exists po: Id :: n <= po < |payouts| && payouts[po].publisher == p
  }

  lemma ReservedStay(payouts: seq<Payout>, more: seq<Payout>, n: nat)
    requires payouts <= more
    ensures forall p: Id | ReservedFrom(payouts, n, p) :: ReservedFrom(more, n, p)
  {
    forall p: Id | ReservedFrom(payouts, n, p)
      ensures ReservedFrom(more, n, p)
    {
      var po: Id :| n <= po < |payouts| && payouts[po].publisher == p;
      assert more[po] == payouts[po];
    }
  }

  /** The row a reserve adds for a publisher, if any. */
  function Due(w: World, p: Id, min: nat, max: nat): seq<Payout>
    requires p < |w.publishers|
  {
    var amount := ReserveAmount(w, p, min, max);
    if amount.None? then [] else [Payout(p, amount.value, PayoutPending, w.now, None, 0)]
  }

  lemma DueIs(w: World, p: Id, min: nat, max: nat, amount: Option<nat>)
    requires MayReserve(w, p) && min >= 1 && amount == ReserveAmount(w, p, min, max)
    ensures Due(w, p, min, max) == if amount.None? then [] else [Payout(p, amount.value, PayoutPending, w.now, None, 0)]
    ensures Legal(w, Reserve(p, min, max))
    ensures Next(w, Reserve(p, min, max)) == w.(payouts := w.payouts + Due(w, p, min, max))
  {
  }

  /** A verified, active publisher with a connected account, not held, and with nothing pending. */
  ghost predicate Entitled(w: World, p: Id) {
    && p < |w.publishers|
    && w.publishers[p].eligibility == Verified && w.publishers[p].account.Some?
    && w.publishers[p].active && !w.publishers[p].held
    && forall po: Id | po < |w.payouts| && w.payouts[po].publisher == p :: w.payouts[po].status != PayoutPending
  }

  /** How many of the first n publishers are entitled. */
  ghost function EntitledBelow(w: World, n: nat): nat {
    if n == 0 then 0 else EntitledBelow(w, n - 1) + if Entitled(w, n - 1) then 1 else 0
  }

  ghost predicate FirstHundred(w: World, p: Id) {
    Entitled(w, p) && EntitledBelow(w, p) < 100
  }

  /**
   What an entitled publisher is due: all whole cents of what was earned and not paid out, if they come to
   the minimum (one cent for a closing publisher) and not to more than ten thousand euro.
   */
  ghost predicate DueTo(w: World, p: Id, min: nat, micros: nat) {
    && p < |w.publishers|
    && micros % 10000 == 0
    && micros <= w.publishers[p].earned - PaidOut(w.ledger, p) < micros + 10000
    && (if w.publishers[p].closing then 10000 else min) <= micros <= 10000000000
  }

  ghost predicate NewRow(payouts: seq<Payout>, n: nat, po: Id, p: Id, micros: nat) {
    n <= po < |payouts| && payouts[po].publisher == p && payouts[po].micros == micros
  }

  /** The new rows are one for each of the first hundred entitled publishers that is due something, and no other. */
  ghost predicate ReservesExactly(w: World, payouts: seq<Payout>, min: nat) {
    var n := |w.payouts|;
    && n <= |payouts|
    && (forall p: Id, micros: nat | FirstHundred(w, p) && DueTo(w, p, min, micros) ::
          exists po: Id :: NewRow(payouts, n, po, p, micros))
    && (forall po: Id | n <= po < |payouts| ::
          var p := payouts[po].publisher;
          FirstHundred(w, p) && DueTo(w, p, min, payouts[po].micros))
    && forall po: Id, q: Id | n <= po < q < |payouts| :: payouts[po].publisher != payouts[q].publisher
  }

  lemma MayReserveIsEntitled(w: World, p: Id)
    ensures MayReserve(w, p) <==> Entitled(w, p)
  {
  }

  lemma {:induction false} CandidatesAreEntitled(w: World, n: nat)
    ensures Candidates(w, n) == EntitledBelow(w, n)
  {
    if n > 0 {
      CandidatesAreEntitled(w, n - 1);
      MayReserveIsEntitled(w, n - 1);
    }
  }

  lemma AmountIsDue(w: World, p: Id, min: nat, micros: nat)
    requires p < |w.publishers| && min >= 1
    ensures ReserveAmount(w, p, min, 10000000000) == Some(micros) <==> DueTo(w, p, min, micros)
  {
  }

  /** The reserve's own words and these. */
  lemma ReservedExactly(w: World, payouts: seq<Payout>, min: nat)
    requires NewReserved(w, payouts, min, 10000000000) && min >= 1
    requires NewApart(w, payouts)
    requires forall p: Id | MayReserve(w, p) && Candidates(w, p) < 100 && ReserveAmount(w, p, min, 10000000000).Some? ::
               ReservedFrom(payouts, |w.payouts|, p)
    ensures ReservesExactly(w, payouts, min)
  {
    forall p: Id, micros: nat | FirstHundred(w, p) && DueTo(w, p, min, micros)
      ensures exists po: Id :: NewRow(payouts, |w.payouts|, po, p, micros)
    {
      MayReserveIsEntitled(w, p);
      CandidatesAreEntitled(w, p);
      AmountIsDue(w, p, min, micros);
      var po: Id :| |w.payouts| <= po < |payouts| && payouts[po].publisher == p;
      assert NewRow(payouts, |w.payouts|, po, p, micros);
    }
    forall po: Id | |w.payouts| <= po < |payouts|
      ensures var p := payouts[po].publisher;
              FirstHundred(w, p) && DueTo(w, p, min, payouts[po].micros)
    {
      MayReserveIsEntitled(w, payouts[po].publisher);
      CandidatesAreEntitled(w, payouts[po].publisher);
      AmountIsDue(w, payouts[po].publisher, min, payouts[po].micros);
    }
  }

  ghost predicate Early(w: World, p: Id) {
    Candidates(w, p) < 100
  }

  /** The new rows are of different publishers, each among the first hundred candidates. */
  ghost predicate NewApart(before: World, payouts: seq<Payout>) {
    && (forall po: Id | |before.payouts| <= po < |payouts| :: Early(before, payouts[po].publisher))
    && forall po: Id, q: Id | |before.payouts| <= po < q < |payouts| :: payouts[po].publisher != payouts[q].publisher
  }

  /** Later on a payout still has its publisher and its amount. */
  ghost predicate RowsKept(w: World, w': World) {
    && |w.payouts| <= |w'.payouts|
    && forall po: Id | po < |w.payouts| ::
         w'.payouts[po].publisher == w.payouts[po].publisher && w'.payouts[po].micros == w.payouts[po].micros
  }

  lemma NextKeepsRows(w: World, e: Event)
    requires Legal(w, e)
    ensures RowsKept(w, Next(w, e))
  {
  }

  lemma {:induction false} RowsKeptLater(w0: World, es: seq<Event>, w: World, fs: seq<Event>, w': World)
    requires Reaches(w0, es, w) && Reaches(w0, fs, w') && es <= fs
    ensures RowsKept(w, w')
    decreases |fs|
  {
    if es == fs {
      OneWorldReached(w0, es, w, w');
    } else {
      var last := |fs| - 1;
      var mid: World :| Reaches(w0, fs[..last], mid) && Legal(mid, fs[last]) && w' == Next(mid, fs[last]);
      RowsKeptLater(w0, es, w, fs[..last], mid);
      NextKeepsRows(mid, fs[last]);
    }
  }

  lemma ReservesStay(w: World, before: seq<Payout>, after: seq<Payout>, min: nat)
    requires ReservesExactly(w, before, min) && |after| == |before|
    requires forall po: Id | po < |before| :: after[po].publisher == before[po].publisher && after[po].micros == before[po].micros
    ensures ReservesExactly(w, after, min)
  {
    forall p: Id, micros: nat | FirstHundred(w, p) && DueTo(w, p, min, micros)
      ensures exists po: Id :: NewRow(after, |w.payouts|, po, p, micros)
    {
      var po: Id :| NewRow(before, |w.payouts|, po, p, micros);
      assert NewRow(after, |w.payouts|, po, p, micros);
    }
  }

  lemma AllListed(listed: seq<Payout>, w: World, rejected: set<Id>)
    requires forall i: nat | i < |PendingIds(listed)| :: PaidOrRejected(w, rejected, PendingIds(listed)[i])
    ensures forall po: Id | po < |listed| && listed[po].status == PayoutPending :: PaidOrRejected(w, rejected, po)
  {
    PendingIdsMembers(listed);
    forall po: Id | po < |listed| && listed[po].status == PayoutPending
      ensures PaidOrRejected(w, rejected, po)
    {
      var i: nat :| i < |PendingIds(listed)| && PendingIds(listed)[i] == po;
    }
  }

  /** How a settled payout ends: paid over its own transfer of exactly its amount, or rejected by Stripe. */
  ghost predicate PaidOrRejected(w: World, rejected: set<Id>, po: Id) {
    && po < |w.payouts|
    && if w.payouts[po].status == Paid
       then
         && w.payouts[po].transfer.Some? && w.payouts[po].transfer.value < |w.transfers|
         && w.transfers[w.payouts[po].transfer.value].payout == po
         && w.transfers[w.payouts[po].transfer.value].cents * 10000 == w.payouts[po].micros
       else w.payouts[po].status == PayoutFailed && po in rejected
  }

  lemma PaidOverItsOwn(w0: World, es: seq<Event>, w: World, rejected: set<Id>, po: Id)
    requires Initial(w0) && Reaches(w0, es, w) && po < |w.payouts|
    requires w.payouts[po].status == Paid || (w.payouts[po].status == PayoutFailed && po in rejected)
    ensures PaidOrRejected(w, rejected, po)
  {
    InitialInv(w0);
    ReachesInv(w0, es, w);
  }

  /** The rows after the old ones are reservations of eligible publishers, at the amounts due. */
  ghost predicate NewReserved(before: World, payouts: seq<Payout>, min: nat, max: nat) {
    && before.payouts <= payouts
    && forall po: Id | |before.payouts| <= po < |payouts| ::
         && MayReserve(before, payouts[po].publisher)
         && ReserveAmount(before, payouts[po].publisher, min, max) == Some(payouts[po].micros)
         && payouts[po].status == PayoutPending
  }

  ghost predicate NewOnlyBelow(before: World, payouts: seq<Payout>, p: Id) {
    forall po: Id | |before.payouts| <= po < |payouts| :: payouts[po].publisher < p
  }

  ghost predicate AllReservedBelow(before: World, payouts: seq<Payout>, p: Id, min: nat, max: nat) {
    forall q: Id | q < p && MayReserve(before, q) && ReserveAmount(before, q, min, max).Some? ::
      ReservedFrom(payouts, |before.payouts|, q)
  }

  /** One more publisher looked at. */
  lemma ReservedOneMore(before: World, rows: seq<Payout>, more: seq<Payout>, p: Id, min: nat, max: nat)
    requires NewReserved(before, rows, min, max) && NewOnlyBelow(before, rows, p)
    requires AllReservedBelow(before, rows, p, min, max)
    requires if MayReserve(before, p) && ReserveAmount(before, p, min, max).Some?
             then more == rows + Due(before, p, min, max)
             else more == rows
    ensures NewReserved(before, more, min, max) && NewOnlyBelow(before, more, p + 1)
    ensures AllReservedBelow(before, more, p + 1, min, max)
  {
    ReservedStay(rows, more, |before.payouts|);
    if |more| > |rows| {
      assert more[|rows|].publisher == p;
    }
  }

  lemma ApartOneMore(before: World, rows: seq<Payout>, more: seq<Payout>, p: Id)
    requires NewApart(before, rows) && NewOnlyBelow(before, rows, p) && |before.payouts| <= |rows|
    requires more == rows || (|more| == |rows| + 1 && rows <= more && more[|rows|].publisher == p && Early(before, p))
    ensures NewApart(before, more)
  {
    forall po: Id | |before.payouts| <= po < |rows|
      ensures more[po] == rows[po]
    {
    }
  }

  /** How many of the first n publishers a reserve would look at. */
  function Candidates(w: World, n: nat): nat {
    if n == 0 then 0 else Candidates(w, n - 1) + if MayReserve(w, n - 1) then 1 else 0
  }

  lemma CandidatesGrow(w: World, n: nat)
    ensures forall m: nat :: n <= m ==> Candidates(w, n) <= Candidates(w, m)
  {
    forall m: nat | n <= m ensures Candidates(w, n) <= Candidates(w, m) {
      CandidatesUpTo(w, n, m);
    }
  }

  lemma CandidatesUpTo(w: World, n: nat, m: nat)
    requires n <= m
    ensures Candidates(w, n) <= Candidates(w, m)
  {
    if n < m {
      CandidatesUpTo(w, n, m - 1);
    }
  }

  /** A key without a transfer does not exist. */
  lemma KeySavedNothing(w0: World, es: seq<Event>, w: World, po: Id)
    requires Initial(w0) && Reaches(w0, es, w)
    requires po < |w.payouts| && w.payouts[po].status == PayoutPending && ShowsNone(w, po)
    ensures po !in w.keys
  {
    InitialInv(w0);
    ReachesInv(w0, es, w);
    ScanIsEnough(w, po);
  }

  predicate StillPending(payouts: seq<Payout>, pending: seq<Id>, k: nat) {
    forall i: nat | k <= i < |pending| :: pending[i] < |payouts| && payouts[pending[i]].status == PayoutPending
  }

  predicate Ascending(ids: seq<Id>) {
    forall i: nat, j: nat | i < j < |ids| :: ids[i] < ids[j]
  }

  /** What is pending was pending before, and is none of the settled ones. */
  ghost predicate OnlyOutside(before: seq<Payout>, after: seq<Payout>, settled: seq<Id>) {
    forall po: Id | po < |after| && po < |before| && after[po].status == PayoutPending ::
      before[po].status == PayoutPending && po !in settled
  }

  lemma EmptyOrMember(s: seq<Id>)
    ensures s == [] || exists x :: x in s
  {
    if s != [] {
      assert s[0] in s;
    }
  }

  lemma NoneLeft(before: seq<Payout>, after: seq<Payout>)
    requires |after| == |before| && OnlyOutside(before, after, PendingIds(before))
    ensures PendingIds(after) == []
  {
    PendingIdsMembers(before);
    PendingIdsMembers(after);
    EmptyOrMember(PendingIds(after));
  }

  lemma SettledOne(before: seq<Payout>, after: seq<Payout>, pending: seq<Id>, k: nat)
    requires k < |pending| && Ascending(pending) && StillPending(before, pending, k)
    requires OthersKeepStatus(before, after, pending[k])
    ensures StillPending(after, pending, k + 1)
  {
    forall i: nat | k + 1 <= i < |pending|
      ensures pending[i] < |after| && after[pending[i]].status == PayoutPending
    {
      assert pending[k] < pending[i];
    }
  }

  lemma OutsideOneMore(first: seq<Payout>, before: seq<Payout>, after: seq<Payout>, pending: seq<Id>, k: nat)
    requires k < |pending| && |first| == |before| == |after| && pending[k] < |after|
    requires OnlyOutside(first, before, pending[..k])
    requires OthersKeepStatus(before, after, pending[k]) && after[pending[k]].status != PayoutPending
    ensures OnlyOutside(first, after, pending[..k + 1])
  {
    assert pending[..k + 1] == pending[..k] + [pending[k]];
  }

  lemma StillPendingLater(w: World, w': World, pending: seq<Id>, k: nat)
    requires PendingSame(w, w') && StillPending(w.payouts, pending, k)
    ensures StillPending(w'.payouts, pending, k)
  {
    forall i: nat | k <= i < |pending|
      ensures pending[i] < |w'.payouts| && w'.payouts[pending[i]].status == PayoutPending
    {
      assert w'.payouts[pending[i]] == w.payouts[pending[i]];
    }
  }

  /** The publisher's account was deleted and unlinked; nothing else changed. */
  ghost predicate Unlinked(w: World, w': World, p: Id) {
    && p < |w.publishers| && w.publishers[p].account.Some? && w.publishers[p].account.value < |w.accounts|
    && var a := w.publishers[p].account.value;
       w' == w.(accounts := w.accounts[a := w.accounts[a].(deleted := true)],
                publishers := w.publishers[p := w.publishers[p].(account := None, eligibility := NotOnboarded)])
  }

  /** The publisher got a fresh account, in a supported country and nothing submitted yet; nothing else changed. */
  ghost predicate LinkedAfresh(w: World, w': World, p: Id) {
    && p < |w.publishers|
    && w' == w.(accounts := w.accounts + [Account(false, false, true, false)],
                publishers := w.publishers[p := w.publishers[p].(account := Some(|w.accounts|), eligibility := AwaitingDetails)])
  }

  /**
   What an undisturbed onboarding request does. With an account and no other country asked for: nothing. With
   one underway and another country asked for: refused. Otherwise an account there was is gone, and by the
   country there is a fresh one, or the publisher is marked ineligible, or the country is asked for.
   */
  ghost predicate OnboardsTo(w: World, w': World, p: Id, wantsOther: bool, country: Option<bool>, reply: OnboardReply) {
    p < |w.publishers| &&
    var had := w.publishers[p].account.Some?;
    if had && !wantsOther then reply == LinkReady && w' == w
    else if had && Underway(w, p) then reply == TooFarToChange && w' == w
    else
      exists mid: World ::
        && (if had then Unlinked(w, mid, p) else mid == w)
        && p < |mid.publishers|
        && match country
           case None => reply == CountryRequired && w' == mid
           case Some(true) => reply == LinkReady && LinkedAfresh(mid, w', p)
           case Some(false) =>
             && reply == Unsupported
             && w' == mid.(publishers := mid.publishers[p := mid.publishers[p].(eligibility := IneligibleCountry)])
  }

  /** Onboarding has progressed too far for a self-serve change of country. */
  predicate Underway(w: World, p: Id) {
    && p < |w.publishers|
    && w.publishers[p].account.Some?
    && w.publishers[p].account.value < |w.accounts|
    && (w.accounts[w.publishers[p].account.value].submitted || w.accounts[w.publishers[p].account.value].enabled)
  }

  lemma AccountBounds(w0: World, es: seq<Event>, w: World, p: Id)
    requires Initial(w0) && Reaches(w0, es, w) && p < |w.publishers|
    ensures w.publishers[p].account.Some? ==> w.publishers[p].account.value < |w.accounts|
  {
    InitialInv(w0);
    ReachesInv(w0, es, w);
  }

  lemma AccountExists(w0: World, es: seq<Event>, w: World, p: Id)
    requires Initial(w0) && Reaches(w0, es, w) && p < |w.publishers| && w.publishers[p].account.Some?
    ensures w.publishers[p].account.value < |w.accounts|
    ensures w.accounts[w.publishers[p].account.value].submitted ==> !w.accounts[w.publishers[p].account.value].deleted
  {
    InitialInv(w0);
    ReachesInv(w0, es, w);
  }

  lemma PendingOnlyBelow(before: World, w: World, p: Id)
    requires w == before.(payouts := w.payouts) && before.payouts <= w.payouts
    requires forall po: Id | |before.payouts| <= po < |w.payouts| :: w.payouts[po].publisher < p
    ensures MayReserve(w, p) <==> MayReserve(before, p)
    ensures p < |w.publishers| ==> forall min: nat, max: nat :: ReserveAmount(w, p, min, max) == ReserveAmount(before, p, min, max)
  {
    assert HasPending(w, p) <==> HasPending(before, p) by {
      if HasPending(before, p) {
        var po: nat :| po < |before.payouts| && before.payouts[po].publisher == p && before.payouts[po].status == PayoutPending;
        assert w.payouts[po] == before.payouts[po];
      }
    }
  }

  lemma {:induction false} NewPendingCount(before: seq<Payout>, after: seq<Payout>)
    requires before <= after
    ensures |PendingIds(after)| <= |PendingIds(before)| + |after| - |before|
    decreases |after|
  {
    if |after| > |before| {
      NewPendingCount(before, after[..|after| - 1]);
    } else {
      assert before == after;
    }
  }
}
