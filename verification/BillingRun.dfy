/**
 The live charge run, call by call. Every remote call may fail to arrive, may end the run, and is
 followed by whatever the environment does meanwhile. Each change is recorded as an event; Valid()
 says the record is legal and explains the tables, so every fact about reachable worlds holds of
 the tables at whatever point a run stops.

 calm describes an undisturbed run: every call arrives, the run is not cut short, Stripe's answers
 are definite, a payment method resolves, and nothing else happens meanwhile.
 */
module BillingRun {
  import opened Basics
  import opened ChargeProtocol
  import opened ChargeSafety
  import opened Planning
  import opened BillingStore
  import opened BatchLemmas

  datatype Outcome =
    | NothingPending
    | BelowMinimumReleased
    | CardCharged(pi: Id)
    | CardFailed
    | LeftPending
    | NoPaymentMethod
    | CustomerError
    | BalanceDrawn(again: bool)
    | ShortBalance
    | DrawFailed
    | HouseSkipped
    | BelowMinimumKept
    | OrphansReleased

  ghost function PlanGroups(p: Plan): set<Id> {
    set r <- p.rows :: r.group
  }

  /** A plan whose rows are cleared groups of its advertiser; it may have been made in an earlier world. */
  ghost predicate PlanFits(w: World, p: Plan) {
    && |p.rows| <= 500
    && (p.house <==> p.advertiser in w.house)
    && forall r <- p.rows :: r.group < |w.groups| && w.groups[r.group] == Group(p.advertiser, r.micros)
  }

  /** What settling one batch undisturbed may do to balances: nothing, or draw its exact sum once. */
  ghost predicate PaidExactly(w: World, w': World, b: Id) {
    if Open(w, b) && !Open(w', b) && w.claims[b].mode == Prepay && b !in w.drawn
    then
      var a, micros := w.claims[b].advertiser, BatchMicros(w, b);
      && micros <= Balance(w, a)
      && w'.balances == w.balances[a := Balance(w, a) - micros]
      && w'.drawn == w.drawn[b := micros]
    else w'.balances == w.balances && w'.drawn == w.drawn
  }

  /** An intent that took the batch's money: live, or what the batch's key answered without a decline. */
  ghost predicate TookMoney(w: World, b: Id, i: Id) {
    && i < |w.intents| && w.intents[i].batch == b
    && (MoneyMoves(w.intents[i].status) || (b in w.keys && w.keys[b].intent == i && !w.keys[b].declined))
  }

  /** The statuses recovery adopts instead of creating again: money moved or is moving. */
  predicate Adoptable(status: IntentStatus) {
    status == PiSucceeded || status == PiProcessing || status == PiRequiresCapture
  }

  /** An intent of the batch that has charged, or is on its way to. */
  ghost predicate ChargeUnderway(w: World, b: Id, i: Id) {
    && i < |w.intents| && w.intents[i].batch == b
    && (w.intents[i].status == PiSucceeded || w.intents[i].status == PiProcessing || w.intents[i].status == PiRequiresCapture)
  }

  /**
   What settling a batch undisturbed does at Stripe, and the charge it ends with, if not with a decline.
   A key that still answers decides: nothing is made, and the charge is the key's own or one found under way.
   Without such a key a charge under way is adopted and nothing is made; without one, exactly one is made, for
   the batch's cents.
   */
  ghost predicate SettlesOnto(w: World, w': World, b: Id, charge: Option<Id>)
    requires b < |w.claims|
  {
    var n := |w.intents|;
    && (KeyLive(w, b) ==>
          && w'.intents == w.intents
          && if charge.Some? then ChargeUnderway(w, b, charge.value) || (charge.value == w.keys[b].intent && !w.keys[b].declined)
             else w.keys[b].declined)
    && (!KeyLive(w, b) ==>
          if exists i: Id :: ChargeUnderway(w, b, i) then w'.intents == w.intents && charge.Some? && ChargeUnderway(w, b, charge.value)
          else
            && |w'.intents| == n + 1 && w'.intents[..n] == w.intents
            && w'.intents[n].batch == b && w'.intents[n].cents == BatchCents(w, b)
            && (charge.Some? ==> charge.value == n && ChargeUnderway(w', b, n)))
  }

  /** What a draw-down did, by its answer. */
  ghost predicate Answered(w: World, w': World, b: Id, micros: nat, reply: DrawReply)
    requires b < |w.claims|
  {
    var a := w.claims[b].advertiser;
    match reply
    case Drawn =>
      && b !in w.drawn && micros <= Balance(w, a)
      && w'.balances == w.balances[a := Balance(w, a) - micros] && w'.drawn == w.drawn[b := micros]
    case Duplicate => b in w.drawn && w'.balances == w.balances && w'.drawn == w.drawn
    case InsufficientBalance =>
      b !in w.drawn && Balance(w, a) < micros && w'.balances == w.balances && w'.drawn == w.drawn
    case NothingToDraw => false
  }

  function ChargeOf(reply: CreateReply): Option<Id> {
    if reply.Accepted? then Some(reply.pi) else None
  }

  ghost predicate KeyDeclined(w: World, b: Id) {
    b in w.keys && w.keys[b].declined
  }

  /** The batch a fresh plan reserves: what was still free of its groups, under the route of the plan. */
  ghost predicate FreshBatch(w: World, w': World, p: Plan, mode: Mode) {
    && |w'.claims| == |w.claims| + 1
    && w.claims <= w'.claims
    && var c := w'.claims[|w.claims|];
       && c.advertiser == p.advertiser && c.mode == mode
       && c.members == Unclaimed(w, PlanGroups(p))
  }

  /** At Stripe nothing changed, time included, but for what was added under one batch's key. */
  ghost predicate OnlyUnderKey(w: World, w': World, b: Id) {
    && w.intents <= w'.intents && w'.now == w.now
    && (forall c <- w.keys | c != b :: c in w'.keys && w'.keys[c] == w.keys[c])
    && forall c <- w'.keys | c != b :: c in w.keys
  }

  /** A prepay batch its advertiser's balance does not cover. */
  ghost predicate Short(w: World, b: Id) {
    && b < |w.claims|
    && w.claims[b].mode == Prepay
    && Balance(w, w.claims[b].advertiser) < BatchMicros(w, b)
  }

  /** Outside todo, no batch is left open unless its advertiser's balance is short. */
  ghost predicate SettledBut(w: World, todo: set<Id>) {
    forall b: Id | Open(w, b) && b !in todo :: Short(w, b)
  }

  ghost predicate NoOrphans(w: World) {
    forall g <- w.charges | w.charges[g].batch.None? :: !Awaiting(w.charges[g])
  }

  /** Nothing is stranded: no row waits except in batches nobody can pay for yet. */
  ghost predicate Settled(w: World) {
    SettledBut(w, {}) && NoOrphans(w)
  }

  /** Customer and payment-method resolution: usable, none saved, or an error. */
  datatype Resolution = Usable | NoneSaved | LookupError

  /** Only one batch may differ, and only in how far it has come; rows without a batch id are as they were. */
  ghost predicate OnlyBatch(w: World, w': World, b: Id) {
    && |w'.claims| == |w.claims|
    && (forall c: Id | c < |w.claims| && c != b :: w'.claims[c] == w.claims[c])
    && (b < |w.claims| ==> w'.claims[b].(phase := w.claims[b].phase) == w.claims[b])
    && SameOrphans(w, w')
  }

  /** Rows without a batch id: none added, none removed, none changed. */
  ghost predicate SameOrphans(w: World, w': World) {
    && (forall g <- w.charges | w.charges[g].batch.None? :: g in w'.charges && w'.charges[g] == w.charges[g])
    && (forall g <- w'.charges | w'.charges[g].batch.None? :: g in w.charges && w'.charges[g] == w.charges[g])
  }

  ghost predicate BalancesFall(w: World, w': World) {
    forall a: Id :: Balance(w', a) <= Balance(w, a)
  }

  /** Rows without a batch id are still there, unchanged. */
  ghost predicate OrphansKept(w: World, w': World) {
    forall g <- w.charges | w.charges[g].batch.None? :: g in w'.charges && w'.charges[g] == w.charges[g]
  }

  /** The environment never touches charge rows, batches, draws or keys, and makes no intent. */
  ghost predicate SameBilling(w: World, w': World) {
    && w'.charges == w.charges && w'.claims == w.claims && w'.drawn == w.drawn && w'.keys == w.keys
    && SameIntents(w, w')
  }

  ghost predicate SameIntents(w: World, w': World) {
    && |w'.intents| == |w.intents|
    && forall i: Id | i < |w.intents| :: w'.intents[i].batch == w.intents[i].batch
  }

  /** Route frozen at reserve; rows older than that column fall back to the current billing mode. */
  function ChooseSettleRoute(frozen: Option<Mode>, current: Mode): Mode {
    if frozen.Some? then frozen.value else current
  }

  method AnyNat() returns (n: nat) {
    var k: int := *;
    n := if k < 0 then -k else k;
  }

  class Billing {
    const db: Database
    const stripe: Stripe
    var nextBatch: Id      // the next fresh uuid
    ghost const start: World
    ghost var claims: seq<Claim>
    ghost var log: seq<Event>

    ghost function World(): World
      reads this, db, stripe
    {
      ChargeProtocol.World(db.house, db.prepayNow, db.groups, db.charges, claims, db.balances, db.drawn,
                           stripe.intents, stripe.keys, stripe.now)
    }

    ghost predicate Valid()
      reads this, db, stripe
    {
      Initial(start) && Reaches(start, log, World()) && nextBatch == |claims|
    }

    constructor (house: set<Id>, groups: seq<Group>, legacy: map<Id, Row>)
      requires forall g: Id | g < |groups| :: groups[g].micros > 0
      requires forall g <- legacy ::
                 && g < |groups|
                 && legacy[g].advertiser == groups[g].advertiser && legacy[g].micros == groups[g].micros
                 && legacy[g].batch.None? && legacy[g].pi.None? && !legacy[g].viaBalance
      ensures Valid() && Initial(start) && log == [] && fresh(db) && fresh(stripe)
    {
      var d := new Database(house, groups, legacy);
      var s := new Stripe();
      db, stripe, nextBatch, claims, log := d, s, 0, [], [];
      start := ChargeProtocol.World(house, {}, groups, legacy, [], map[], map[], [], map[], s.now);
    }

    lemma HasInv()
      requires Valid()
      ensures Inv(World())
    {
      InitialInv(start);
      ReachesInv(start, log, World());
    }

    /** Books a change already made to the tables as a legal event. */
    ghost method Record(before: World, e: Event)
      requires Initial(start) && Reaches(start, log, before) && Legal(before, e)
      requires World() == Next(before, e).(claims := claims) && nextBatch == |Next(before, e).claims|
      modifies `claims, `log
      ensures Valid() && World() == Next(before, e)
      ensures log == old(log) + [e]
    {
      ReachesStep(start, log, before, e);
      claims, log := Next(before, e).claims, log + [e];
    }

    // -------------------------------------------------------------- the environment

    method Tick()
      requires Valid()
      modifies this, stripe
      ensures Valid() && old(log) <= log && SameBilling(old(World()), World())
    {
      ghost var before := World();
      var k := AnyNat();
      stripe.now := stripe.now + k;
      Record(before, Event.Tick(k));
    }

    method ClearGroup()
      requires Valid()
      modifies this, db
      ensures Valid() && old(log) <= log && SameBilling(old(World()), World())
    {
      ghost var before := World();
      var a := AnyNat();
      var micros := AnyNat();
      if micros > 0 {
        db.groups := db.groups + [Group(a, micros)];
        Record(before, Clear(Group(a, micros)));
      }
    }

    method FlipMode()
      requires Valid()
      modifies this, db
      ensures Valid() && old(log) <= log && SameBilling(old(World()), World())
    {
      ghost var before := World();
      var a := AnyNat();
      if a in db.prepayNow {
        db.prepayNow := db.prepayNow - {a};
        Record(before, SetMode(a, Postpay));
      } else {
        db.prepayNow := db.prepayNow + {a};
        Record(before, SetMode(a, Prepay));
      }
    }

    method MoveBalance()
      requires Valid()
      modifies this, db
      ensures Valid() && old(log) <= log && SameBilling(old(World()), World())
    {
      ghost var before := World();
      var a := AnyNat();
      var micros := AnyNat();
      db.balances := db.balances[a := micros];
      Record(before, SetBalance(a, micros));
    }

    method ProgressIntent()
      requires Valid()
      modifies this, stripe
      ensures Valid() && old(log) <= log && SameBilling(old(World()), World())
    {
      ghost var before := World();
      var i := AnyNat();
      var s: IntentStatus := *;
      if i < |stripe.intents| && stripe.intents[i].status != PiSucceeded
         && (MoneyMoves(s) ==> stripe.intents[i].status == PiProcessing || stripe.intents[i].status == PiRequiresCapture) {
        stripe.intents := stripe.intents[i := stripe.intents[i].(status := s)];
        Record(before, Progress(i, s));
      }
    }

    /** Any number of environment steps, in any order; none during a calm run. */
    method Interleave(calm: bool)
      requires Valid()
      modifies this, db, stripe
      ensures Valid() && old(log) <= log && SameBilling(old(World()), World())
      ensures calm ==> World() == old(World())
    {
      ghost var before := World();
      if calm {
        return;
      }
      var n := AnyNat();
      for k := 0 to n
        invariant Valid() && old(log) <= log && SameBilling(before, World())
      {
        if * { Tick(); } else if * { ClearGroup(); } else if * { FlipMode(); }
        else if * { MoveBalance(); } else { ProgressIntent(); }
      }
    }

    /** What follows a remote call: the environment moves, and the run may end. */
    method Afterwards(calm: bool) returns (alive: bool)
      requires Valid()
      modifies this, db, stripe
      ensures Valid() && old(log) <= log && SameBilling(old(World()), World())
      ensures calm ==> alive && World() == old(World())
    {
      Interleave(calm);
      alive := *;
      alive := alive || calm;
    }

    // -------------------------------------------------------------- writes on a batch's own rows

    /** releaseBatch over the ids a batch read back. */
    method ReleaseBatch(ghost b: Id, ids: seq<Id>, calm: bool) returns (alive: bool)
      requires Valid() && Legal(World(), Release(b))
      requires forall g: Id :: g in ids <==> g in claims[b].members
      modifies this, db, stripe
      ensures db.charges.Keys <= old(db.charges.Keys)
      ensures Valid() && old(log) <= log && OnlyBatch(old(World()), World(), b)
      ensures calm ==> alive && World() == Next(old(World()), Release(b))
    {
      var arrives: bool := *;
      if calm || arrives {
        DeleteReleased(b, ids);
      }
      alive := Afterwards(calm);
    }

    method DeleteReleased(ghost b: Id, ids: seq<Id>)
      requires Valid() && Legal(World(), Release(b))
      requires forall g: Id :: g in ids <==> g in claims[b].members
      modifies this, db
      ensures db.charges.Keys <= old(db.charges.Keys)
      ensures Valid() && old(log) <= log
      ensures World() == Next(old(World()), Release(b)) && OnlyBatch(old(World()), World(), b)
    {
      ghost var before := World();
      ReachableDeleteIsRelease(start, log, before, b, ids);
      db.DeletePending(ids);
      ReleaseTouchesOnly(start, log, before, b);
      Record(before, Release(b));
    }

    method UpdateMarked(b: Id, ids: seq<Id>, phase: Phase)
      requires phase.Charged? || phase.Declined? || phase.DrawnDown?
      requires Valid() && Legal(World(), MarkEvent(b, phase))
      requires forall g: Id :: g in ids <==> g in claims[b].members
      modifies this, db
      ensures db.charges.Keys <= old(db.charges.Keys)
      ensures Valid() && old(log) <= log
      ensures World() == Settle(old(World()), b, phase) && OnlyBatch(old(World()), World(), b)
    {
      ghost var before := World();
      db.UpdatePending(ids, if phase == Declined then Failed else Succeeded,
                       if phase.Charged? then Some(phase.pi) else None, phase.DrawnDown?);
      ReachableUpdateIsSettle(start, log, before, b, ids, phase, db.charges);
      MarkEventSettles(start, log, before, b, phase);
      Record(before, MarkEvent(b, phase));
    }

    /** markPendingCharged, markPendingFailed or markPendingChargedBalance, by the phase it stands for. */
    method MarkBatch(b: Id, ids: seq<Id>, phase: Phase, calm: bool) returns (alive: bool)
      requires phase.Charged? || phase.Declined? || phase.DrawnDown?
      requires Valid() && Legal(World(), MarkEvent(b, phase))
      requires forall g: Id :: g in ids <==> g in claims[b].members
      modifies this, db, stripe
      ensures db.charges.Keys <= old(db.charges.Keys)
      ensures Valid() && old(log) <= log && OnlyBatch(old(World()), World(), b)
      ensures SameIntents(old(World()), World()) && stripe.keys == old(stripe.keys)
      ensures calm ==> alive && World() == Settle(old(World()), b, phase)
    {
      ghost var before := World();
      var arrives: bool := *;
      if calm || arrives {
        UpdateMarked(b, ids, phase);
      }
      alive := Afterwards(calm);
    }

    /** reselectByBatch; a failed read looks like an empty one. The world moves on once it has answered. */
    method ReselectByBatch(b: Id, calm: bool) returns (rows: seq<PendingGroup>)
      requires Valid()
      modifies this, db, stripe
      ensures Valid() && old(log) <= log && SameBilling(old(World()), World())
      ensures calm ==> World() == old(World())
      ensures rows != [] ==> Open(World(), b)
      ensures rows != [] ==> forall g: Id :: g in Ids(rows) <==> g in claims[b].members
      ensures rows != [] ==> SumMicros(rows) == BatchMicros(World(), b)
      ensures b < |claims| ==> BatchMicros(World(), b) == old(if b < |claims| then BatchMicros(World(), b) else 0)
      ensures calm && Open(World(), b) ==> rows != []
    {
      rows := ReadBatch(b, calm);
      ghost var w, es := World(), log;
      Interleave(calm);
      if b < |claims| {
        BatchMicrosLasts(start, es, w, log, World(), b);
      }
    }

    method ReadBatch(b: Id, calm: bool) returns (rows: seq<PendingGroup>)
      requires Valid()
      ensures rows != [] ==> Open(World(), b)
      ensures rows != [] ==> forall g: Id :: g in Ids(rows) <==> g in claims[b].members
      ensures rows != [] ==> SumMicros(rows) == BatchMicros(World(), b)
      ensures calm && Open(World(), b) ==> rows != []
    {
      HasInv();
      rows := db.SelectBatch(b);
      if Open(World(), b) {
        OpenReadsItself(World(), b);
      } else {
        ClosedReadsNothing(World(), b);
      }
      var fails: bool := *;
      if fails && !calm {
        rows := [];
      }
    }

    // -------------------------------------------------------------- settling one batch

    /** The first intent of a search result whose money moved or is moving. */
    method FirstAdoptable(found: seq<Id>) returns (adopted: Option<Id>)
      requires forall k | 0 <= k < |found| :: found[k] < |stripe.intents|
      ensures adopted.Some? ==>
                exists k | 0 <= k < |found| :: found[k] == adopted.value && Adoptable(stripe.intents[found[k]].status)
      ensures adopted.None? ==> forall k | 0 <= k < |found| :: !Adoptable(stripe.intents[found[k]].status)
    {
      adopted := None;
      var k := 0;
      while k < |found| && adopted.None?
        invariant 0 <= k <= |found|
        invariant adopted.Some? ==>
                    exists j | 0 <= j < k :: found[j] == adopted.value && Adoptable(stripe.intents[found[j]].status)
        invariant adopted.None? ==> forall j | 0 <= j < k :: !Adoptable(stripe.intents[found[j]].status)
      {
        if Adoptable(stripe.intents[found[k]].status) {
          adopted := Some(found[k]);
        }
        k := k + 1;
      }
    }

    /** The search before create; what it misses, the batch's key still covers. */
    method AdoptExisting(b: Id) returns (adopted: Option<Id>)
      ensures adopted.Some? ==> ChargeUnderway(World(), b, adopted.value)
      ensures adopted.None? ==> KeyLive(World(), b) || forall i: Id :: !ChargeUnderway(World(), b, i)
    {
      adopted := None;
      var found := stripe.Search(b);
      if found.Some? {
        adopted := FirstAdoptable(found.value);
      }
    }

    method CreateUnderKey(b: Id, cents: nat, calm: bool) returns (reply: CreateReply)
      requires Valid() && Legal(World(), Create(b, cents, Nothing))
      modifies this, stripe
      ensures Valid() && old(log) <= log
      ensures claims == old(claims)
      ensures reply.Accepted? ==> reply.pi < |stripe.intents| && stripe.intents[reply.pi].batch == b
      ensures reply.CardDeclined? ==> KeyDeclined(World(), b)
      ensures reply.Accepted? ==> TookMoney(World(), b, reply.pi)
      ensures calm ==> !reply.Ambiguous?
      ensures OnlyUnderKey(old(World()), World(), b)
      ensures calm && (old(KeyLive(World(), b)) || forall i: Id :: !old(ChargeUnderway(World(), b, i))) ==>
                SettlesOnto(old(World()), World(), b, ChargeOf(reply))
    {
      ghost var before := World();
      KeysPointToIntents(start, log, before);
      ghost var attempt;
      reply, attempt := stripe.CreateIntent(b, cents, calm);
      CreateUnderOneKey(before, b, cents, attempt);
      assert World() == CreateIntent(before, b, cents, attempt);
      Record(before, Create(b, cents, attempt));
    }

    /** Search for an intent to adopt, else create one under the batch's key. */
    method ObtainIntent(b: Id, cents: nat, calm: bool) returns (alive: bool, reply: CreateReply)
      requires Valid() && Open(World(), b) && claims[b].mode == Postpay
      requires cents == BatchCents(World(), b) && cents >= STRIPE_MINIMUM_CENTS
      modifies this, db, stripe
      ensures Valid() && old(log) <= log
      ensures claims == old(claims) && db.charges == old(db.charges)
      ensures reply.Accepted? ==> reply.pi < |stripe.intents| && stripe.intents[reply.pi].batch == b
      ensures reply.CardDeclined? ==> KeyDeclined(World(), b)
      ensures calm ==> alive && !reply.Ambiguous? && db.groups == old(db.groups)
      ensures calm && reply.Accepted? ==> TookMoney(World(), b, reply.pi)
      ensures calm ==> db.balances == old(db.balances) && db.drawn == old(db.drawn)
      ensures calm ==> OnlyUnderKey(old(World()), World(), b)
      ensures forall i: Id :: old(ChargeUnderway(World(), b, i)) && !old(KeyLive(World(), b)) ==>
                reply == Accepted(i) && SameIntents(old(World()), World())
      ensures calm ==> SettlesOnto(old(World()), World(), b, ChargeOf(reply))
    {
      ghost var before := World();
      UnderwayOnce(start, log, World(), b);
      var adopted := AdoptExisting(b);
      assert forall i: Id :: LiveIntent(World(), b, i) <==> ChargeUnderway(World(), b, i);
      if adopted.Some? {
        reply := Accepted(adopted.value);
      } else {
        reply := CreateUnderKey(b, cents, calm);
      }
      alive := Afterwards(calm);
    }

    /** The part of settleReservedBatch that talks to Stripe. */
    method ChargeReservedBatch(b: Id, ids: seq<Id>, cents: nat, calm: bool) returns (alive: bool, outcome: Outcome)
      requires Valid() && Open(World(), b) && claims[b].mode == Postpay
      requires forall g: Id :: g in ids <==> g in claims[b].members
      requires cents == BatchCents(World(), b) && cents >= STRIPE_MINIMUM_CENTS
      modifies this, db, stripe
      ensures db.charges.Keys <= old(db.charges.Keys)
      ensures Valid() && old(log) <= log && OnlyBatch(old(World()), World(), b)
      ensures outcome.CardCharged? || outcome.CardFailed? || outcome.LeftPending?
      ensures outcome.CardCharged? ==> outcome.pi < |stripe.intents| && stripe.intents[outcome.pi].batch == b
      ensures calm ==> alive && db.groups == old(db.groups)
      ensures calm ==> db.balances == old(db.balances) && db.drawn == old(db.drawn)
      ensures calm ==> OnlyUnderKey(old(World()), World(), b)
      ensures outcome.CardFailed? ==> KeyDeclined(World(), b)
      ensures calm ==> || (outcome.CardCharged? && claims[b].phase == Charged(outcome.pi)
                           && TookMoney(World(), b, outcome.pi))
                       || (outcome.CardFailed? && claims[b].phase == Declined)
      ensures calm ==> SettlesOnto(old(World()), World(), b, if outcome.CardCharged? then Some(outcome.pi) else None)
    {
      var reply;
      alive, reply := ObtainIntent(b, cents, calm);
      if !alive {
        return false, LeftPending;
      }
      match reply {
        case Accepted(i) =>
          alive := MarkBatch(b, ids, Charged(i), calm);
          outcome := CardCharged(i);
        case CardDeclined =>
          alive := MarkBatch(b, ids, Declined, calm);
          outcome := CardFailed;
        case Ambiguous =>
          outcome := LeftPending;
      }
    }

    /** settleReservedBatch: one batch onto one PaymentIntent. */
    method SettleReservedBatch(b: Id, isHouse: bool, calm: bool) returns (alive: bool, outcome: Outcome)
      requires Valid()
      requires b < |claims| ==> claims[b].mode == Postpay && (isHouse ==> claims[b].advertiser in db.house)
      modifies this, db, stripe
      ensures db.charges.Keys <= old(db.charges.Keys)
      ensures Valid() && old(log) <= log && OnlyBatch(old(World()), World(), b)
      ensures !outcome.NoPaymentMethod? && !outcome.CustomerError?
      ensures outcome.BelowMinimumReleased? ==>
                old(Open(World(), b)) && old(BatchCents(World(), b)) < STRIPE_MINIMUM_CENTS
      ensures outcome.CardCharged? ==>
                outcome.pi < |stripe.intents| && stripe.intents[outcome.pi].batch == b
      ensures calm ==> alive && !Open(World(), b) && db.groups == old(db.groups)
      ensures calm ==> db.balances == old(db.balances) && db.drawn == old(db.drawn)
      ensures calm ==> OnlyUnderKey(old(World()), World(), b)
      ensures calm && old(Open(World(), b)) ==>
                match claims[b].phase
                case Charged(i) => outcome == CardCharged(i) && TookMoney(World(), b, i)
                case Declined => outcome == CardFailed
                case Released => outcome == BelowMinimumReleased
                case _ => false
      ensures calm && old(Open(World(), b)) ==>
                (outcome.BelowMinimumReleased? <==> old(BatchCents(World(), b)) < STRIPE_MINIMUM_CENTS)
      ensures calm && old(Open(World(), b)) && old(BatchCents(World(), b)) >= STRIPE_MINIMUM_CENTS ==>
                SettlesOnto(old(World()), World(), b, if outcome.CardCharged? then Some(outcome.pi) else None)
      ensures outcome.CardFailed? ==> KeyDeclined(World(), b)
    {
      var rows := ReselectByBatch(b, calm);
      if rows == [] {
        return true, NothingPending;
      }
      var ids := Ids(rows);
      NeverHouse(start, log, World(), b);
      if isHouse {
        // The source releases the batch here. It cannot come to that: a house advertiser's groups
        // are never reserved, and is_house never changes.
        assert false;
      }
      var cents := MicrosToCents(SumMicros(rows));
      UnderwayOnce(start, log, World(), b);
      if cents < STRIPE_MINIMUM_CENTS {
        alive := ReleaseBatch(b, ids, calm);
        return alive, BelowMinimumReleased;
      }
      alive, outcome := ChargeReservedBatch(b, ids, cents, calm);
    }

    // -------------------------------------------------------------- prepay

    /** The draw-down call; None when it did not arrive or its answer was lost. */
    method CallDrawDown(a: Id, b: Id, micros: nat, calm: bool) returns (reply: Option<DrawReply>)
      requires Valid() && Legal(World(), Draw(b, micros)) && claims[b].advertiser == a
      modifies this, db
      ensures Valid() && old(log) <= log
      ensures claims == old(claims) && db.charges == old(db.charges) && db.groups == old(db.groups)
      ensures reply == Some(Drawn) || reply == Some(Duplicate) ==> b in db.drawn
      ensures calm ==> reply.Some?
      ensures reply == Some(InsufficientBalance) ==> db.BalanceOf(a) < micros
      ensures reply == Some(NothingToDraw) ==> micros == 0
      ensures reply.Some? ==> (reply.value == Duplicate <==> micros > 0 && b in old(db.drawn))
      ensures reply == Some(Drawn) ==>
                && b !in old(db.drawn) && micros <= old(db.BalanceOf(a))
                && db.balances == old(db.balances[a := db.BalanceOf(a) - micros])
                && db.drawn == old(db.drawn[b := micros])
      ensures calm && reply != Some(Drawn) ==> db.balances == old(db.balances) && db.drawn == old(db.drawn)
    {
      reply := None;
      var arrives: bool := *;
      if calm || arrives {
        var answer := BookDraw(a, b, micros);
        var lost: bool := *;
        if calm || !lost {
          reply := Some(answer);
        }
      }
    }

    /** The draw-down itself, once it arrives. */
    method BookDraw(a: Id, b: Id, micros: nat) returns (answer: DrawReply)
      requires Valid() && Legal(World(), Draw(b, micros)) && claims[b].advertiser == a
      modifies this, db
      ensures Valid() && old(log) <= log
      ensures claims == old(claims) && db.charges == old(db.charges) && db.groups == old(db.groups)
      ensures answer == Drawn || answer == Duplicate ==> b in db.drawn
      ensures answer == InsufficientBalance ==> db.BalanceOf(a) < micros
      ensures answer == NothingToDraw <==> micros == 0
      ensures answer == Duplicate <==> micros > 0 && b in old(db.drawn)
      ensures if answer == Drawn
              then
                && b !in old(db.drawn) && micros <= old(db.BalanceOf(a))
                && db.balances == old(db.balances[a := db.BalanceOf(a) - micros])
                && db.drawn == old(db.drawn[b := micros])
              else db.balances == old(db.balances) && db.drawn == old(db.drawn)
    {
      ghost var before := World();
      answer := db.DrawDownBatch(a, b, micros);
      Record(before, Draw(b, micros));
    }

    /** The part of settlePrepayBatch that draws and marks. */
    method DrawReservedBatch(b: Id, a: Id, ids: seq<Id>, micros: nat, calm: bool)
      returns (alive: bool, outcome: Outcome)
      requires Valid() && Open(World(), b) && claims[b].mode == Prepay && claims[b].advertiser == a
      requires forall g: Id :: g in ids <==> g in claims[b].members
      requires micros == BatchMicros(World(), b)
      modifies this, db, stripe
      ensures db.charges.Keys <= old(db.charges.Keys)
      ensures Valid() && old(log) <= log && OnlyBatch(old(World()), World(), b)
      ensures calm ==> alive && db.groups == old(db.groups)
      ensures calm ==>
                || (claims[b].phase == DrawnDown && outcome == BalanceDrawn(b in old(db.drawn)))
                || (Open(World(), b) && outcome.ShortBalance? && db.BalanceOf(a) < micros)
      ensures calm ==> PaidExactly(old(World()), World(), b) && OnlyUnderKey(old(World()), World(), b)
      ensures calm && b in old(db.drawn) ==> claims[b].phase == DrawnDown
    {
      PositiveTotal(start, log, World(), b);
      ghost var before := World();
      var reply;
      alive, reply := AttemptDraw(b, a, micros, calm);
      if !alive {
        return false, DrawFailed;
      }
      if reply == Some(Drawn) || reply == Some(Duplicate) {
        alive := MarkBatch(b, ids, DrawnDown, calm);
        outcome := BalanceDrawn(reply == Some(Duplicate));
      } else if reply == Some(InsufficientBalance) {
        outcome := ShortBalance;
      } else {
        outcome := DrawFailed;
      }
    }

    /** The draw-down call and what happens after it. */
    method AttemptDraw(b: Id, a: Id, micros: nat, calm: bool) returns (alive: bool, reply: Option<DrawReply>)
      requires Valid() && Legal(World(), Draw(b, micros)) && claims[b].advertiser == a && micros > 0
      modifies this, db, stripe
      ensures Valid() && old(log) <= log
      ensures claims == old(claims) && db.charges == old(db.charges)
      ensures reply == Some(Drawn) || reply == Some(Duplicate) ==> b in db.drawn
      ensures calm ==> alive && db.groups == old(db.groups) && reply.Some? && Answered(old(World()), World(), b, micros, reply.value)
      ensures calm ==> OnlyUnderKey(old(World()), World(), b)
    {
      reply := CallDrawDown(a, b, micros, calm);
      alive := Afterwards(calm);
    }

    /** settlePrepayBatch: one batch onto one draw-down, finished by the duplicate reply after a crash. */
    method SettlePrepayBatch(b: Id, a: Id, isHouse: bool, calm: bool) returns (alive: bool, outcome: Outcome)
      requires Valid()
      requires b < |claims| ==> claims[b].mode == Prepay && claims[b].advertiser == a
      requires b < |claims| ==> (isHouse ==> a in db.house)
      modifies this, db, stripe
      ensures db.charges.Keys <= old(db.charges.Keys)
      ensures Valid() && old(log) <= log && OnlyBatch(old(World()), World(), b)
      ensures calm ==> alive && db.groups == old(db.groups)
      ensures calm && Open(World(), b) ==> db.BalanceOf(a) < BatchMicros(World(), b) && outcome.ShortBalance?
      ensures calm && old(Open(World(), b)) && !Open(World(), b) ==>
                claims[b].phase == DrawnDown && outcome == BalanceDrawn(b in old(db.drawn))
      ensures calm ==> PaidExactly(old(World()), World(), b) && OnlyUnderKey(old(World()), World(), b)
      ensures calm && Open(World(), b) ==> old(Open(World(), b)) && b !in db.drawn
    {
      var rows := ReselectByBatch(b, calm);
      if rows == [] {
        return true, NothingPending;
      }
      NeverHouse(start, log, World(), b);
      if isHouse {
        // As on the card route: a house advertiser's groups are never reserved.
        assert false;
      }
      alive, outcome := DrawReservedBatch(b, a, Ids(rows), SumMicros(rows), calm);
    }

    // -------------------------------------------------------------- fresh batches

    method ResolveCustomerAndPm(calm: bool) returns (r: Resolution)
      ensures calm ==> r == Usable
    {
      r := *;
      r := if calm then Usable else r;
    }

    /** reservePending: claim, under a fresh batch id, those of the plan's groups no row claims yet. */
    method ReservePending(p: Plan, mode: Mode, calm: bool) returns (alive: bool, b: Id)
      requires Valid() && PlanFits(World(), p) && !p.house
      modifies this, db, stripe
      ensures Valid() && old(log) <= log && SameOrphans(old(World()), World())
      ensures b == |old(claims)|
      ensures claims == old(claims) ||
              claims == old(claims) + [Claim(p.advertiser, mode, Unclaimed(old(World()), PlanGroups(p)), Reserved)]
      ensures calm ==> alive && World() == old(ReserveGroups(World(), p.advertiser, mode, PlanGroups(p)))
    {
      b := nextBatch;
      var arrives: bool := *;
      if calm || arrives {
        InsertClaim(p, mode);
      }
      alive := Afterwards(calm);
    }

    method InsertClaim(p: Plan, mode: Mode)
      requires Valid() && PlanFits(World(), p) && !p.house
      modifies this, db
      ensures Valid() && old(log) <= log && SameOrphans(old(World()), World())
      ensures World() == old(ReserveGroups(World(), p.advertiser, mode, PlanGroups(p)))
    {
      ghost var before := World();
      var rows := map r <- p.rows ::
        r.group := Row(p.advertiser, r.micros, Some(nextBatch), Some(mode), Pending, None, false);
      PlanReserveLegal(before, p, mode);
      PlanRowsAreMemberRows(before, p, mode, rows);
      db.InsertIgnoringDuplicates(rows);
      nextBatch := nextBatch + 1;
      Record(before, Reserve(p.advertiser, mode, PlanGroups(p)));
    }

    /** chargeFreshBatch: payment method first, then reserve, then settle. */
    method ChargeFreshBatch(p: Plan, r: Resolution, calm: bool) returns (alive: bool, outcome: Outcome)
      requires Valid() && PlanFits(World(), p) && !p.house && (calm ==> r == Usable)
      modifies this, db, stripe
      ensures Valid() && old(log) <= log
      ensures old(claims) <= claims && SameOrphans(old(World()), World())
      ensures calm ==> db.groups == old(db.groups) && BalancesFall(old(World()), World())
      ensures calm ==> alive && (old(Settled(World())) ==> Settled(World()))
      ensures r == NoneSaved <==> outcome.NoPaymentMethod?
      ensures r == LookupError <==> outcome.CustomerError?
      ensures r != Usable ==> alive && World() == old(World())
      ensures calm ==> FreshBatch(old(World()), World(), p, Postpay) && db.drawn == old(db.drawn)
      ensures calm ==> OnlyUnderKey(old(World()), World(), |old(claims)|)
      ensures calm && old(Unclaimed(World(), PlanGroups(p))) != {} ==>
                match claims[|old(claims)|].phase
                case Charged(i) => TookMoney(World(), |old(claims)|, i)
                case Declined => KeyDeclined(World(), |old(claims)|)
                case Released =>
                  MicrosToCents(Total(old(db.groups), old(Unclaimed(World(), PlanGroups(p))))) < STRIPE_MINIMUM_CENTS
                case _ => false
    {
      if r == NoneSaved {
        return true, NoPaymentMethod;
      }
      if r == LookupError {
        return true, CustomerError;
      }
      ghost var w0 := World();
      var b;
      alive, b := ReservePending(p, Postpay, calm);
      if !alive {
        return false, LeftPending;
      }
      ghost var w1 := World();
      alive, outcome := SettleReservedBatch(b, false, calm);
      if calm && Settled(w0) {
        FreshBatchSettled(w0, w1, World(), p, Postpay, b);
      }
    }

    /** chargePrepayBatch: reserve, then draw. */
    method ChargePrepayBatch(p: Plan, calm: bool) returns (alive: bool, outcome: Outcome)
      requires Valid() && PlanFits(World(), p) && !p.house
      modifies this, db, stripe
      ensures Valid() && old(log) <= log
      ensures old(claims) <= claims && SameOrphans(old(World()), World())
      ensures calm ==> db.groups == old(db.groups) && BalancesFall(old(World()), World())
      ensures calm ==> alive && (old(Settled(World())) ==> Settled(World()))
      ensures calm ==> FreshBatch(old(World()), World(), p, Prepay) && old(db.drawn.Keys) <= db.drawn.Keys
      ensures calm ==> OnlyUnderKey(old(World()), World(), |old(claims)|)
      ensures calm && old(Unclaimed(World(), PlanGroups(p))) != {} ==>
                || (claims[|old(claims)|].phase == DrawnDown && |old(claims)| in db.drawn)
                || Short(World(), |old(claims)|)
    {
      ghost var w0 := World();
      var b;
      alive, b := ReservePending(p, Prepay, calm);
      if !alive {
        return false, DrawFailed;
      }
      ghost var w1 := World();
      alive, outcome := SettlePrepayBatch(b, p.advertiser, false, calm);
      if calm {
        FreshPrepayDone(w0, w1, World(), p, b);
      }
    }
  }

  function MarkEvent(b: Id, phase: Phase): Event
    requires phase.Charged? || phase.Declined? || phase.DrawnDown?
  {
    match phase
    case Charged(i) => MarkCharged(b, i)
    case Declined => MarkDeclined(b)
    case DrawnDown => MarkDrawn(b)
  }

  lemma MarkEventSettles(w0: World, es: seq<Event>, w: World, b: Id, phase: Phase)
    requires phase.Charged? || phase.Declined? || phase.DrawnDown?
    requires Initial(w0) && Reaches(w0, es, w) && Legal(w, MarkEvent(b, phase))
    ensures Next(w, MarkEvent(b, phase)) == Settle(w, b, phase)
    ensures OnlyBatch(w, Settle(w, b, phase), b)
  {
    InitialInv(w0);
    ReachesInv(w0, es, w);
    SettleTouchesOnly(w, b, phase);
  }

  lemma SettleTouchesOnly(w: World, b: Id, phase: Phase)
    requires ClaimsOk(w) && Open(w, b) && phase != Released
    ensures OnlyBatch(w, Settle(w, b, phase), b)
  {
    forall g <- w.claims[b].members
      ensures g in w.charges && w.charges[g].batch == Some(b)
    {
    }
  }

  lemma ReleaseTouchesOnly(w0: World, es: seq<Event>, w: World, b: Id)
    requires Initial(w0) && Reaches(w0, es, w) && Legal(w, Release(b))
    ensures OnlyBatch(w, Next(w, Release(b)), b)
  {
    InitialInv(w0);
    ReachesInv(w0, es, w);
    forall g <- w.claims[b].members
      ensures g in w.charges && w.charges[g].batch == Some(b)
    {
    }
  }

  /** A batch with members has something to draw. */
  lemma PositiveTotal(w0: World, es: seq<Event>, w: World, b: Id)
    requires Initial(w0) && Reaches(w0, es, w) && Open(w, b)
    ensures BatchMicros(w, b) > 0
  {
    InitialInv(w0);
    ReachesInv(w0, es, w);
    var g :| g in w.claims[b].members;
    TotalCovers(w.groups, w.claims[b].members, g);
  }

  lemma TotalCovers(groups: seq<Group>, s: set<Id>, g: Id)
    requires g in s && g < |groups|
    ensures Total(groups, s) >= groups[g].micros
  {
  }

  lemma NeverHouse(w0: World, es: seq<Event>, w: World, b: Id)
    requires Initial(w0) && Reaches(w0, es, w) && b < |w.claims|
    ensures w.claims[b].advertiser !in w.house
  {
    InitialInv(w0);
    ReachesInv(w0, es, w);
  }

  lemma PlanGroupsSize(rows: seq<ViewRow>)
    ensures |set r <- rows :: r.group| <= |rows|
  {
    if rows != [] {
      var last := |rows| - 1;
      PlanGroupsSize(rows[..last]);
      var less, more := (set r <- rows[..last] :: r.group), (set r <- rows :: r.group);
      assert rows == rows[..last] + [rows[last]];
      assert more == less + {rows[last].group};
    }
  }

  lemma PlanReserveLegal(w: World, p: Plan, mode: Mode)
    requires PlanFits(w, p) && !p.house
    ensures Legal(w, Reserve(p.advertiser, mode, PlanGroups(p)))
  {
    PlanGroupsSize(p.rows);
  }

  /** A plan's rows name its groups, each with the row of a member of the batch. */
  lemma PlanRowIsMemberRow(w: World, p: Plan, mode: Mode, rows: map<Id, Row>, g: Id)
    requires PlanFits(w, p)
    requires rows == map r <- p.rows ::
               r.group := Row(p.advertiser, r.micros, Some(|w.claims|), Some(mode), Pending, None, false)
    ensures g in rows <==> g in PlanGroups(p)
    ensures g in rows ==>
              g < |w.groups| && rows[g] == Row(p.advertiser, w.groups[g].micros, Some(|w.claims|), Some(mode), Pending, None, false)
  {
    if g in PlanGroups(p) {
      var r :| r in p.rows && r.group == g;
      assert rows[r.group] == Row(p.advertiser, r.micros, Some(|w.claims|), Some(mode), Pending, None, false);
    }
  }

  /** Inserting a plan's rows, duplicates ignored, is the reservation of its unclaimed groups. */
  lemma PlanRowsAreMemberRows(w: World, p: Plan, mode: Mode, rows: map<Id, Row>)
    requires PlanFits(w, p)
    requires rows == map r <- p.rows ::
               r.group := Row(p.advertiser, r.micros, Some(|w.claims|), Some(mode), Pending, None, false)
    ensures rows + w.charges == ReserveGroups(w, p.advertiser, mode, PlanGroups(p)).charges
    ensures SameOrphans(w, ReserveGroups(w, p.advertiser, mode, PlanGroups(p)))
  {
    var c := Claim(p.advertiser, mode, Unclaimed(w, PlanGroups(p)), Reserved);
    var added := MemberRows(w.groups, |w.claims|, c);
    forall g: Id
      ensures g in added <==> g in rows && g !in w.charges
      ensures g in added ==> rows[g] == added[g]
    {
      PlanRowIsMemberRow(w, p, mode, rows, g);
    }
    assert rows + w.charges == w.charges + added;
  }

  lemma ReserveSettled(w: World, a: Id, mode: Mode, gs: set<Id>)
    requires Settled(w) && SameOrphans(w, ReserveGroups(w, a, mode, gs))
    ensures SettledBut(ReserveGroups(w, a, mode, gs), {|w.claims|}) && NoOrphans(ReserveGroups(w, a, mode, gs))
  {
    var w' := ReserveGroups(w, a, mode, gs);
    forall b: Id | Open(w', b) && b != |w.claims|
      ensures Short(w', b)
    {
      assert w'.claims[b] == w.claims[b];
      assert Open(w, b);
    }
  }

  /** One settled batch leaves the list of those still to do. */
  lemma StepSettled(w: World, w': World, todo: set<Id>, b: Id)
    requires SettledBut(w, todo) && OnlyBatch(w, w', b)
    requires w'.groups == w.groups
    requires PaidExactly(w, w', b)
    requires Open(w', b) ==> Short(w', b)
    ensures SettledBut(w', todo - {b})
    ensures NoOrphans(w) ==> NoOrphans(w')
  {
    forall c: Id | Open(w', c) && c != b && c !in todo
      ensures Short(w', c)
    {
      assert Open(w, c);
    }
  }

  lemma PaidFalls(w: World, w': World, b: Id)
    requires PaidExactly(w, w', b)
    ensures BalancesFall(w, w')
  {
  }

  /** A fresh batch that closed, or is short, leaves a settled world settled. */
  lemma FreshBatchSettled(w0: World, w1: World, w: World, p: Plan, mode: Mode, b: Id)
    requires Settled(w0) && w1 == ReserveGroups(w0, p.advertiser, mode, PlanGroups(p)) && SameOrphans(w0, w1)
    requires b == |w0.claims| && OnlyBatch(w1, w, b) && w.groups == w1.groups && PaidExactly(w1, w, b)
    requires Open(w, b) ==> Short(w, b)
    ensures Settled(w)
  {
    ReserveSettled(w0, p.advertiser, mode, PlanGroups(p));
    StepSettled(w1, w, {b}, b);
  }

  /** A fresh prepay batch, settled undisturbed, is drawn or its advertiser's balance is short. */
  lemma FreshPrepayDone(w0: World, w1: World, w: World, p: Plan, b: Id)
    requires w1 == ReserveGroups(w0, p.advertiser, Prepay, PlanGroups(p)) && SameOrphans(w0, w1)
    requires b == |w0.claims| && OnlyBatch(w1, w, b) && w.groups == w1.groups && PaidExactly(w1, w, b)
    requires Open(w, b) ==> Short(w, b)
    requires Open(w1, b) && !Open(w, b) ==> w.claims[b].phase == DrawnDown
    ensures BalancesFall(w0, w) && SameOrphans(w0, w) && w0.drawn.Keys <= w.drawn.Keys
    ensures Settled(w0) ==> Settled(w)
    ensures FreshBatch(w0, w, p, Prepay)
    ensures Unclaimed(w0, PlanGroups(p)) != {} ==> (w.claims[b].phase == DrawnDown && b in w.drawn) || Short(w, b)
  {
    PaidFalls(w1, w, b);
    if Settled(w0) {
      FreshBatchSettled(w0, w1, w, p, Prepay, b);
    }
  }

  /** A create adds at most one intent, under its batch's key, which then belongs to the batch. */
  lemma CreateUnderOneKey(w: World, b: Id, cents: nat, attempt: Attempt)
    requires Legal(w, Create(b, cents, Nothing)) && (attempt.Made? ==> attempt.status == PiSucceeded || attempt.status == PiProcessing || attempt.status == PiRequiresCapture)
    requires b in w.keys ==> w.keys[b].intent < |w.intents| && w.intents[w.keys[b].intent].batch == b
    ensures Legal(w, Create(b, cents, attempt))
    ensures var w' := CreateIntent(w, b, cents, attempt);
            && OnlyUnderKey(w, w', b)
            && (b in w'.keys && !w'.keys[b].declined ==> TookMoney(w', b, w'.keys[b].intent))
  {
  }

  /** A batch has at most one charge under way, and only at or above the minimum. */
  lemma UnderwayOnce(w0: World, es: seq<Event>, w: World, b: Id)
    requires Initial(w0) && Reaches(w0, es, w)
    ensures forall i: Id, j: Id :: ChargeUnderway(w, b, i) && ChargeUnderway(w, b, j) ==> i == j
    ensures forall i: Id :: ChargeUnderway(w, b, i) ==> b < |w.claims| && BatchCents(w, b) >= STRIPE_MINIMUM_CENTS
  {
    InitialInv(w0);
    ReachesInv(w0, es, w);
    assert forall i: Id :: LiveIntent(w, b, i) <==> ChargeUnderway(w, b, i);
  }
}
