/**
 The charge protocol of the billing function as a transition system.

 A world holds the cleared ledger groups, the advertiser_charges table, the prepay balances and
 what Stripe remembers. Every remote call of a charge run, and everything the environment may do
 between two calls, is an event. A charge run may stop after any event, so "any sequence of runs,
 each cut short anywhere" is "any sequence of legal events".
 */
module ChargeProtocol {
  import opened Basics

  datatype Mode = Postpay | Prepay

  datatype Status = Pending | Succeeded | Failed | Skipped

  /** A cleared ledger group: who owes it and how much. Neither ever changes. */
  datatype Group = Group(advertiser: Id, micros: nat)

  /** A row of advertiser_charges; the table is keyed by the ledger group. */
  datatype Row = Row(
    advertiser: Id,
    micros: nat,
    batch: Option<Id>,
    mode: Option<Mode>,
    status: Status,
    pi: Option<Id>,
    viaBalance: bool)

  datatype IntentStatus = PiSucceeded | PiProcessing | PiRequiresCapture | PiRequiresPaymentMethod | PiCanceled

  /** A PaymentIntent with the charge_batch_id carried in its metadata. */
  datatype Intent = Intent(batch: Id, cents: nat, status: IntentStatus)

  /** What Stripe replays for a batch's idempotency key: the intent it made and whether that was declined. */
  datatype Key = Key(at: nat, intent: Id, declined: bool)

  /** How far a batch has come; a history variable, no table stores it. */
  datatype Phase = Reserved | Charged(pi: Id) | Declined | DrawnDown | Released

  /** The groups one reserve call claimed under one batch id; a history variable. */
  datatype Claim = Claim(advertiser: Id, mode: Mode, members: set<Id>, phase: Phase)

  datatype World = World(
    house: set<Id>,               // house advertisers: never charged
    prepayNow: set<Id>,           // advertisers whose current billing_mode is prepay
    groups: seq<Group>,
    charges: map<Id, Row>,
    claims: seq<Claim>,
    balances: map<Id, nat>,
    drawn: map<Id, nat>,          // draw-down rows, UNIQUE on the batch id
    intents: seq<Intent>,
    keys: map<Id, Key>,
    now: nat)

  /** What a PaymentIntent create does when no live key answers for it. */
  datatype Attempt = Made(status: IntentStatus) | Refused | Nothing

  datatype Event =
    | Tick(seconds: nat)
    | Clear(cleared: Group)
    | SetMode(advertiser: Id, mode: Mode)
    | SetBalance(advertiser: Id, micros: nat)
    | Progress(pi: Id, status: IntentStatus)
    | Reserve(advertiser: Id, mode: Mode, groups: set<Id>)
    | Release(batch: Id)
    | ReleaseOrphans(groups: set<Id>)
    | SkipHouse(group: Id)
    | Create(batch: Id, cents: nat, attempt: Attempt)
    | MarkCharged(batch: Id, pi: Id)
    | MarkDeclined(batch: Id)
    | Draw(batch: Id, micros: nat)
    | MarkDrawn(batch: Id)

  // ---------------------------------------------------------------- reading a world

  /** Micros of the groups in s. */
  function Total(groups: seq<Group>, s: set<Id>): nat {
    if groups == [] then 0
    else
      var last := |groups| - 1;
      Total(groups[..last], s) + if last in s then groups[last].micros else 0
  }

  /** Stripe's statuses of a charge that was taken or may still be. */
  predicate MoneyMoves(status: IntentStatus) {
    status.PiSucceeded? || status.PiProcessing? || status.PiRequiresCapture?
  }

  ghost predicate LiveIntent(w: World, b: Id, i: Id) {
    i < |w.intents| && w.intents[i].batch == b && MoneyMoves(w.intents[i].status)
  }

  ghost predicate HasLive(w: World, b: Id) {
    exists i: Id :: LiveIntent(w, b, i)
  }

  predicate KeyLive(w: World, b: Id) {
    b in w.keys && w.now < w.keys[b].at + KEY_LIFETIME
  }

  function BatchMicros(w: World, b: Id): nat
    requires b < |w.claims|
  {
    Total(w.groups, w.claims[b].members)
  }

  function BatchCents(w: World, b: Id): nat
    requires b < |w.claims|
  {
    MicrosToCents(BatchMicros(w, b))
  }

  /** The row every member of a batch carries in a given phase. */
  function MemberRow(g: Group, b: Id, c: Claim): Row
    requires c.phase != Released
  {
    var status := match c.phase
      case Reserved => Pending
      case Declined => Failed
      case _ => Succeeded;
    var pi := if c.phase.Charged? then Some(c.phase.pi) else None;
    Row(g.advertiser, g.micros, Some(b), Some(c.mode), status, pi, c.phase.DrawnDown?)
  }

  function MemberRows(groups: seq<Group>, b: Id, c: Claim): map<Id, Row>
    requires c.phase != Released
  {
    map g <- c.members | g < |groups| :: MemberRow(groups[g], b, c)
  }

  predicate Open(w: World, b: Id) {
    b < |w.claims| && w.claims[b].phase == Reserved && w.claims[b].members != {}
  }

  // ---------------------------------------------------------------- legal events

  /**
   When the protocol, or the environment, may take an event. Stripe may complete a charge that is
   processing or awaits capture, and no other; a create that charges leaves one of these or a
   completed one. Create carries the hypothesis that
   a create call reaches Stripe only while the batch's key is live or after a search that would
   have shown a live intent. A batch is written off only on Stripe's own decline of its key.
   */
  ghost predicate Legal(w: World, e: Event) {
    match e
    case Tick(_) => true
    case Clear(g) => g.micros > 0
    case SetMode(_, _) => true
    case SetBalance(_, _) => true
    case Progress(i, s) =>
      && i < |w.intents|
      && w.intents[i].status != PiSucceeded
      && (s == PiSucceeded || s == PiProcessing || s == PiRequiresCapture ==>
            w.intents[i].status == PiProcessing || w.intents[i].status == PiRequiresCapture)
    case Reserve(a, _, gs) =>
      && a !in w.house
      && |gs| <= 500
      && forall g <- gs :: g < |w.groups| && w.groups[g].advertiser == a
    case Release(b) =>
      && Open(w, b)
      && (w.claims[b].advertiser in w.house
          || (w.claims[b].mode == Postpay && BatchCents(w, b) < STRIPE_MINIMUM_CENTS))
    case ReleaseOrphans(gs) =>
      forall g <- gs :: g in w.charges ==> w.charges[g].batch.None? && w.charges[g].status == Pending
    case SkipHouse(g) =>
      && g < |w.groups|
      && w.groups[g].advertiser in w.house
    case Create(b, cents, attempt) =>
      && Open(w, b)
      && w.claims[b].mode == Postpay
      && cents == BatchCents(w, b)
      && cents >= STRIPE_MINIMUM_CENTS
      && (attempt.Made? ==> attempt.status == PiSucceeded || attempt.status == PiProcessing || attempt.status == PiRequiresCapture)
      && (KeyLive(w, b) || !HasLive(w, b))
    case MarkCharged(b, i) =>
      && Open(w, b)
      && i < |w.intents|
      && w.intents[i].batch == b
    case MarkDeclined(b) =>
      && Open(w, b)
      && b in w.keys && w.keys[b].declined
    case Draw(b, micros) =>
      && Open(w, b)
      && w.claims[b].mode == Prepay
      && micros == BatchMicros(w, b)
    case MarkDrawn(b) =>
      && Open(w, b)
      && b in w.drawn
  }

  // ---------------------------------------------------------------- effects

  function SetPhase(w: World, b: Id, phase: Phase): (w': World)
    requires b < |w.claims|
  {
    w.(claims := w.claims[b := w.claims[b].(phase := phase)])
  }

  /** One UPDATE over a batch's members. */
  function Settle(w: World, b: Id, phase: Phase): World
    requires b < |w.claims| && phase != Released
  {
    var c := w.claims[b].(phase := phase);
    SetPhase(w, b, phase).(charges := w.charges + MemberRows(w.groups, b, c))
  }

  function Balance(w: World, a: Id): nat {
    if a in w.balances then w.balances[a] else 0
  }

  /** The draw-down primitive: once per batch, and only when the balance covers it. */
  function DrawDown(w: World, b: Id, micros: nat): World
    requires b < |w.claims|
  {
    var a := w.claims[b].advertiser;
    if micros == 0 || b in w.drawn || Balance(w, a) < micros then w
    else w.(balances := w.balances[a := Balance(w, a) - micros], drawn := w.drawn[b := micros])
  }

  /** A create call: a live key replays what it saved, otherwise the attempt decides. */
  function CreateIntent(w: World, b: Id, cents: nat, attempt: Attempt): World {
    if KeyLive(w, b) || attempt.Nothing? then w
    else
      var i := |w.intents|;
      var status := if attempt.Made? then attempt.status else PiRequiresPaymentMethod;
      w.(intents := w.intents + [Intent(b, cents, status)],
         keys := w.keys[b := Key(w.now, i, attempt.Refused?)])
  }

  /** The groups of gs no row claims yet. */
  function Unclaimed(w: World, gs: set<Id>): set<Id> {
    set g <- gs | g !in w.charges
  }

  function ReserveGroups(w: World, a: Id, mode: Mode, gs: set<Id>): World {
    var b := |w.claims|;
    var c := Claim(a, mode, Unclaimed(w, gs), Reserved);
    w.(claims := w.claims + [c],
       charges := w.charges + MemberRows(w.groups, b, c))
  }

  function Next(w: World, e: Event): World
    requires Legal(w, e)
  {
    match e
    case Tick(k) => w.(now := w.now + k)
    case Clear(g) => w.(groups := w.groups + [g])
    case SetMode(a, m) => w.(prepayNow := if m == Prepay then w.prepayNow + {a} else w.prepayNow - {a})
    case SetBalance(a, m) => w.(balances := w.balances[a := m])
    case Progress(i, s) => w.(intents := w.intents[i := w.intents[i].(status := s)])
    case Reserve(a, m, gs) => ReserveGroups(w, a, m, gs)
    case Release(b) => SetPhase(w, b, Released).(charges := w.charges - w.claims[b].members)
    case ReleaseOrphans(gs) => w.(charges := w.charges - gs)
    case SkipHouse(g) =>
      if g in w.charges then w
      else w.(charges := w.charges[g := Row(w.groups[g].advertiser, w.groups[g].micros, None, None, Skipped, None, false)])
    case Create(b, cents, attempt) => CreateIntent(w, b, cents, attempt)
    case MarkCharged(b, i) => Settle(w, b, Charged(i))
    case MarkDeclined(b) => Settle(w, b, Declined)
    case Draw(b, micros) => DrawDown(w, b, micros)
    case MarkDrawn(b) => Settle(w, b, DrawnDown)
  }

  // ---------------------------------------------------------------- the invariant

  /** A row agrees with its group, and a row with a batch id belongs to that batch. */
  ghost predicate RowsOk(w: World) {
    forall g <- w.charges ::
      && g < |w.groups|
      && w.charges[g].advertiser == w.groups[g].advertiser
      && w.charges[g].micros == w.groups[g].micros
      && (w.charges[g].batch.Some? ==>
            && w.charges[g].batch.value < |w.claims|
            && g in w.claims[w.charges[g].batch.value].members
            && w.claims[w.charges[g].batch.value].phase != Released)
      && (w.charges[g].batch.None? ==> w.charges[g].pi.None? && !w.charges[g].viaBalance)
  }

  /** A claim lists groups of its own advertiser; until released it owns all of them, uniformly. */
  ghost predicate ClaimsOk(w: World) {
    forall b: Id | b < |w.claims| ::
      && w.claims[b].advertiser !in w.house
      && |w.claims[b].members| <= 500
      && forall g <- w.claims[b].members ::
           && g < |w.groups|
           && w.groups[g].advertiser == w.claims[b].advertiser
           && (w.claims[b].phase != Released ==>
                 g in w.charges && w.charges[g] == MemberRow(w.groups[g], b, w.claims[b]))
  }

  /** An intent carries the cents of its batch as it was reserved, and the batch was never let go. */
  ghost predicate IntentsOk(w: World) {
    forall i: Id | i < |w.intents| ::
      var b := w.intents[i].batch;
      && b < |w.claims|
      && w.claims[b].mode == Postpay
      && w.claims[b].members != {}
      && w.claims[b].phase != Released
      && w.intents[i].cents == BatchCents(w, b)
      && w.intents[i].cents >= STRIPE_MINIMUM_CENTS
  }

  ghost predicate OneLive(w: World) {
    forall b: Id, i: Id, j: Id :: LiveIntent(w, b, i) && LiveIntent(w, b, j) ==> i == j
  }

  ghost predicate KeysOk(w: World) {
    forall b <- w.keys ::
      && w.keys[b].intent < |w.intents|
      && w.intents[w.keys[b].intent].batch == b
      && w.keys[b].at <= w.now
      && (w.keys[b].declined ==> !HasLive(w, b))
  }

  ghost predicate PhasesOk(w: World) {
    forall b: Id | b < |w.claims| ::
      match w.claims[b].phase
      case Charged(i) => i < |w.intents| && w.intents[i].batch == b
      case Declined => w.claims[b].mode == Postpay && !HasLive(w, b)
      case DrawnDown => b in w.drawn
      case _ => true
  }

  ghost predicate DrawsOk(w: World) {
    forall b <- w.drawn ::
      && b < |w.claims|
      && w.claims[b].mode == Prepay
      && w.claims[b].phase != Released
      && w.drawn[b] == BatchMicros(w, b)
  }

  /** Clearing only books groups with a positive gross. */
  ghost predicate GroupsOk(w: World) {
    forall g: Id | g < |w.groups| :: w.groups[g].micros > 0
  }

  ghost predicate Inv(w: World) {
    GroupsOk(w) && RowsOk(w) && ClaimsOk(w) && IntentsOk(w) && OneLive(w) && KeysOk(w) && PhasesOk(w) && DrawsOk(w)
  }

  // ---------------------------------------------------------------- runs

  /** Before billing ever ran: ledger groups and perhaps rows without a batch id, nothing else. */
  ghost predicate Initial(w: World) {
    && w.claims == [] && w.intents == [] && w.keys == map[] && w.drawn == map[]
    && GroupsOk(w) && RowsOk(w)
  }

  /** w is where the events es lead from w0, each legal when it happened. */
  ghost predicate Reaches(w0: World, es: seq<Event>, w: World) {
    if es == [] then w == w0
    else
      var last := |es| - 1;
      exists mid: World :: Reaches(w0, es[..last], mid) && Legal(mid, es[last]) && w == Next(mid, es[last])
  }
}
