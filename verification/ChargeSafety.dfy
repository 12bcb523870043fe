/** Every event keeps the invariant, so every reachable world has it; what that means for money. */
module ChargeSafety {
  import opened Basics
  import opened ChargeProtocol

  // ---------------------------------------------------------------- one event at a time

  lemma TotalOfOlderGroups(groups: seq<Group>, g: Group, s: set<Id>)
    requires |groups| !in s
    ensures Total(groups + [g], s) == Total(groups, s)
  {
    assert (groups + [g])[..|groups|] == groups;
  }

  lemma ClearKeepsInv(w: World, g: Group)
    requires Inv(w) && Legal(w, Clear(g))
    ensures Inv(Next(w, Clear(g)))
  {
    var w' := Next(w, Clear(g));
    forall b: Id | b < |w.claims| ensures BatchMicros(w', b) == BatchMicros(w, b) {
      TotalOfOlderGroups(w.groups, g, w.claims[b].members);
    }
    assert forall b: Id, i: Id :: LiveIntent(w', b, i) <==> LiveIntent(w, b, i);
  }

  lemma QuietKeepsTables(w: World, e: Event)
    requires GroupsOk(w) && RowsOk(w) && ClaimsOk(w) && DrawsOk(w) && IntentsOk(w) && Legal(w, e)
    requires e.Tick? || e.SetMode? || e.SetBalance? || e.Draw?
    ensures var w' := Next(w, e); GroupsOk(w') && RowsOk(w') && ClaimsOk(w') && DrawsOk(w') && IntentsOk(w')
  {
  }

  lemma QuietKeepsMoney(w: World, e: Event)
    requires OneLive(w) && KeysOk(w) && PhasesOk(w) && Legal(w, e)
    requires e.Tick? || e.SetMode? || e.SetBalance? || e.Draw?
    ensures var w' := Next(w, e); OneLive(w') && KeysOk(w') && PhasesOk(w')
  {
    var w' := Next(w, e);
    assert forall b: Id, i: Id :: LiveIntent(w', b, i) <==> LiveIntent(w, b, i);
  }

  lemma QuietKeepsInv(w: World, e: Event)
    requires Inv(w) && Legal(w, e) && (e.Tick? || e.SetMode? || e.SetBalance? || e.Draw?)
    ensures Inv(Next(w, e))
  {
    QuietKeepsTables(w, e);
    QuietKeepsMoney(w, e);
  }

  lemma ProgressKeepsMoney(w: World, i: Id, s: IntentStatus)
    requires IntentsOk(w) && OneLive(w) && KeysOk(w) && PhasesOk(w) && Legal(w, Progress(i, s))
    ensures var w' := Next(w, Progress(i, s)); IntentsOk(w') && OneLive(w') && KeysOk(w') && PhasesOk(w')
  {
    var w' := Next(w, Progress(i, s));
    assert forall j: Id | j < |w.intents| :: w'.intents[j].(status := w.intents[j].status) == w.intents[j];
    assert forall b: Id, j: Id :: LiveIntent(w', b, j) ==> LiveIntent(w, b, j);
  }

  lemma ProgressKeepsTables(w: World, i: Id, s: IntentStatus)
    requires GroupsOk(w) && RowsOk(w) && ClaimsOk(w) && DrawsOk(w) && Legal(w, Progress(i, s))
    ensures var w' := Next(w, Progress(i, s)); GroupsOk(w') && RowsOk(w') && ClaimsOk(w') && DrawsOk(w')
  {
  }

  lemma ProgressKeepsInv(w: World, i: Id, s: IntentStatus)
    requires Inv(w) && Legal(w, Progress(i, s))
    ensures Inv(Next(w, Progress(i, s)))
  {
    ProgressKeepsMoney(w, i, s);
    ProgressKeepsTables(w, i, s);
  }

  lemma ReserveKeepsRows(w: World, a: Id, m: Mode, gs: set<Id>)
    requires Inv(w) && Legal(w, Reserve(a, m, gs))
    ensures RowsOk(Next(w, Reserve(a, m, gs)))
  {
    var w' := Next(w, Reserve(a, m, gs));
    forall g <- w'.charges
      ensures g in Unclaimed(w, gs) || (g in w.charges && w'.charges[g] == w.charges[g])
    {
    }
  }

  lemma ReserveKeepsClaims(w: World, a: Id, m: Mode, gs: set<Id>)
    requires GroupsOk(w) && RowsOk(w) && ClaimsOk(w) && Legal(w, Reserve(a, m, gs))
    ensures ClaimsOk(Next(w, Reserve(a, m, gs)))
  {
    var w' := Next(w, Reserve(a, m, gs));
    SubsetSize(Unclaimed(w, gs), gs);
    forall b: Id, g: Id | b < |w.claims| && g in w.claims[b].members && w.claims[b].phase != Released
      ensures w'.claims[b] == w.claims[b] && g in w'.charges && w'.charges[g] == w.charges[g]
    {
      assert g !in Unclaimed(w, gs);
    }
  }

  lemma ReserveKeepsIntents(w: World, a: Id, m: Mode, gs: set<Id>)
    requires IntentsOk(w) && OneLive(w) && KeysOk(w) && Legal(w, Reserve(a, m, gs))
    ensures var w' := Next(w, Reserve(a, m, gs)); IntentsOk(w') && OneLive(w') && KeysOk(w')
  {
    var w' := Next(w, Reserve(a, m, gs));
    assert forall b: Id, i: Id :: LiveIntent(w', b, i) <==> LiveIntent(w, b, i);
    assert forall b: Id | b < |w.claims| :: w'.claims[b] == w.claims[b] && BatchMicros(w', b) == BatchMicros(w, b);
  }

  lemma ReserveKeepsMoney(w: World, a: Id, m: Mode, gs: set<Id>)
    requires GroupsOk(w) && PhasesOk(w) && DrawsOk(w) && Legal(w, Reserve(a, m, gs))
    ensures var w' := Next(w, Reserve(a, m, gs)); GroupsOk(w') && PhasesOk(w') && DrawsOk(w')
  {
    var w' := Next(w, Reserve(a, m, gs));
    assert forall b: Id, i: Id :: LiveIntent(w', b, i) <==> LiveIntent(w, b, i);
    assert forall b: Id | b < |w.claims| :: w'.claims[b] == w.claims[b] && BatchMicros(w', b) == BatchMicros(w, b);
  }

  lemma SubsetSize(s: set<Id>, t: set<Id>)
    requires s <= t
    ensures |s| <= |t|
  {
    if s != {} {
      var x :| x in s;
      SubsetSize(s - {x}, t - {x});
    }
  }

  lemma ReleaseKeepsTables(w: World, b: Id)
    requires Inv(w) && Legal(w, Release(b))
    ensures var w' := Next(w, Release(b)); GroupsOk(w') && RowsOk(w') && ClaimsOk(w')
  {
    var w' := Next(w, Release(b));
    forall c: Id, g: Id | c < |w.claims| && c != b && g in w.claims[c].members && w.claims[c].phase != Released
      ensures g !in w.claims[b].members
    {
      MembersDisjoint(w, c, b, g);
    }
  }

  lemma ReleaseKeepsMoney(w: World, b: Id)
    requires Inv(w) && Legal(w, Release(b))
    ensures var w' := Next(w, Release(b));
            IntentsOk(w') && OneLive(w') && KeysOk(w') && PhasesOk(w') && DrawsOk(w')
  {
    var w' := Next(w, Release(b));
    assert forall c: Id, i: Id :: LiveIntent(w', c, i) <==> LiveIntent(w, c, i);
    assert forall c: Id :: HasLive(w', c) <==> HasLive(w, c);
    assert forall c: Id | c < |w.claims| :: BatchMicros(w', c) == BatchMicros(w, c);
  }

  lemma UnbatchedKeepsTables(w: World, e: Event)
    requires Inv(w) && Legal(w, e) && (e.ReleaseOrphans? || e.SkipHouse?)
    ensures RowsOk(Next(w, e)) && ClaimsOk(Next(w, e))
  {
  }

  lemma UnbatchedKeepsInv(w: World, e: Event)
    requires Inv(w) && Legal(w, e) && (e.ReleaseOrphans? || e.SkipHouse?)
    ensures Inv(Next(w, e))
  {
    UnbatchedKeepsTables(w, e);
    RowsDoNotMatter(w, Next(w, e));
  }

  /** Money facts do not look at charge rows. */
  lemma RowsDoNotMatter(w: World, w': World)
    requires w' == w.(charges := w'.charges)
    requires GroupsOk(w) && IntentsOk(w) && OneLive(w) && KeysOk(w) && PhasesOk(w) && DrawsOk(w)
    ensures GroupsOk(w') && IntentsOk(w') && OneLive(w') && KeysOk(w') && PhasesOk(w') && DrawsOk(w')
  {
    assert forall c: Id, i: Id :: LiveIntent(w', c, i) <==> LiveIntent(w, c, i);
    assert forall c: Id :: HasLive(w', c) <==> HasLive(w, c);
  }

  lemma CreateAddsOneLive(w: World, b: Id, cents: nat, attempt: Attempt)
    requires Inv(w) && Legal(w, Create(b, cents, attempt)) && !KeyLive(w, b) && !attempt.Nothing?
    ensures var w' := Next(w, Create(b, cents, attempt));
            && !HasLive(w, b)
            && (forall c: Id, i: Id ::
                  LiveIntent(w', c, i) <==> LiveIntent(w, c, i) || (c == b && i == |w.intents| && attempt.Made?))
            && (forall c: Id :: HasLive(w', c) ==> HasLive(w, c) || (c == b && attempt.Made?))
  {
    var w' := Next(w, Create(b, cents, attempt));
    assert forall i: Id | i < |w.intents| :: w'.intents[i] == w.intents[i];
  }

  lemma CreateKeepsTables(w: World, b: Id, cents: nat, attempt: Attempt)
    requires Inv(w) && Legal(w, Create(b, cents, attempt))
    ensures var w' := Next(w, Create(b, cents, attempt));
            GroupsOk(w') && RowsOk(w') && ClaimsOk(w') && IntentsOk(w') && DrawsOk(w')
  {
  }

  lemma CreateKeepsMoney(w: World, b: Id, cents: nat, attempt: Attempt)
    requires Inv(w) && Legal(w, Create(b, cents, attempt))
    ensures var w' := Next(w, Create(b, cents, attempt));
            OneLive(w') && KeysOk(w') && PhasesOk(w')
  {
    if !KeyLive(w, b) && !attempt.Nothing? {
      CreateAddsOneLive(w, b, cents, attempt);
    }
  }

  /** A group belongs to one unreleased batch at most. */
  lemma MembersDisjoint(w: World, b: Id, c: Id, g: Id)
    requires RowsOk(w) && ClaimsOk(w)
    requires b < |w.claims| && c < |w.claims| && w.claims[b].phase != Released && w.claims[c].phase != Released
    requires g in w.claims[b].members
    ensures g in w.claims[c].members ==> b == c
  {
    assert w.charges[g].batch == Some(b);
    assert g in w.claims[c].members ==> w.charges[g].batch == Some(c);
  }

  lemma SettleKeepsRows(w: World, b: Id, phase: Phase)
    requires RowsOk(w) && ClaimsOk(w) && Open(w, b) && phase != Released
    ensures RowsOk(Settle(w, b, phase))
  {
    var w' := Settle(w, b, phase);
    forall g <- w'.charges
      ensures g in w.claims[b].members || (g in w.charges && w'.charges[g] == w.charges[g])
    {
    }
  }

  lemma SettleKeepsClaims(w: World, b: Id, phase: Phase)
    requires RowsOk(w) && ClaimsOk(w) && Open(w, b) && phase != Released
    ensures ClaimsOk(Settle(w, b, phase))
  {
    var w' := Settle(w, b, phase);
    forall c: Id, g: Id | c < |w.claims| && c != b && g in w.claims[c].members && w.claims[c].phase != Released
      ensures w'.claims[c] == w.claims[c] && g in w'.charges && w'.charges[g] == w.charges[g]
    {
      MembersDisjoint(w, c, b, g);
    }
  }

  lemma SettleKeepsIntents(w: World, b: Id, phase: Phase)
    requires GroupsOk(w) && IntentsOk(w) && OneLive(w) && KeysOk(w) && Open(w, b) && phase != Released
    ensures var w' := Settle(w, b, phase); GroupsOk(w') && IntentsOk(w') && OneLive(w') && KeysOk(w')
  {
    var w' := Settle(w, b, phase);
    assert forall c: Id, i: Id :: LiveIntent(w', c, i) <==> LiveIntent(w, c, i);
    assert forall c: Id | c < |w.claims| :: BatchMicros(w', c) == BatchMicros(w, c);
  }

  lemma SettleKeepsPhases(w: World, b: Id, phase: Phase)
    requires PhasesOk(w) && DrawsOk(w) && Open(w, b) && phase != Released
    requires match phase
             case Charged(i) => i < |w.intents| && w.intents[i].batch == b
             case Declined => w.claims[b].mode == Postpay && !HasLive(w, b)
             case DrawnDown => b in w.drawn
             case _ => true
    ensures PhasesOk(Settle(w, b, phase)) && DrawsOk(Settle(w, b, phase))
  {
    var w' := Settle(w, b, phase);
    assert forall c: Id, i: Id :: LiveIntent(w', c, i) <==> LiveIntent(w, c, i);
    assert forall c: Id | c < |w.claims| :: BatchMicros(w', c) == BatchMicros(w, c);
  }

  lemma SettleKeepsInv(w: World, b: Id, phase: Phase)
    requires Inv(w) && Open(w, b) && phase != Released
    requires match phase
             case Charged(i) => i < |w.intents| && w.intents[i].batch == b
             case Declined => w.claims[b].mode == Postpay && !HasLive(w, b)
             case DrawnDown => b in w.drawn
             case _ => true
    ensures Inv(Settle(w, b, phase))
  {
    SettleKeepsRows(w, b, phase);
    SettleKeepsClaims(w, b, phase);
    SettleKeepsIntents(w, b, phase);
    SettleKeepsPhases(w, b, phase);
  }

  lemma NextKeepsInv(w: World, e: Event)
    requires Inv(w) && Legal(w, e)
    ensures Inv(Next(w, e))
  {
    match e
    case Clear(g) => ClearKeepsInv(w, g);
    case Progress(i, s) => ProgressKeepsInv(w, i, s);
    case Reserve(a, m, gs) => ReserveKeepsRows(w, a, m, gs); ReserveKeepsClaims(w, a, m, gs); ReserveKeepsIntents(w, a, m, gs); ReserveKeepsMoney(w, a, m, gs);
    case Release(b) => ReleaseKeepsTables(w, b); ReleaseKeepsMoney(w, b);
    case ReleaseOrphans(_) => UnbatchedKeepsInv(w, e);
    case SkipHouse(_) => UnbatchedKeepsInv(w, e);
    case Create(b, cents, attempt) => CreateKeepsTables(w, b, cents, attempt); CreateKeepsMoney(w, b, cents, attempt);
    case MarkCharged(b, i) => SettleKeepsInv(w, b, Charged(i));
    case MarkDeclined(b) => SettleKeepsInv(w, b, Declined);
    case MarkDrawn(b) => SettleKeepsInv(w, b, DrawnDown);
    case _ => QuietKeepsInv(w, e);
  }

  // ---------------------------------------------------------------- whole runs

  lemma ReachesStep(w0: World, es: seq<Event>, w: World, e: Event)
    requires Reaches(w0, es, w) && Legal(w, e)
    ensures Reaches(w0, es + [e], Next(w, e))
  {
    assert (es + [e])[..|es|] == es;
  }

  lemma {:induction false} ReachesInv(w0: World, es: seq<Event>, w: World)
    requires Inv(w0) && Reaches(w0, es, w)
    ensures Inv(w)
  {
    if es != [] {
      var last := |es| - 1;
      var mid: World :| Reaches(w0, es[..last], mid) && Legal(mid, es[last]) && w == Next(mid, es[last]);
      ReachesInv(w0, es[..last], mid);
      NextKeepsInv(mid, es[last]);
    }
  }

  lemma InitialInv(w: World)
    requires Initial(w)
    ensures Inv(w)
  {
  }

  /** One way of having taken the money for a group: a succeeded card charge, or a balance draw-down. */
  datatype Collection = ByCard(pi: Id) | ByDraw(batch: Id)

  ghost predicate Collects(w: World, c: Collection, g: Id) {
    match c
    case ByCard(i) =>
      && i < |w.intents| && w.intents[i].status == PiSucceeded
      && w.intents[i].batch < |w.claims| && g in w.claims[w.intents[i].batch].members
    case ByDraw(b) =>
      b in w.drawn && b < |w.claims| && g in w.claims[b].members
  }

  /**
   At most once: after any sequence of runs and environment events, no ledger group was collected
   twice, whether by two card charges, two draw-downs, or one of each.
   */
  lemma CollectedAtMostOnce(w0: World, es: seq<Event>, w: World, c: Collection, d: Collection, g: Id)
    requires Initial(w0) && Reaches(w0, es, w)
    requires Collects(w, c, g) && Collects(w, d, g)
    ensures c == d
  {
    InitialInv(w0);
    ReachesInv(w0, es, w);
    var b := if c.ByCard? then w.intents[c.pi].batch else c.batch;
    var b' := if d.ByCard? then w.intents[d.pi].batch else d.batch;
    MembersDisjoint(w, b, b', g);
    if c.ByCard? && d.ByCard? {
      assert LiveIntent(w, b, c.pi) && LiveIntent(w, b, d.pi);
    }
  }

  /**
   A plan made before the lock may name groups that have an owner by now. Reserving it claims only the
   free ones, leaves every other row and batch alone, and the batch's sum is that of what it claimed.
   */
  lemma StalePlanClaimsOnlyTheFree(w0: World, es: seq<Event>, w: World, a: Id, m: Mode, gs: set<Id>)
    requires Initial(w0) && Reaches(w0, es, w) && Legal(w, Reserve(a, m, gs))
    ensures var w' := Next(w, Reserve(a, m, gs));
            var b := |w.claims|;
            && (forall g <- w.charges :: g in w'.charges && w'.charges[g] == w.charges[g])
            && (forall g: Id :: g in w'.charges && g !in w.charges <==> g in gs && g !in w.charges)
            && (forall c: Id | c < b :: w'.claims[c] == w.claims[c] && w'.claims[b].members !! LiveMembers(w, c))
            && BatchMicros(w', b) == Total(w.groups, gs - w.charges.Keys)
  {
    InitialInv(w0);
    ReachesInv(w0, es, w);
    assert Unclaimed(w, gs) == gs - w.charges.Keys;
  }

  /** The groups an unreleased batch owns. */
  function LiveMembers(w: World, b: Id): set<Id>
    requires b < |w.claims|
  {
    if w.claims[b].phase == Released then {} else w.claims[b].members
  }

  /** What a card charge took is its batch's cleared micros rounded down to a cent; a draw-down is exact. */
  lemma CollectedAmount(w0: World, es: seq<Event>, w: World, c: Collection, g: Id)
    requires Initial(w0) && Reaches(w0, es, w) && Collects(w, c, g)
    ensures c.ByCard? ==>
              0 <= BatchMicros(w, w.intents[c.pi].batch) - w.intents[c.pi].cents * MICROS_PER_CENT < MICROS_PER_CENT
    ensures c.ByDraw? ==> w.drawn[c.batch] == BatchMicros(w, c.batch)
  {
    InitialInv(w0);
    ReachesInv(w0, es, w);
  }

  /** A batch reserved for one route is never collected over the other, whatever billing_mode did since. */
  lemma RouteFrozen(w0: World, es: seq<Event>, w: World, b: Id, i: Id)
    requires Initial(w0) && Reaches(w0, es, w)
    requires b in w.drawn && i < |w.intents|
    ensures w.intents[i].batch != b
  {
    InitialInv(w0);
    ReachesInv(w0, es, w);
  }

  /** When a batch is released to the view, no PaymentIntent and no draw-down exists for it. */
  lemma ReleaseOnlyBeforeMoney(w0: World, es: seq<Event>, w: World, b: Id)
    requires Initial(w0) && Reaches(w0, es, w) && Legal(w, Release(b))
    ensures b !in w.drawn
    ensures forall i: Id | i < |w.intents| :: w.intents[i].batch != b
  {
    InitialInv(w0);
    ReachesInv(w0, es, w);
  }

  /** A batch is written off as declined only when no live charge exists for it. */
  lemma DeclinedHasNoCharge(w0: World, es: seq<Event>, w: World, g: Id, i: Id)
    requires Initial(w0) && Reaches(w0, es, w)
    requires g in w.charges && w.charges[g].status == Failed && w.charges[g].batch.Some?
    requires i < |w.intents| && w.intents[i].batch == w.charges[g].batch.value
    ensures w.intents[i].status == PiRequiresPaymentMethod || w.intents[i].status == PiCanceled
  {
    InitialInv(w0);
    ReachesInv(w0, es, w);
    var b := w.intents[i].batch;
    assert LiveIntent(w, b, i) <==> MoneyMoves(w.intents[i].status);
  }

  /**
   What a batch's rows say of it: pending while it is open, succeeded with the PaymentIntent or by balance once it
   is settled, failed once it is declined; every row with its group's own amount.
   */
  lemma RowsTellTheirBatch(w0: World, es: seq<Event>, w: World, b: Id, g: Id)
    requires Initial(w0) && Reaches(w0, es, w) && b < |w.claims| && g in w.claims[b].members && w.claims[b].phase != Released
    ensures g < |w.groups| && g in w.charges
    ensures var row := w.charges[g];
            && row.advertiser == w.claims[b].advertiser && row.micros == w.groups[g].micros
            && row.batch == Some(b) && row.mode == Some(w.claims[b].mode)
            && match w.claims[b].phase
               case Reserved => row.status == Pending && row.pi == None && !row.viaBalance
               case Charged(i) => row.status == Succeeded && row.pi == Some(i) && !row.viaBalance
               case DrawnDown => row.status == Succeeded && row.pi == None && row.viaBalance
               case Declined => row.status == Failed && row.pi == None && !row.viaBalance
  {
    InitialInv(w0);
    ReachesInv(w0, es, w);
  }

  // ---------------------------------------------------------------- what later events cannot change

  /** What one world promises to every later one. */
  ghost predicate Kept(w: World, w': World) {
    && w.house == w'.house
    && w.groups <= w'.groups
    && |w.claims| <= |w'.claims|
    && (forall b: Id | b < |w.claims| ::
          w'.claims[b].(phase := w.claims[b].phase) == w.claims[b])
    && |w.intents| <= |w'.intents|
    && (forall i: Id | i < |w.intents| ::
          && w'.intents[i].(status := w.intents[i].status) == w.intents[i]
          && (w.intents[i].status == PiSucceeded ==> w'.intents[i].status == PiSucceeded))
    && (forall b <- w.drawn :: b in w'.drawn && w'.drawn[b] == w.drawn[b])
  }

  lemma NextKeepsIntents(w: World, e: Event)
    requires Legal(w, e)
    ensures var w' := Next(w, e);
            && |w.intents| <= |w'.intents|
            && forall i: Id | i < |w.intents| ::
                 && w'.intents[i].(status := w.intents[i].status) == w.intents[i]
                 && (w.intents[i].status == PiSucceeded ==> w'.intents[i].status == PiSucceeded)
  {
  }

  lemma NextKeepsClaimed(w: World, e: Event)
    requires Legal(w, e)
    ensures var w' := Next(w, e);
            && w.house == w'.house && w.groups <= w'.groups && |w.claims| <= |w'.claims|
            && forall b: Id | b < |w.claims| :: w'.claims[b].(phase := w.claims[b].phase) == w.claims[b]
  {
  }

  lemma NextKept(w: World, e: Event)
    requires Legal(w, e)
    ensures Kept(w, Next(w, e))
  {
    NextKeepsIntents(w, e);
    NextKeepsClaimed(w, e);
  }

  lemma KeptTransitive(u: World, v: World, w: World)
    requires Kept(u, v) && Kept(v, w)
    ensures Kept(u, w)
  {
  }

  /**
   The members, advertiser, route and cents of a batch never change once it is reserved, and
   what was collected stays collected.
   */
  lemma {:induction false} BatchesFrozen(w: World, es: seq<Event>, w': World)
    requires Inv(w) && Reaches(w, es, w')
    ensures Kept(w, w')
  {
    if es != [] {
      var last := |es| - 1;
      var mid: World :| Reaches(w, es[..last], mid) && Legal(mid, es[last]) && w' == Next(mid, es[last]);
      BatchesFrozen(w, es[..last], mid);
      ReachesInv(w, es[..last], mid);
      NextKept(mid, es[last]);
      KeptTransitive(w, mid, w');
    }
  }

  lemma {:induction false} ReachesUnique(w0: World, es: seq<Event>, w: World, v: World)
    requires Reaches(w0, es, w) && Reaches(w0, es, v)
    ensures w == v
  {
    if es != [] {
      var last := |es| - 1;
      var m: World :| Reaches(w0, es[..last], m) && Legal(m, es[last]) && w == Next(m, es[last]);
      var n: World :| Reaches(w0, es[..last], n) && Legal(n, es[last]) && v == Next(n, es[last]);
      ReachesUnique(w0, es[..last], m, n);
    }
  }

  /** A longer record of the same history leads to a world that kept what the shorter one had. */
  lemma {:induction false} LaterKept(w0: World, es: seq<Event>, w: World, fs: seq<Event>, w': World)
    requires Inv(w0) && Reaches(w0, es, w) && Reaches(w0, fs, w') && es <= fs
    ensures Kept(w, w')
    decreases |fs|
  {
    if es == fs {
      ReachesUnique(w0, es, w, w');
    } else {
      var last := |fs| - 1;
      var mid: World :| Reaches(w0, fs[..last], mid) && Legal(mid, fs[last]) && w' == Next(mid, fs[last]);
      LaterKept(w0, es, w, fs[..last], mid);
      ReachesInv(w0, fs[..last], mid);
      NextKept(mid, fs[last]);
      KeptTransitive(w, mid, w');
    }
  }

  // ---------------------------------------------------------------- the hypothesis on create is exact

  ghost predicate TwoLive(w: World, b: Id) {
    exists i: Id, j: Id :: i != j && LiveIntent(w, b, i) && LiveIntent(w, b, j)
  }

  /**
   A create call that charges leaves two live charges for its batch exactly when one was there
   already and the batch's idempotency key no longer answers. A search that errors falls through
   to create, so nothing else stands between the two.
   */
  lemma CreateChargesTwiceExactly(w: World, b: Id, cents: nat, status: IntentStatus)
    requires Inv(w) && (status == PiSucceeded || status == PiProcessing || status == PiRequiresCapture)
    ensures TwoLive(CreateIntent(w, b, cents, Made(status)), b) <==> HasLive(w, b) && !KeyLive(w, b)
  {
    var w' := CreateIntent(w, b, cents, Made(status));
    if !KeyLive(w, b) {
      var n := |w.intents|;
      assert LiveIntent(w', b, n);
      assert forall i: Id :: LiveIntent(w', b, i) <==> LiveIntent(w, b, i) || i == n;
    }
  }

  // A crashed run: one group of 50 cents, reserved and charged, never marked.
  const ONE_GROUP := [Group(7, 500000)]
  const FRESH := World({}, {}, ONE_GROUP, map[], [], map[], map[], [], map[], 0)
  const RESERVED := FRESH.(
    claims := [Claim(7, Postpay, {0}, Reserved)],
    charges := map[0 := Row(7, 500000, Some(0), Some(Postpay), Pending, None, false)])
  const CRASHED := RESERVED.(intents := [Intent(0, 50, PiSucceeded)], keys := map[0 := Key(0, 0, false)])
  const A_DAY_LATER := CRASHED.(now := KEY_LIFETIME)
  const CRASH := [Reserve(7, Postpay, {0})] + [Create(0, 50, Made(PiSucceeded))] + [Tick(KEY_LIFETIME)]

  lemma OneGroupTotal()
    ensures Total(ONE_GROUP, {0}) == 500000
  {
    assert ONE_GROUP[..0] == [];
  }

  lemma ReservedReached()
    ensures Reaches(FRESH, [Reserve(7, Postpay, {0})], RESERVED)
  {
    var e := Reserve(7, Postpay, {0});
    assert Unclaimed(FRESH, {0}) == {0};
    assert MemberRows(ONE_GROUP, 0, RESERVED.claims[0]) == RESERVED.charges;
    ReachesStep(FRESH, [], FRESH, e);
    assert [] + [e] == [e];
    assert Next(FRESH, e) == RESERVED;
  }

  lemma CrashReached()
    ensures Reaches(FRESH, CRASH, A_DAY_LATER)
  {
    var e, f := Create(0, 50, Made(PiSucceeded)), Tick(KEY_LIFETIME);
    OneGroupTotal();
    ReservedReached();
    assert Legal(RESERVED, e);
    assert Next(RESERVED, e) == CRASHED;
    ReachesStep(FRESH, [Reserve(7, Postpay, {0})], RESERVED, e);
    ReachesStep(FRESH, [Reserve(7, Postpay, {0})] + [e], CRASHED, f);
  }

  /**
   The failing case does occur: a run that crashes after its charge, a recovery one key lifetime
   later, and a search that shows nothing.
   */
  lemma LateBlindRecoveryChargesTwice()
    ensures Initial(FRESH) && Reaches(FRESH, CRASH, A_DAY_LATER)
    ensures Open(A_DAY_LATER, 0) && BatchCents(A_DAY_LATER, 0) == 50 && !TwoLive(A_DAY_LATER, 0)
    ensures TwoLive(CreateIntent(A_DAY_LATER, 0, 50, Made(PiSucceeded)), 0)
  {
    OneGroupTotal();
    CrashReached();
    InitialInv(FRESH);
    ReachesInv(FRESH, CRASH, A_DAY_LATER);
    assert LiveIntent(A_DAY_LATER, 0, 0);
    CreateChargesTwiceExactly(A_DAY_LATER, 0, 50, PiSucceeded);
  }
}
