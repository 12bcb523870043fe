/**
 At-least-once delivery to several endpoints over one dedup table. An endpoint checks its own row,
 handles, then records; the check may miss (another delivery of the event has not recorded yet, or the
 read failed), the handler may fail, and the record may be lost without anyone noticing.
 */
module Deliveries {
  import opened Basics

  datatype Endpoint = StripeConnect | AdvertiserPortal

  /** A row of stripe_webhook_events, keyed by the event and the function that handled it. */
  datatype Dedup = Dedup(event: Id, endpoint: Endpoint)

  /** One delivery: what it says, and what goes wrong with it. */
  datatype Delivery<+N> = Delivery(key: Dedup, notice: N, misses: bool, fails: bool, lost: bool)

  /** A delivery arrives, or something else happens. */
  datatype Turn<+N, +O> = Arrive(delivery: Delivery<N>) | Other(step: O)

  datatype Reply = Seen | HandlerFailed | HandledNow

  /**
   The state as it is, the state as it would be had every repeated handling been skipped, the dedup
   rows, and the deliveries handled so far, recorded or not.
   */
  datatype Desk<+S> = Desk(state: S, once: S, rows: set<Dedup>, handled: set<Dedup>)

  function ReplyTo<N>(rows: set<Dedup>, d: Delivery<N>): Reply {
    if d.key in rows && !d.misses then Seen else if d.fails then HandlerFailed else HandledNow
  }

  function RowsAfter<N>(rows: set<Dedup>, d: Delivery<N>): set<Dedup> {
    if ReplyTo(rows, d) == HandledNow && !d.lost then rows + {d.key} else rows
  }

  function Step<S, N, O>(handle: (S, N) -> S, other: (S, O) -> S, d: Desk<S>, t: Turn<N, O>): Desk<S> {
    match t
    case Other(x) => d.(state := other(d.state, x), once := other(d.once, x))
    case Arrive(x) =>
      if ReplyTo(d.rows, x) != HandledNow then d
      else Desk(handle(d.state, x.notice),
                if x.key in d.handled then d.once else handle(d.once, x.notice),
                RowsAfter(d.rows, x),
                d.handled + {x.key})
  }

  function After<S, N, O>(handle: (S, N) -> S, other: (S, O) -> S, s: S, turns: seq<Turn<N, O>>): Desk<S> {
    if turns == [] then Desk(s, s, {}, {})
    else Step(handle, other, After(handle, other, s, turns[..|turns| - 1]), turns[|turns| - 1])
  }

  lemma AfterMore<S, N, O>(handle: (S, N) -> S, other: (S, O) -> S, s: S, turns: seq<Turn<N, O>>, t: Turn<N, O>)
    ensures After(handle, other, s, turns + [t]) == Step(handle, other, After(handle, other, s, turns), t)
  {
    assert (turns + [t])[..|turns|] == turns;
  }

  /** The last turn of a schedule handles a delivery that was handled before. */
  predicate Repeats<S, N, O>(before: Desk<S>, t: Turn<N, O>) {
    t.Arrive? && ReplyTo(before.rows, t.delivery) == HandledNow && t.delivery.key in before.handled
  }

  /** At every point of the schedule the state is that of handling each delivery once. */
  ghost predicate AlwaysOnce<S(!new), N(!new), O(!new)>(handle: (S, N) -> S, other: (S, O) -> S, s: S, turns: seq<Turn<N, O>>) {
    && After(handle, other, s, turns).state == After(handle, other, s, turns).once
    && (turns != [] ==> AlwaysOnce(handle, other, s, turns[..|turns| - 1]))
  }

  /** Whenever a delivery was handled again, handling it changed nothing. */
  ghost predicate RepeatsChangeNothing<S(!new), N(!new), O(!new)>(handle: (S, N) -> S, other: (S, O) -> S, s: S, turns: seq<Turn<N, O>>) {
    turns != [] ==>
      var before, t := After(handle, other, s, turns[..|turns| - 1]), turns[|turns| - 1];
      && RepeatsChangeNothing(handle, other, s, turns[..|turns| - 1])
      && (Repeats(before, t) ==> handle(before.state, t.delivery.notice) == before.state)
  }

  /**
   For every schedule of deliveries, with missed checks, failing handlers and lost records and with
   anything else in between: the state is at every point that of handling each delivery once, when it was
   first handled, if and only if no repeated handling changed anything.
   */
  lemma {:induction false} OnceExactly<S(!new), N(!new), O(!new)>(handle: (S, N) -> S, other: (S, O) -> S, s: S, turns: seq<Turn<N, O>>)
    ensures AlwaysOnce(handle, other, s, turns) <==> RepeatsChangeNothing(handle, other, s, turns)
  {
    if turns != [] {
      OnceExactly(handle, other, s, turns[..|turns| - 1]);
    }
  }

  /** Turn k handled a delivery with that key and its record was kept. */
  ghost predicate RecordedAt<S, N, O>(
    handle: (S, N) -> S, other: (S, O) -> S, s: S, turns: seq<Turn<N, O>>, key: Dedup, k: nat)
  {
    && k < |turns| && turns[k].Arrive? && turns[k].delivery.key == key && !turns[k].delivery.lost
    && ReplyTo(After(handle, other, s, turns[..k]).rows, turns[k].delivery) == HandledNow
  }

  /**
   A failed handler leaves no row: over every schedule there is a row exactly where some turn handled a
   delivery of that event at that endpoint and its record was kept.
   */
  lemma {:induction false} RowsWereHandled<S, N, O>(handle: (S, N) -> S, other: (S, O) -> S, s: S, turns: seq<Turn<N, O>>, key: Dedup)
    ensures After(handle, other, s, turns).rows <= After(handle, other, s, turns).handled
    ensures key in After(handle, other, s, turns).rows <==> exists k: nat :: RecordedAt(handle, other, s, turns, key, k)
  {
    if turns != [] {
      var last := |turns| - 1;
      RowsWereHandled(handle, other, s, turns[..last], key);
      forall k: nat | k < last
        ensures RecordedAt(handle, other, s, turns, key, k) <==> RecordedAt(handle, other, s, turns[..last], key, k)
      {
        assert turns[..last][..k] == turns[..k];
      }
      assert key in After(handle, other, s, turns).rows <==>
               key in After(handle, other, s, turns[..last]).rows || RecordedAt(handle, other, s, turns, key, last);
    }
  }

  /** No check missed and no record was lost. */
  predicate Faithful<N, O>(turns: seq<Turn<N, O>>) {
    turns != [] ==>
      var t := turns[|turns| - 1];
      Faithful(turns[..|turns| - 1]) && (t.Arrive? ==> !t.delivery.misses && !t.delivery.lost)
  }

  /** Where every check and record did its work, nothing is handled twice, however often it failed before. */
  lemma {:induction false} FaithfulNeverRepeats<S(!new), N(!new), O(!new)>(handle: (S, N) -> S, other: (S, O) -> S, s: S, turns: seq<Turn<N, O>>)
    requires Faithful(turns)
    ensures After(handle, other, s, turns).rows == After(handle, other, s, turns).handled
    ensures AlwaysOnce(handle, other, s, turns)
  {
    if turns != [] {
      FaithfulNeverRepeats(handle, other, s, turns[..|turns| - 1]);
    }
  }

  // ---------------------------------------------------------------- one endpoint's rows

  function RowsOf(rows: set<Dedup>, endpoint: Endpoint): set<Dedup> {
    set k <- rows | k.endpoint == endpoint
  }

  /** A delivery's answer depends on the rows of its own endpoint only, and touches no others. */
  lemma OwnRowsDecide<N>(rows: set<Dedup>, d: Delivery<N>)
    ensures ReplyTo(rows, d) == ReplyTo(RowsOf(rows, d.key.endpoint), d)
    ensures RowsOf(RowsAfter(rows, d), d.key.endpoint) == RowsAfter(RowsOf(rows, d.key.endpoint), d)
    ensures forall other: Endpoint :: other != d.key.endpoint ==> RowsOf(RowsAfter(rows, d), other) == RowsOf(rows, other)
  {
  }

  /** Delivering over a table shared with others leads where the endpoint's own schedule leads. */
  lemma DeliveryLeads<S, N, O>(
    handle: (S, N) -> S, other: (S, O) -> S, s: S, turns: seq<Turn<N, O>>, d: Delivery<N>, rows: set<Dedup>)
    requires RowsOf(rows, d.key.endpoint) == After(handle, other, s, turns).rows
    ensures var now, next := After(handle, other, s, turns), After(handle, other, s, turns + [Arrive(d)]);
            && next.rows == RowsOf(RowsAfter(rows, d), d.key.endpoint)
            && next.state == if ReplyTo(rows, d) == HandledNow then handle(now.state, d.notice) else now.state
  {
    OwnRowsDecide(rows, d);
    AfterMore(handle, other, s, turns, Arrive(d));
  }

  // ---------------------------------------------------------------- the table

  class DedupTable {
    var rows: set<Dedup>

    constructor ()
      ensures rows == {}
    {
      rows := {};
    }

    /** The check: an answer of true comes from a row of that event and that endpoint. */
    method Check(key: Dedup, misses: bool) returns (seen: bool)
      ensures seen <==> key in rows && !misses
    {
      seen := key in rows && !misses;
    }

    /** The record, duplicates ignored; its answer is never looked at. */
    method Record(key: Dedup, lost: bool)
      modifies this
      ensures rows == old(rows) + if lost then {} else {key}
    {
      if !lost {
        rows := rows + {key};
      }
    }

    /** The rows of one endpoint. */
    function Own(endpoint: Endpoint): set<Dedup>
      reads this
    {
      RowsOf(rows, endpoint)
    }
  }
}
