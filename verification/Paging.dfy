/**
 Cursor pagination. A list call returns some items after the cursor, at most 100, at least one while
 any remain, and says whether more remain; where one page ends and the next begins is up to Stripe.
 */
module Paging {
  import opened Basics
  import opened ChargeProtocol
  import Reconcile
  import PayoutProtocol
  import PayoutBooks

  datatype Item<+T> = Item(id: Id, content: T)

  /** A PaymentIntent as the list shows it. */
  datatype ListedIntent = ListedIntent(lumaline: bool, succeeded: bool, cents: nat)

  /** A transfer as the list shows it; reversed is Stripe's cumulative amount_reversed. */
  datatype ListedTransfer = ListedTransfer(lumaline: bool, payout: Option<Id>, cents: nat, reversed: nat)

  class Listing<T> {
    const items: seq<Item<T>>

    ghost predicate Distinct() {
      forall i: nat, j: nat | i < j < |items| :: items[i].id != items[j].id
    }

    /** The position right after a cursor. */
    ghost predicate Follows(cursor: Option<Id>, p: nat) {
      && p <= |items|
      && match cursor
         case None => p == 0
         case Some(id) => p > 0 && items[p - 1].id == id
    }

    constructor (items: seq<Item<T>>)
      ensures this.items == items
    {
      this.items := items;
    }

    method Page(cursor: Option<Id>, ghost p: nat) returns (data: seq<Item<T>>, hasMore: bool)
      requires Distinct() && Follows(cursor, p)
      ensures |data| <= 100 && p + |data| <= |items| && data == items[p..p + |data|]
      ensures hasMore <==> p + |data| < |items|
      ensures p < |items| ==> data != []
    {
      var from := 0;
      if cursor.Some? {
        while items[from].id != cursor.value
          invariant 0 <= from < p
          decreases p - from
        {
          from := from + 1;
        }
        from := from + 1;
      }
      var left := |items| - from;
      var wanted: int := *;
      var size := if left == 0 then 0 else if wanted < 1 || wanted > 100 || wanted > left then 1 else wanted;
      data := items[from..from + size];
      hasMore := from + size < |items|;
    }
  }

  // ---------------------------------------------------------------- what the loops must add up

  function CollectedMicros(items: seq<Item<ListedIntent>>): nat {
    if items == [] then 0
    else
      var last := items[|items| - 1].content;
      CollectedMicros(items[..|items| - 1])
      + if last.lumaline && last.succeeded then last.cents * MICROS_PER_CENT else 0
  }

  function CollectedCount(items: seq<Item<ListedIntent>>): nat {
    if items == [] then 0
    else
      var last := items[|items| - 1].content;
      CollectedCount(items[..|items| - 1]) + if last.lumaline && last.succeeded then 1 else 0
  }

  function NetMicros(items: seq<Item<ListedTransfer>>): int {
    if items == [] then 0
    else
      var last := items[|items| - 1].content;
      NetMicros(items[..|items| - 1])
      + if last.lumaline then (last.cents - last.reversed) * MICROS_PER_CENT else 0
  }

  function TransferCount(items: seq<Item<ListedTransfer>>): nat {
    if items == [] then 0
    else TransferCount(items[..|items| - 1]) + if items[|items| - 1].content.lumaline then 1 else 0
  }

  lemma {:induction false} CollectedAppend(a: seq<Item<ListedIntent>>, b: seq<Item<ListedIntent>>)
    ensures CollectedMicros(a + b) == CollectedMicros(a) + CollectedMicros(b)
    ensures CollectedCount(a + b) == CollectedCount(a) + CollectedCount(b)
  {
    if b == [] {
      assert a + b == a;
    } else {
      CollectedAppend(a, b[..|b| - 1]);
      assert (a + b)[..|a + b| - 1] == a + b[..|b| - 1];
    }
  }

  lemma {:induction false} NetAppend(a: seq<Item<ListedTransfer>>, b: seq<Item<ListedTransfer>>)
    ensures NetMicros(a + b) == NetMicros(a) + NetMicros(b)
    ensures TransferCount(a + b) == TransferCount(a) + TransferCount(b)
  {
    if b == [] {
      assert a + b == a;
    } else {
      NetAppend(a, b[..|b| - 1]);
      assert (a + b)[..|a + b| - 1] == a + b[..|b| - 1];
    }
  }

  lemma CollectedPage(items: seq<Item<ListedIntent>>, p: nat, n: nat)
    requires p + n <= |items|
    ensures CollectedMicros(items[..p + n]) == CollectedMicros(items[..p]) + CollectedMicros(items[p..p + n])
    ensures CollectedCount(items[..p + n]) == CollectedCount(items[..p]) + CollectedCount(items[p..p + n])
  {
    CollectedAppend(items[..p], items[p..p + n]);
    assert items[..p] + items[p..p + n] == items[..p + n];
  }

  lemma NetPage(items: seq<Item<ListedTransfer>>, p: nat, n: nat)
    requires p + n <= |items|
    ensures NetMicros(items[..p + n]) == NetMicros(items[..p]) + NetMicros(items[p..p + n])
    ensures TransferCount(items[..p + n]) == TransferCount(items[..p]) + TransferCount(items[p..p + n])
  {
    NetAppend(items[..p], items[p..p + n]);
    assert items[..p] + items[p..p + n] == items[..p + n];
  }

  // ---------------------------------------------------------------- the loops

  /** The PaymentIntent loop of /billing/reconcile: item by item, page by page. */
  method SumCollected(list: Listing<ListedIntent>) returns (micros: nat, count: nat)
    requires list.Distinct()
    ensures micros == CollectedMicros(list.items) && count == CollectedCount(list.items)
  {
    micros, count := 0, 0;
    var hasMore, cursor := true, None;
    ghost var p := 0;
    while hasMore
      invariant p <= |list.items| && (hasMore ==> list.Follows(cursor, p))
      invariant micros == CollectedMicros(list.items[..p]) && count == CollectedCount(list.items[..p])
      invariant !hasMore ==> p == |list.items|
      decreases |list.items| - p, hasMore
    {
      var data;
      data, hasMore := list.Page(cursor, p);
      for k := 0 to |data|
        invariant micros == CollectedMicros(list.items[..p + k]) && count == CollectedCount(list.items[..p + k])
      {
        assert list.items[..p + k + 1][..p + k] == list.items[..p + k];
        var pi := data[k].content;
        if pi.lumaline && pi.succeeded {
          micros := micros + pi.cents * MICROS_PER_CENT;
          count := count + 1;
        }
      }
      p := p + |data|;
      if hasMore && |data| > 0 {
        cursor := Some(data[|data| - 1].id);
      } else {
        hasMore := false;
      }
    }
    assert list.items[..p] == list.items;
  }

  /** sumLumalinePaymentIntents: the monitor's totals of one page. */
  method SumLumalinePaymentIntents(page: seq<Item<ListedIntent>>) returns (micros: nat, count: nat)
    ensures micros == CollectedMicros(page) && count == CollectedCount(page)
  {
    micros, count := 0, 0;
    for k := 0 to |page|
      invariant micros == CollectedMicros(page[..k]) && count == CollectedCount(page[..k])
    {
      assert page[..k + 1][..k] == page[..k];
      var pi := page[k].content;
      if pi.lumaline && pi.succeeded {
        micros := micros + pi.cents * MICROS_PER_CENT;
        count := count + 1;
      }
    }
    assert page[..|page|] == page;
  }

  /** The monitor's loop, which adds up page totals; its result is SumCollected's, for every paging. */
  method MonitorCollected(list: Listing<ListedIntent>) returns (micros: nat, count: nat)
    requires list.Distinct()
    ensures micros == CollectedMicros(list.items) && count == CollectedCount(list.items)
  {
    micros, count := 0, 0;
    var hasMore, cursor := true, None;
    ghost var p := 0;
    while hasMore
      invariant p <= |list.items| && (hasMore ==> list.Follows(cursor, p))
      invariant micros == CollectedMicros(list.items[..p]) && count == CollectedCount(list.items[..p])
      invariant !hasMore ==> p == |list.items|
      decreases |list.items| - p, hasMore
    {
      var data;
      data, hasMore := list.Page(cursor, p);
      var pageMicros, pageCount := SumLumalinePaymentIntents(data);
      CollectedPage(list.items, p, |data|);
      micros, count := micros + pageMicros, count + pageCount;
      p := p + |data|;
      if hasMore && |data| > 0 {
        cursor := Some(data[|data| - 1].id);
      } else {
        hasMore := false;
      }
    }
    assert list.items[..p] == list.items;
  }

  /** sumLumalineTransfersMicros: one page, net of reversals. */
  method SumLumalineTransfers(page: seq<Item<ListedTransfer>>) returns (micros: int, count: nat)
    ensures micros == NetMicros(page) && count == TransferCount(page)
  {
    micros, count := 0, 0;
    for k := 0 to |page|
      invariant micros == NetMicros(page[..k]) && count == TransferCount(page[..k])
    {
      assert page[..k + 1][..k] == page[..k];
      var t := page[k].content;
      if t.lumaline {
        micros := micros + (t.cents - t.reversed) * MICROS_PER_CENT;
        count := count + 1;
      }
    }
    assert page[..|page|] == page;
  }

  /** The transfer loop of the payout reconcile, and of the monitor's payout check. */
  method SumTransfers(list: Listing<ListedTransfer>) returns (micros: int, count: nat)
    requires list.Distinct()
    ensures micros == NetMicros(list.items) && count == TransferCount(list.items)
  {
    micros, count := 0, 0;
    var hasMore, cursor := true, None;
    ghost var p := 0;
    while hasMore
      invariant p <= |list.items| && (hasMore ==> list.Follows(cursor, p))
      invariant micros == NetMicros(list.items[..p]) && count == TransferCount(list.items[..p])
      invariant !hasMore ==> p == |list.items|
      decreases |list.items| - p, hasMore
    {
      var data;
      data, hasMore := list.Page(cursor, p);
      var pageMicros, pageCount := SumLumalineTransfers(data);
      NetPage(list.items, p, |data|);
      micros, count := micros + pageMicros, count + pageCount;
      p := p + |data|;
      if hasMore && |data| > 0 {
        cursor := Some(data[|data| - 1].id);
      } else {
        hasMore := false;
      }
    }
    assert list.items[..p] == list.items;
  }

  ghost predicate Carries(t: Item<ListedTransfer>, payout: Id) {
    t.content.payout == Some(payout)
  }

  /** findTransferIdByMetadata: the first transfer carrying the payout id, however deep it lies. */
  method FindTransferIdByMetadata(list: Listing<ListedTransfer>, payout: Id) returns (found: Option<Id>)
    requires list.Distinct()
    ensures found.None? ==> forall k: nat | k < |list.items| :: !Carries(list.items[k], payout)
    ensures found.Some? ==>
              exists k: nat :: k < |list.items| && Carries(list.items[k], payout) && list.items[k].id == found.value
                && forall j: nat | j < k :: !Carries(list.items[j], payout)
  {
    var hasMore, cursor := true, None;
    ghost var p := 0;
    while hasMore
      invariant p <= |list.items| && (hasMore ==> list.Follows(cursor, p))
      invariant forall k: nat | k < p :: !Carries(list.items[k], payout)
      invariant !hasMore ==> p == |list.items|
      decreases |list.items| - p, hasMore
    {
      var data;
      data, hasMore := list.Page(cursor, p);
      for k := 0 to |data|
        invariant forall j: nat | j < p + k :: !Carries(list.items[j], payout)
      {
        if data[k].content.payout == Some(payout) {
          assert Carries(list.items[p + k], payout);
          return Some(data[k].id);
        }
      }
      p := p + |data|;
      if hasMore && |data| > 0 {
        cursor := Some(data[|data| - 1].id);
      } else {
        hasMore := false;
      }
    }
    return None;
  }

  // ---------------------------------------------------------------- the reports

  /** One item less. */
  function Without<T>(items: seq<T>, k: nat): seq<T>
    requires k < |items|
  {
    items[..k] + items[k + 1..]
  }

  lemma CollectedOne(x: Item<ListedIntent>)
    ensures CollectedMicros([x]) == if x.content.lumaline && x.content.succeeded then x.content.cents * 10000 else 0
    ensures CollectedCount([x]) == if x.content.lumaline && x.content.succeeded then 1 else 0
  {
    assert [x][..0] == [];
  }

  lemma NetOne(x: Item<ListedTransfer>)
    ensures NetMicros([x]) == if x.content.lumaline then (x.content.cents - x.content.reversed) * 10000 else 0
    ensures TransferCount([x]) == if x.content.lumaline then 1 else 0
  {
    assert [x][..0] == [];
  }

  lemma CollectedThree(a: seq<Item<ListedIntent>>, b: seq<Item<ListedIntent>>, c: seq<Item<ListedIntent>>)
    ensures CollectedMicros(a + (b + c)) == CollectedMicros(a + c) + CollectedMicros(b)
    ensures CollectedCount(a + (b + c)) == CollectedCount(a + c) + CollectedCount(b)
  {
    CollectedAppend(a, b + c);
    CollectedAppend(b, c);
    CollectedAppend(a, c);
  }

  lemma NetThree(a: seq<Item<ListedTransfer>>, b: seq<Item<ListedTransfer>>, c: seq<Item<ListedTransfer>>)
    ensures NetMicros(a + (b + c)) == NetMicros(a + c) + NetMicros(b)
    ensures TransferCount(a + (b + c)) == TransferCount(a + c) + TransferCount(b)
  {
    NetAppend(a, b + c);
    NetAppend(b, c);
    NetAppend(a, c);
  }

  lemma SplitAt<T>(items: seq<T>, k: nat)
    requires k < |items|
    ensures items == items[..k] + ([items[k]] + items[k + 1..])
  {
  }

  lemma CollectedTaken(items: seq<Item<ListedIntent>>, k: nat, x: Item<ListedIntent>)
    requires k < |items| && items[k] == x
    ensures var took := x.content.lumaline && x.content.succeeded;
            && CollectedMicros(items) == CollectedMicros(Without(items, k)) + (if took then x.content.cents * 10000 else 0)
            && CollectedCount(items) == CollectedCount(Without(items, k)) + if took then 1 else 0
  {
    var a, c := items[..k], items[k + 1..];
    SplitAt(items, k);
    CollectedThree(a, [x], c);
    CollectedOne(x);
  }

  lemma NetTaken(items: seq<Item<ListedTransfer>>, k: nat, x: Item<ListedTransfer>)
    requires k < |items| && items[k] == x
    ensures NetMicros(items) == NetMicros(Without(items, k)) + if x.content.lumaline then (x.content.cents - x.content.reversed) * 10000 else 0
    ensures TransferCount(items) == TransferCount(Without(items, k)) + if x.content.lumaline then 1 else 0
  {
    var a, c := items[..k], items[k + 1..];
    SplitAt(items, k);
    NetThree(a, [x], c);
    NetOne(x);
  }

  ghost predicate DistinctIds<T>(items: seq<Item<T>>) {
    forall i: nat, j: nat | i < j < |items| :: items[i].id != items[j].id
  }

  /** In some order, the list shows each of the first n charges as it is; whatever else it shows is not LumaLine's. */
  ghost predicate ShowsIntents(items: seq<Item<ListedIntent>>, intents: seq<Intent>) {
    && DistinctIds(items)
    && (forall i: Id | i < |intents| :: Item(i, ListedIntent(true, intents[i].status == PiSucceeded, intents[i].cents)) in items)
    && forall x <- items | x.id >= |intents| :: !x.content.lumaline
  }

  ghost predicate ShowsTransfers(items: seq<Item<ListedTransfer>>, transfers: seq<PayoutProtocol.Transfer>) {
    && DistinctIds(items)
    && (forall t: Id | t < |transfers| ::
          Item(t, ListedTransfer(true, Some(transfers[t].payout), transfers[t].cents, transfers[t].reversed)) in items)
    && forall x <- items | x.id >= |transfers| :: !x.content.lumaline
  }

  lemma WithoutLast<T>(items: seq<Item<T>>, k: nat)
    requires k < |items| && DistinctIds(items)
    ensures DistinctIds(Without(items, k))
    ensures forall x: Item<T> :: x in Without(items, k) <==> x in items && x.id != items[k].id
  {
    var rest := Without(items, k);
    forall i: nat | i < |rest|
      ensures rest[i] == items[if i < k then i else i + 1]
    {
    }
    forall x: Item<T> | x in items && x.id != items[k].id
      ensures x in rest
    {
      var i :| 0 <= i < |items| && items[i] == x;
      assert rest[if i < k then i else i - 1] == x;
    }
  }

  lemma {:induction false} ForeignAddNothing(items: seq<Item<ListedIntent>>)
    requires forall x <- items :: !x.content.lumaline
    ensures CollectedMicros(items) == 0 && CollectedCount(items) == 0
  {
    if items != [] {
      ForeignAddNothing(items[..|items| - 1]);
    }
  }

  lemma {:induction false} ForeignNetNothing(items: seq<Item<ListedTransfer>>)
    requires forall x <- items :: !x.content.lumaline
    ensures NetMicros(items) == 0 && TransferCount(items) == 0
  {
    if items != [] {
      ForeignNetNothing(items[..|items| - 1]);
    }
  }

  /** Whatever the order and whatever else is listed, the loop's total is the world's. */
  lemma {:induction false} ShownIsSucceeded(items: seq<Item<ListedIntent>>, intents: seq<Intent>)
    requires ShowsIntents(items, intents)
    ensures CollectedMicros(items) == Reconcile.SucceededMicros(intents)
    ensures CollectedCount(items) == Reconcile.SucceededCount(intents)
    decreases |intents|
  {
    if intents == [] {
      ForeignAddNothing(items);
    } else {
      var last := |intents| - 1;
      var x := Item(last, ListedIntent(true, intents[last].status == PiSucceeded, intents[last].cents));
      var k :| 0 <= k < |items| && items[k] == x;
      WithoutLast(items, k);
      CollectedTaken(items, k, x);
      assert forall i: Id | i < last :: intents[..last][i] == intents[i];
      ShownIsSucceeded(Without(items, k), intents[..last]);
    }
  }

  lemma {:induction false} ShownIsNet(items: seq<Item<ListedTransfer>>, transfers: seq<PayoutProtocol.Transfer>)
    requires ShowsTransfers(items, transfers)
    ensures NetMicros(items) == PayoutBooks.NetMicros(transfers)
    ensures TransferCount(items) == |transfers|
    decreases |transfers|
  {
    if transfers == [] {
      ForeignNetNothing(items);
    } else {
      var last := |transfers| - 1;
      var t := transfers[last];
      var x := Item(last, ListedTransfer(true, Some(t.payout), t.cents, t.reversed));
      var k :| 0 <= k < |items| && items[k] == x;
      WithoutLast(items, k);
      NetTaken(items, k, x);
      assert forall i: Id | i < last :: transfers[..last][i] == transfers[i];
      ShownIsNet(Without(items, k), transfers[..last]);
    }
  }

  /** GET /billing/reconcile over a period that holds everything: what it reports is the world's discrepancy. */
  method ReportDiscrepancy(w: World, clawed: set<Id>, list: Listing<ListedIntent>)
    returns (ok: bool, discrepancy: int, count: nat)
    requires ShowsIntents(list.items, w.intents)
    ensures discrepancy == Reconcile.Discrepancy(w, clawed) && count == Reconcile.SucceededCount(w.intents)
    ensures ok <==> discrepancy == 0
  {
    var collected;
    collected, count := SumCollected(list);
    ShownIsSucceeded(list.items, w.intents);
    discrepancy := Reconcile.DbTotal(w, clawed) - collected;
    ok := discrepancy == 0;
  }

  /** GET /reconcile of the payouts, likewise: the database's total less Stripe's net one. */
  method ReportPayouts(w: PayoutProtocol.World, list: Listing<ListedTransfer>)
    returns (ok: bool, discrepancy: int, count: nat)
    requires ShowsTransfers(list.items, w.transfers)
    ensures discrepancy == PayoutBooks.DbTotal(w.payouts) - PayoutBooks.NetMicros(w.transfers) && count == |w.transfers|
    ensures ok <==> discrepancy == 0
  {
    var net;
    net, count := SumTransfers(list);
    ShownIsNet(list.items, w.transfers);
    discrepancy := PayoutBooks.DbTotal(w.payouts) - net;
    ok := discrepancy == 0;
  }
}
