/**
 * The ledger invariant: what every coordinator operation keeps, and why recovery accepts every
 * file the coordinator writes.
 */
module InputInvariant {
  import opened Basics
  import opened RuntimeTypes
  import opened InputLedger

  // ---------------------------------------------------------------- the invariant

  /** Receipts: keyed by their identity, valid, in scope, bounded, and with distinct sequences. */
  ghost predicate TableOk(own: Scope, nextSequence: nat, m: map<ItemId, Receipt>) {
    && (forall k :: k in m ==> m[k].id == k && ValidReceipt(m[k]) && m[k].scope == own && m[k].sequence <= nextSequence)
    && (forall k, l :: k in m && l in m && k != l ==> m[k].sequence != m[l].sequence)
  }

  /** Items: valid, with unique identities and strictly increasing sequences. */
  ghost predicate ItemsOk(own: Scope, nextSequence: nat, items: seq<Item>) {
    && (forall i :: 0 <= i < |items| ==> Fits(own, nextSequence, items[i]))
    && (forall i, j :: 0 <= i < j < |items| ==> Precedes(items[i], items[j]))
  }

  /** A live item with a receipt is the item that was admitted, and no other receipt holds its sequence. */
  ghost predicate Agree(items: seq<Item>, m: map<ItemId, Receipt>) {
    && (forall i :: i in items && i.id in m ==> ReceiptCovers(m[i.id], i))
    && (forall i, k :: i in items && k in m && k != i.id ==> m[k].sequence != i.sequence)
  }

  ghost predicate LedgerOk(own: Scope, nextSequence: nat, items: seq<Item>, m: map<ItemId, Receipt>) {
    TableOk(own, nextSequence, m) && ItemsOk(own, nextSequence, items) && Agree(items, m)
  }

  /** A file as the coordinator writes it: receipts in sequence order, and a good ledger once read back. */
  ghost predicate DiskOk(own: Scope, e: Envelope) {
    var loaded := LoadReceipts(own, e.nextSequence, e.receipts, 0, map[]);
    && loaded.Success?
    && e.receipts == Ordered(loaded.value)
    && LedgerOk(own, e.nextSequence, e.items, loaded.value)
  }

  /** The receipts any restart from this file will hold, whatever has been delivered. */
  ghost function Promised(own: Scope, e: Envelope): (m: map<ItemId, Receipt>)
    requires DiskOk(own, e)
  {
    WithReceipts(e.items, LoadReceipts(own, e.nextSequence, e.receipts, 0, map[]).value)
  }

  /** While no recovery is deferred the file is exactly memory; while one is, memory is what a restart would rebuild. */
  ghost predicate Inv(c: Coord) {
    && LedgerOk(c.scope, c.nextSequence, c.items, c.receipts)
    && DiskOk(c.scope, c.disk)
    && (c.disk == Encode(c) ||
        (c.recoveryPending && c.revision == c.disk.revision && c.nextSequence == c.disk.nextSequence &&
         c.receipts == Promised(c.scope, c.disk)))
  }

  // ---------------------------------------------------------------- ledgers under small changes

  /** Each item is valid on its own. */
  ghost predicate Fits(own: Scope, nextSequence: nat, item: Item) {
    ValidItem(own, item) && 0 < item.sequence <= nextSequence && item.id != Id("")
  }

  /** `a` was enqueued before `b`. */
  ghost predicate Precedes(a: Item, b: Item) {
    a.sequence < b.sequence && a.id != b.id
  }

  lemma {:induction false} KeepSome(own: Scope, nextSequence: nat, items: seq<Item>, keep: Item -> bool)
    requires ItemsOk(own, nextSequence, items)
    ensures ItemsOk(own, nextSequence, Filter(items, keep))
  {
    hide Fits, Precedes;
    if items != [] {
      var first, rest := items[0], items[1..];
      KeepSome(own, nextSequence, rest, keep);
      var kept := Filter(rest, keep);
      FilterMembers(rest, keep);
      forall x | x in kept ensures Precedes(first, x) {
        var k :| 0 <= k < |rest| && rest[k] == x;
        assert Precedes(items[0], items[k + 1]);
      }
      forall i, j | 0 <= i < j < |[first] + kept| ensures Precedes(([first] + kept)[i], ([first] + kept)[j]) {
        if i == 0 { assert ([first] + kept)[j] in kept; }
      }
    }
  }

  lemma KeepLedger(own: Scope, nextSequence: nat, items: seq<Item>, m: map<ItemId, Receipt>, keep: Item -> bool)
    requires LedgerOk(own, nextSequence, items, m)
    ensures LedgerOk(own, nextSequence, Filter(items, keep), m)
  {
    FilterMembers(items, keep);
    KeepSome(own, nextSequence, items, keep);
  }

  /** The same item in another lifecycle state. */
  predicate Restated(a: Item, b: Item) {
    b == a.(state := b.state, rejection := b.rejection)
  }

  lemma RestateLedger(own: Scope, nextSequence: nat, items: seq<Item>, next: seq<Item>, m: map<ItemId, Receipt>)
    requires LedgerOk(own, nextSequence, items, m)
    requires |next| == |items|
    requires forall i :: 0 <= i < |items| ==> Restated(items[i], next[i]) && ValidItem(own, next[i])
    ensures LedgerOk(own, nextSequence, next, m)
  {
    forall b | b in next
      ensures b.id in m ==> ReceiptCovers(m[b.id], b)
      ensures forall k :: k in m && k != b.id ==> m[k].sequence != b.sequence
    {
      var i :| 0 <= i < |next| && next[i] == b;
      assert items[i] in items;
    }
  }

  lemma AddReceipt(own: Scope, nextSequence: nat, items: seq<Item>, m: map<ItemId, Receipt>, item: Item)
    requires LedgerOk(own, nextSequence, items, m)
    requires item in items && item.id !in m && ReceiptFor(item).Some?
    ensures LedgerOk(own, nextSequence, items, m[item.id := ReceiptFor(item).value])
  {
    var next := m[item.id := ReceiptFor(item).value];
    forall i | i in items && i != item ensures i.sequence != item.sequence && i.id != item.id {
      var x :| 0 <= x < |items| && items[x] == i;
      var y :| 0 <= y < |items| && items[y] == item;
      if x < y {} else {}
    }
    forall i, k | i in items && k in next && k != i.id ensures next[k].sequence != i.sequence {
      if k == item.id { assert i != item; }
    }
  }

  lemma AppendItem(own: Scope, nextSequence: nat, items: seq<Item>, m: map<ItemId, Receipt>, item: Item)
    requires LedgerOk(own, nextSequence, items, m)
    requires ValidItem(own, item) && item.sequence == nextSequence + 1 && item.id != Id("")
    requires item.id !in m && forall i :: i in items ==> i.id != item.id
    ensures LedgerOk(own, nextSequence + 1, items + [item], m)
  {
    var next := items + [item];
    forall i, j | 0 <= i < j < |next| ensures next[i].sequence < next[j].sequence && next[i].id != next[j].id {
      assert next[i] in items;
    }
    assert forall i :: i in next ==> i in items || i == item;
  }

  // ---------------------------------------------------------------- receipts survive the file

  lemma OrderedHead(m: map<ItemId, Receipt>) returns (id: ItemId)
    requires m != map[]
    ensures id in m && Ordered(m) == [m[id]] + Ordered(m - {id})
  {
    var least := LeastReceipt(m);
    id :| id in m && (forall k :: k in m ==> m[id].sequence <= m[k].sequence) && Ordered(m) == [m[id]] + Ordered(m - {id});
  }

  /** Every entry of `part` is an entry of `all`. */
  ghost predicate Part(part: map<ItemId, Receipt>, all: map<ItemId, Receipt>) {
    forall k :: k in part ==> k in all && part[k] == all[k]
  }

  lemma {:induction false} LoadRest(own: Scope, nextSequence: nat, rs: seq<Receipt>, i: nat,
                                    acc: map<ItemId, Receipt>, rest: map<ItemId, Receipt>, all: map<ItemId, Receipt>)
    requires i <= |rs| && rs[i..] == Ordered(rest)
    requires Part(acc, all) && Part(rest, all) && acc.Keys !! rest.Keys && acc.Keys + rest.Keys == all.Keys
    requires TableOk(own, nextSequence, all)
    ensures LoadReceipts(own, nextSequence, rs, i, acc) == Success(all)
    decreases |rs| - i
  {
    if rest == map[] {
      assert acc == all;
    } else {
      var id := OrderedHead(rest);
      var r := rs[i];
      assert r == rs[i..][0] == all[id];
      assert forall k :: k in acc ==> all[k].sequence != r.sequence;
      assert r.id == id && id !in acc;
      assert rs[i + 1..] == rs[i..][1..];
      LoadRest(own, nextSequence, rs, i + 1, acc[id := r], rest - {id}, all);
    }
  }

  /** Reading back what was written gives the same receipts. */
  lemma ReceiptsRoundTrip(own: Scope, nextSequence: nat, m: map<ItemId, Receipt>)
    requires TableOk(own, nextSequence, m)
    ensures LoadReceipts(own, nextSequence, Ordered(m), 0, map[]) == Success(m)
  {
    LoadRest(own, nextSequence, Ordered(m), 0, map[], m, m);
  }

  lemma EncodeIsGood(c: Coord)
    requires LedgerOk(c.scope, c.nextSequence, c.items, c.receipts)
    ensures DiskOk(c.scope, Encode(c))
  {
    ReceiptsRoundTrip(c.scope, c.nextSequence, c.receipts);
  }

  lemma CommitKeepsInv(c: Coord, items: seq<Item>, nextSequence: nat, m: map<ItemId, Receipt>)
    requires LedgerOk(c.scope, nextSequence, items, m)
    ensures Inv(Commit(c, items, nextSequence, m))
  {
    EncodeIsGood(Commit(c, items, nextSequence, m));
  }

  // ---------------------------------------------------------------- recovery

  function Reset(items: seq<Item>): (r: seq<Item>)
    ensures |r| == |items|
    ensures forall i :: 0 <= i < |items| ==> r[i] == items[i].(state := Pending)
  {
    seq(|items|, i requires 0 <= i < |items| => items[i].(state := Pending))
  }

  /** What outlives a restart: an item neither rejected nor delivered, and no stop request. */
  predicate Lives(item: Item, covered: set<ItemId>) {
    item.state != Rejected && item.id !in covered && item.kind != Stop
  }

  /** What a restart keeps: everything not rejected, delivered or a stop request, in order, back to pending. */
  function Survivors(items: seq<Item>, covered: set<ItemId>): (r: seq<Item>) {
    Reset(Filter(items, (i: Item) => Lives(i, covered)))
  }

  /** Recovery gives every receiptable item a receipt, delivered or not. */
  function WithReceipts(items: seq<Item>, m: map<ItemId, Receipt>): (r: map<ItemId, Receipt>)
    ensures m.Keys <= r.Keys && forall k :: k in m ==> r[k] == m[k]
  {
    if items == [] then m
    else
      var next := if items[0].id !in m && ReceiptFor(items[0]).Some? then m[items[0].id := ReceiptFor(items[0]).value] else m;
      WithReceipts(items[1..], next)
  }

  /** Nothing for recovery to do. */
  predicate Quiet(items: seq<Item>, m: map<ItemId, Receipt>, covered: set<ItemId>) {
    forall i :: i in items ==> i.state == Pending && Lives(i, covered) && (ReceiptFor(i).Some? ==> i.id in m)
  }

  lemma SurvivorsStep(items: seq<Item>, i: nat, covered: set<ItemId>)
    requires i < |items|
    ensures Survivors(items[i..], covered) ==
            (if !Lives(items[i], covered) then [] else [items[i].(state := Pending)]) + Survivors(items[i + 1..], covered)
  {
    hide Lives;
    assert items[i..] == [items[i]] + items[i + 1..];
    FilterCons(items[i], items[i + 1..], (x: Item) => Lives(x, covered));
  }

  /** One recovered item: it passes every check, and the ledger stays good with its receipt added. */
  lemma RecoverOneGood(own: Scope, nextSequence: nat, covered: set<ItemId>, items: seq<Item>, i: nat, r: Recovery)
    requires i < |items| && LedgerOk(own, nextSequence, items, r.receipts)
    ensures var adds := items[i].id !in r.receipts && ReceiptFor(items[i]).Some?;
            var receipts := if adds then r.receipts[items[i].id := ReceiptFor(items[i]).value] else r.receipts;
            && LedgerOk(own, nextSequence, items, receipts)
            && RecoverOne(own, covered, r, items[i]) == Success(Recovery(
                 r.items + (if !Lives(items[i], covered) then [] else [items[i].(state := Pending)]),
                 receipts,
                 r.changed || !Lives(items[i], covered) || adds || items[i].state == Processing))
  {
    assert items[i] in items;
    if items[i].id !in r.receipts && ReceiptFor(items[i]).Some? { AddReceipt(own, nextSequence, items, r.receipts, items[i]); }
    assert r.items + [] == r.items;
  }

  lemma NothingLeft(m: map<ItemId, Receipt>, covered: set<ItemId>)
    ensures Survivors([], covered) == [] && WithReceipts([], m) == m && Quiet([], m, covered)
  {
  }

  lemma WithReceiptsStep(items: seq<Item>, i: nat, m: map<ItemId, Receipt>)
    requires i < |items|
    ensures WithReceipts(items[i..], m) ==
            WithReceipts(items[i + 1..], if items[i].id !in m && ReceiptFor(items[i]).Some? then m[items[i].id := ReceiptFor(items[i]).value] else m)
  {
    assert items[i..][1..] == items[i + 1..];
  }

  lemma {:induction false} RecoverRest(own: Scope, nextSequence: nat, covered: set<ItemId>, items: seq<Item>, i: nat, r: Recovery)
    requires i <= |items| && LedgerOk(own, nextSequence, items, r.receipts)
    ensures var out := RecoverFrom(own, covered, items, i, r);
            && out.Success?
            && out.value.items == r.items + Survivors(items[i..], covered)
            && out.value.receipts == WithReceipts(items[i..], r.receipts)
            && LedgerOk(own, nextSequence, items, out.value.receipts)
            && (out.value.changed <==> r.changed || !Quiet(items[i..], r.receipts, covered))
    decreases |items| - i
  {
    hide LedgerOk, Quiet, Survivors, WithReceipts, RecoverOne, ReceiptFor, Lives;
    if i == |items| {
      assert items[i..] == [];
      NothingLeft(r.receipts, covered);
      assert r.items + [] == r.items;
    } else {
      RecoverOneGood(own, nextSequence, covered, items, i, r);
      var next := RecoverOne(own, covered, r, items[i]).value;
      RecoverRest(own, nextSequence, covered, items, i + 1, next);
      SurvivorsStep(items, i, covered);
      var here, rest := if !Lives(items[i], covered) then [] else [items[i].(state := Pending)], Survivors(items[i + 1..], covered);
      assert (r.items + here) + rest == r.items + (here + rest);
      WithReceiptsStep(items, i, r.receipts);
      QuietRest(own, nextSequence, items, i, r.receipts, next.receipts, covered);
    }
  }

  lemma QuietRest(own: Scope, nextSequence: nat, items: seq<Item>, i: nat, m: map<ItemId, Receipt>, next: map<ItemId, Receipt>, covered: set<ItemId>)
    requires i < |items| && LedgerOk(own, nextSequence, items, m)
    requires next == if items[i].id !in m && ReceiptFor(items[i]).Some? then m[items[i].id := ReceiptFor(items[i]).value] else m
    ensures !Quiet(items[i..], m, covered) <==>
            || !Lives(items[i], covered) || (items[i].id !in m && ReceiptFor(items[i]).Some?) || items[i].state == Processing
            || !Quiet(items[i + 1..], next, covered)
  {
    hide ReceiptFor, Fits;
    assert items[i..] == [items[i]] + items[i + 1..];
    assert forall x :: x in items[i..] <==> x == items[i] || x in items[i + 1..];
    assert items[i] in items[i..];
    forall x | x in items[i + 1..] ensures x.id in next <==> x.id in m {
      var k :| 0 <= k < |items[i + 1..]| && items[i + 1..][k] == x;
      assert Precedes(items[i], items[i + 1 + k]);
    }
  }

  /** Recovery of a good file succeeds and keeps exactly the survivors. */
  lemma RecoveredExact(own: Scope, e: Envelope, covered: set<ItemId>)
    requires DiskOk(own, e)
    ensures var out := Recovered(own, e, covered);
            && out.Success?
            && out.value.items == Survivors(e.items, covered)
            && out.value.receipts == Promised(own, e)
            && LedgerOk(own, e.nextSequence, out.value.items, out.value.receipts)
            && (out.value.changed <==> !Quiet(e.items, LoadReceipts(own, e.nextSequence, e.receipts, 0, map[]).value, covered))
  {
    var m := LoadReceipts(own, e.nextSequence, e.receipts, 0, map[]).value;
    RecoverRest(own, e.nextSequence, covered, e.items, 0, Recovery([], m, false));
    assert e.items[0..] == e.items;
    var receipts := WithReceipts(e.items, m);
    var kept := Filter(e.items, (i: Item) => Lives(i, covered));
    KeepLedger(own, e.nextSequence, e.items, receipts, (i: Item) => Lives(i, covered));
    FilterMembers(e.items, (i: Item) => Lives(i, covered));
    forall i | 0 <= i < |kept| ensures ValidItem(own, Reset(kept)[i]) && Restated(kept[i], Reset(kept)[i]) {
      assert kept[i] in kept;
      assert Fits(own, e.nextSequence, kept[i]);
    }
    RestateLedger(own, e.nextSequence, kept, Reset(kept), receipts);
  }
}
