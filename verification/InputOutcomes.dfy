/** What the coordinator's calls answer and leave, told on the fields of the items: recovery, order, claims, admission. */
module InputOutcomes {
  import opened Basics
  import opened RuntimeTypes
  import opened InputLedger
  import opened InputInvariant
  import opened InputRuns
  import Q = InputSchedule
  import W = InputLaws

  // ---------------------------------------------------------------- recovery

  /** A stored item that a restart must bring back. */
  predicate Owed(i: Item, delivered: set<ItemId>) {
    i.state != Rejected && i.id !in delivered && i.kind != Stop
  }

  predicate Ascending(items: seq<Item>) {
    forall a, b :: 0 <= a < b < |items| ==> items[a].sequence < items[b].sequence
  }

  lemma SurvivorsAre(items: seq<Item>, covered: set<ItemId>)
    ensures forall x :: x in Survivors(items, covered) <==> exists i :: i in items && Lives(i, covered) && x == i.(state := Pending)
  {
    hide Lives;
    var keep := (i: Item) => Lives(i, covered);
    var kept := Filter(items, keep);
    FilterMembers(items, keep);
    forall x ensures x in Survivors(items, covered) <==> exists i :: i in items && Lives(i, covered) && x == i.(state := Pending) {
      if x in Survivors(items, covered) {
        var k :| 0 <= k < |kept| && Reset(kept)[k] == x;
        assert kept[k] in kept;
      }
      if exists i :: i in items && Lives(i, covered) && x == i.(state := Pending) {
        var i :| i in items && Lives(i, covered) && x == i.(state := Pending);
        var k :| 0 <= k < |kept| && kept[k] == i;
        assert Reset(kept)[k] == x;
      }
    }
  }

  lemma LedgerAscends(own: Scope, nextSequence: nat, items: seq<Item>)
    requires ItemsOk(own, nextSequence, items)
    ensures Ascending(items)
  {
    hide Fits;
    forall a, b | 0 <= a < b < |items| ensures items[a].sequence < items[b].sequence { assert Precedes(items[a], items[b]); }
  }

  /**
   * After any run, with a recovery outstanding or not, a successful restart brings back every stored item that is not rejected,
   * not delivered and not a stop request, as itself and pending; no other item; in the stored order, which is by sequence.
   */
  lemma RecoveryExact(own: Scope, ops: seq<Op>, known: set<ItemId>, found: set<ItemId>, deferred: bool, ok: bool)
    requires AllowedRun(Init(own), ops) && Recover(own, Run(Init(own), ops).disk, known, found, deferred, ok).Success?
    ensures var stored := Run(Init(own), ops).disk.items;
      var back := Recover(own, Run(Init(own), ops).disk, known, found, deferred, ok).value.items;
      && (forall i :: i in stored && Owed(i, known + found) ==> i.(state := Pending) in back)
      && (forall x :: x in back ==> exists i :: i in stored && Owed(i, known + found) && x == i.(state := Pending))
      && Ascending(stored) && Ascending(back)
  {
    hide Run, AllowedRun, Recover, Survivors, Fits, TableOk, Agree;
    InitGood(own);
    RunKeeps(Init(own), ops);
    var e := Run(Init(own), ops).disk;
    RecoverKeeps(own, e, known, found, deferred, ok);
    DeliveredIs(own, e, known, found, deferred, ok);
    var c := Recover(own, e, known, found, deferred, ok).value;
    SurvivorsAre(e.items, Ids(e.items) * c.delivered);
    LedgerAscends(own, e.nextSequence, e.items);
    LedgerAscends(own, c.nextSequence, c.items);
    forall i | i in e.items ensures Lives(i, Ids(e.items) * c.delivered) <==> Owed(i, known + found) { assert i.id in Ids(e.items); }
  }

  lemma DeliveredIs(own: Scope, e: Envelope, known: set<ItemId>, found: set<ItemId>, deferred: bool, ok: bool)
    requires Recover(own, e, known, found, deferred, ok).Success?
    ensures Recover(own, e, known, found, deferred, ok).value.delivered == known + found * (Ids(e.items) - known)
  {
    hide Recovered, Encode;
  }

  /** What a restart has to write: an item to drop or reset, or a text prompt without its receipt. */
  predicate Unsettling(i: Item, receipts: map<ItemId, Receipt>, delivered: set<ItemId>) {
    i.state != Pending || i.id in delivered || i.kind == Stop || (Receiptable(i) && i.id !in receipts)
  }

  /** A dated text prompt, which a receipt can answer for. */
  predicate Receiptable(i: Item) {
    i.kind == UserPrompt && i.payload.Text? && i.enqueuedAt > 0
  }

  lemma ReceiptableIs(own: Scope, nextSequence: nat, i: Item)
    requires Fits(own, nextSequence, i)
    ensures ReceiptFor(i).Some? <==> Receiptable(i)
    ensures Receiptable(i) ==> ReceiptFor(i).value.sequence == i.sequence && ReceiptFor(i).value.enqueuedAt == i.enqueuedAt
  {}

  /** With no recovery outstanding a restart fails exactly when there is something to write now and the write fails. */
  lemma RecoveryFailsExact(own: Scope, ops: seq<Op>, known: set<ItemId>, found: set<ItemId>, deferred: bool, ok: bool)
    requires AllowedRun(Init(own), ops) && !Run(Init(own), ops).recoveryPending
    ensures var c := Run(Init(own), ops);
      && c.disk.items == c.items
      && (Recover(own, c.disk, known, found, deferred, ok).Failure? <==>
            !deferred && !ok && exists i :: i in c.items && Unsettling(i, c.receipts, known + found))
  {
    hide Run, AllowedRun, Recover, Survivors, Fits, TableOk, Agree, ReceiptFor, Receiptable, Ordered;
    InitGood(own);
    RunKeeps(Init(own), ops);
    CrashRefinement(own, ops, known, found, deferred, ok);
    var c := Run(Init(own), ops);
    forall i | i in c.items
      ensures Unsettling(i, c.receipts, known + found) <==>
        !(i.state == Pending && Lives(i, Ids(c.items) * (known + found)) && (ReceiptFor(i).Some? ==> i.id in c.receipts))
    {
      assert i.id in Ids(c.items);
      var k :| 0 <= k < |c.items| && c.items[k] == i;
      ReceiptableIs(own, c.nextSequence, i);
    }
  }

  /** A restart keeps every receipt and gives every dated text prompt in the file one with its own sequence and time. */
  lemma RecoveredReceipts(own: Scope, ops: seq<Op>, known: set<ItemId>, found: set<ItemId>, deferred: bool, ok: bool)
    requires AllowedRun(Init(own), ops) && Recover(own, Run(Init(own), ops).disk, known, found, deferred, ok).Success?
    ensures var c := Run(Init(own), ops);
      var back := Recover(own, c.disk, known, found, deferred, ok).value.receipts;
      && (forall k :: k in c.receipts ==> k in back && back[k] == c.receipts[k])
      && (forall i :: i in c.disk.items && Receiptable(i) ==>
            i.id in back && back[i.id].sequence == i.sequence && back[i.id].enqueuedAt == i.enqueuedAt)
  {
    hide Run, AllowedRun, Recover, Survivors, Fits, ReceiptFor, Receiptable, Ordered, LoadReceipts, WithReceipts;
    InitGood(own);
    RunKeeps(Init(own), ops);
    var c := Run(Init(own), ops);
    RecoverKeeps(own, c.disk, known, found, deferred, ok);
    PromisedGrows(c);
    PromisedOk(own, c.disk);
    forall i | i in c.disk.items && Receiptable(i)
      ensures i.id in Promised(own, c.disk) && Promised(own, c.disk)[i.id].sequence == i.sequence && Promised(own, c.disk)[i.id].enqueuedAt == i.enqueuedAt
    {
      var k :| 0 <= k < |c.disk.items| && c.disk.items[k] == i;
      ReceiptableIs(own, c.disk.nextSequence, i);
      ReceiptAdded(c.disk.items, LoadReceipts(own, c.disk.nextSequence, c.disk.receipts, 0, map[]).value, i);
    }
  }

  lemma PromisedOk(own: Scope, e: Envelope)
    requires DiskOk(own, e)
    ensures LedgerOk(own, e.nextSequence, e.items, Promised(own, e))
  {
    hide Survivors, LoadReceipts, Ordered, LedgerOk;
    var m := LoadReceipts(own, e.nextSequence, e.receipts, 0, map[]).value;
    RecoverRest(own, e.nextSequence, {}, e.items, 0, Recovery([], m, false));
    assert e.items[0..] == e.items;
  }

  // ---------------------------------------------------------------- which files are accepted

  /** A receipt this coordinator may have written. */
  predicate Credible(own: Scope, nextSequence: nat, r: Receipt) {
    r.id != Id("") && r.kind == UserPrompt && r.scope == own && own.sessionId != "" && 0 < r.sequence <= nextSequence && r.enqueuedAt > 0
  }

  /** Receipts with distinct identities and sequences, and credible ones. */
  predicate Orderly(own: Scope, nextSequence: nat, rs: seq<Receipt>) {
    && (forall i :: 0 <= i < |rs| ==> Credible(own, nextSequence, rs[i]))
    && (forall i, j :: 0 <= i < j < |rs| ==> rs[i].id != rs[j].id && rs[i].sequence != rs[j].sequence)
  }

  /** The table of the first `n` receipts. */
  predicate TableOf(rs: seq<Receipt>, n: nat, m: map<ItemId, Receipt>)
    requires n <= |rs|
  {
    && (forall i :: 0 <= i < n ==> rs[i].id in m && m[rs[i].id] == rs[i])
    && (forall k :: k in m ==> exists i :: 0 <= i < n && m[k] == rs[i] && rs[i].id == k)
  }

  lemma {:induction false} ReceiptsExact(own: Scope, nextSequence: nat, rs: seq<Receipt>, n: nat, acc: map<ItemId, Receipt>)
    requires n <= |rs| && Orderly(own, nextSequence, rs[..n]) && TableOf(rs, n, acc)
    ensures var r := LoadReceipts(own, nextSequence, rs, n, acc);
      && (r.Success? <==> Orderly(own, nextSequence, rs))
      && (r.Success? ==> TableOf(rs, |rs|, r.value))
    decreases |rs| - n
  {
    hide Credible, ValidReceipt, Orderly, TableOf;
    if n == |rs| {
      assert rs[..n] == rs;
    } else {
      CredibleIs(own, nextSequence, rs[n]);
      ReceiptFits(own, nextSequence, rs, n, acc);
      if Orderly(own, nextSequence, rs[..n + 1]) {
        TableMore(rs, n, acc);
        ReceiptsExact(own, nextSequence, rs, n + 1, acc[rs[n].id := rs[n]]);
      } else {
        PrefixOrderly(own, nextSequence, rs, n + 1);
      }
    }
  }

  lemma CredibleIs(own: Scope, nextSequence: nat, r: Receipt)
    ensures ValidReceipt(r) && r.scope == own && r.sequence <= nextSequence <==> Credible(own, nextSequence, r)
  {}

  lemma PrefixOrderly(own: Scope, nextSequence: nat, rs: seq<Receipt>, n: nat)
    requires n <= |rs| && !Orderly(own, nextSequence, rs[..n])
    ensures !Orderly(own, nextSequence, rs)
  {
    hide Credible;
    if Orderly(own, nextSequence, rs) {
      assert forall i :: 0 <= i < n ==> rs[..n][i] == rs[i];
    }
  }

  /** The tests of one receipt are exactly what keeps the receipts so far in order. */
  lemma ReceiptFits(own: Scope, nextSequence: nat, rs: seq<Receipt>, n: nat, acc: map<ItemId, Receipt>)
    requires n < |rs| && Orderly(own, nextSequence, rs[..n]) && TableOf(rs, n, acc)
    ensures Orderly(own, nextSequence, rs[..n + 1]) <==>
      Credible(own, nextSequence, rs[n]) && !((exists k :: k in acc && acc[k].sequence == rs[n].sequence) || rs[n].id in acc)
  {
    hide Credible;
    var next, x := rs[..n + 1], rs[n];
    assert next == rs[..n] + [x];
    if k :| k in acc && (acc[k].sequence == x.sequence || k == x.id) {
      var i :| 0 <= i < n && acc[k] == rs[i] && rs[i].id == k;
      assert next[i] == rs[i] && next[n] == x;
    } else {
      forall i | 0 <= i < n ensures rs[i].id != x.id && rs[i].sequence != x.sequence { assert rs[i].id in acc; }
      assert next[n] == x;
    }
  }

  lemma TableMore(rs: seq<Receipt>, n: nat, m: map<ItemId, Receipt>)
    requires n < |rs| && TableOf(rs, n, m) && rs[n].id !in m
    ensures TableOf(rs, n + 1, m[rs[n].id := rs[n]])
  {
    var next := m[rs[n].id := rs[n]];
    forall k | k in next ensures exists i :: 0 <= i < n + 1 && next[k] == rs[i] && rs[i].id == k {
      if k == rs[n].id { assert next[k] == rs[n]; } else { var i :| 0 <= i < n && m[k] == rs[i] && rs[i].id == k; }
    }
  }

  /** An item agrees with a receipt of its identity: same kind, scope and text, same sequence and time. */
  predicate AgreesWith(item: Item, r: Receipt) {
    r.kind == item.kind && r.scope == item.scope && DigestOf(item) == Some(r.digest) && r.sequence == item.sequence && r.enqueuedAt == item.enqueuedAt
  }

  lemma {:induction false} ItemsAccepted(own: Scope, covered: set<ItemId>, items: seq<Item>, n: nat, r: Recovery, m: map<ItemId, Receipt>)
    requires n <= |items| && (forall i, j :: 0 <= i < j < |items| ==> items[i].id != items[j].id)
    requires forall k :: k in m ==> m[k].id == k && ValidReceipt(m[k])
    requires forall i :: n <= i < |items| ==> (items[i].id in r.receipts <==> items[i].id in m) && (items[i].id in m ==> r.receipts[items[i].id] == m[items[i].id])
    ensures RecoverFrom(own, covered, items, n, r).Success? <==>
      forall i :: n <= i < |items| ==> ValidItem(own, items[i]) && (items[i].id in m ==> AgreesWith(items[i], m[items[i].id]))
    decreases |items| - n
  {
    hide ValidItem, DigestOf, ValidReceipt;
    if n < |items| {
      var next := RecoverOne(own, covered, r, items[n]);
      if next.Success? { ItemsAccepted(own, covered, items, n + 1, next.value, m); }
    }
  }

  /** A file is accepted exactly when its receipts are in order and each item is valid and agrees with its receipt, if it has one. */
  lemma FileExact(own: Scope, e: Envelope, covered: set<ItemId>)
    requires forall i, j :: 0 <= i < j < |e.items| ==> e.items[i].id != e.items[j].id
    ensures Recovered(own, e, covered).Success? <==>
      && Orderly(own, e.nextSequence, e.receipts)
      && forall i :: 0 <= i < |e.items| ==>
           ValidItem(own, e.items[i]) && forall k :: 0 <= k < |e.receipts| && e.receipts[k].id == e.items[i].id ==> AgreesWith(e.items[i], e.receipts[k])
  {
    hide LoadReceipts, RecoverFrom, ValidItem, AgreesWith;
    ReceiptsExact(own, e.nextSequence, e.receipts, 0, map[]);
    var loaded := LoadReceipts(own, e.nextSequence, e.receipts, 0, map[]);
    if loaded.Success? {
      var m := loaded.value;
      forall k | k in m ensures m[k].id == k && ValidReceipt(m[k]) {
        var i :| 0 <= i < |e.receipts| && m[k] == e.receipts[i] && e.receipts[i].id == k;
        assert Credible(own, e.nextSequence, e.receipts[i]);
      }
      ItemsAccepted(own, covered, e.items, 0, Recovery([], m, false), m);
      forall i | 0 <= i < |e.items|
        ensures (e.items[i].id in m ==> AgreesWith(e.items[i], m[e.items[i].id])) <==>
          (forall k :: 0 <= k < |e.receipts| && e.receipts[k].id == e.items[i].id ==> AgreesWith(e.items[i], e.receipts[k]))
      {
        if e.items[i].id in m { var k :| 0 <= k < |e.receipts| && m[e.items[i].id] == e.receipts[k] && e.receipts[k].id == e.items[i].id; }
      }
    }
  }

  // ---------------------------------------------------------------- order

  /** Now before Next before Later, and within one priority the earlier sequence. */
  predicate MoreUrgent(a: Item, b: Item) {
    || (a.priority == Now && (b.priority == Next || b.priority == Later))
    || (a.priority == Next && b.priority == Later)
    || (a.priority == b.priority && a.sequence < b.sequence)
  }

  predicate Scheduled(s: seq<Item>) {
    forall i, j :: 0 <= i < j < |s| ==> MoreUrgent(s[i], s[j])
  }

  predicate Apart(s: seq<Item>) {
    forall i, j :: 0 <= i < j < |s| ==> s[i].sequence != s[j].sequence
  }

  predicate Ranked(i: Item) {
    i.priority == Now || i.priority == Next || i.priority == Later
  }

  lemma {:induction false} InsertApart(x: Item, s: seq<Item>)
    requires Apart(s) && forall y :: y in s ==> y.sequence != x.sequence
    ensures Apart(Insert(x, s))
  {
    hide Before;
    if s != [] && Before(s[0], x) {
      var rest := Insert(x, s[1..]);
      InsertApart(x, s[1..]);
      InsertMembers(x, s[1..]);
      forall j | 0 <= j < |rest| ensures rest[j].sequence != s[0].sequence {
        assert rest[j] in rest;
        if rest[j] != x { var k :| 0 <= k < |s[1..]| && s[1..][k] == rest[j]; assert s[k + 1] == rest[j]; } else { assert s[0] in s; }
      }
    } else {
      forall j | 0 <= j < |s| ensures s[j].sequence != x.sequence { assert s[j] in s; }
    }
  }

  lemma {:induction false} SortedApart(s: seq<Item>)
    requires Apart(s)
    ensures Apart(Sorted(s))
  {
    if s != [] {
      SortedApart(s[1..]);
      Q.SortedMembers(s[1..]);
      forall y | y in Sorted(s[1..]) ensures y.sequence != s[0].sequence {
        var k :| 0 <= k < |s[1..]| && s[1..][k] == y;
        assert s[k + 1] == y;
      }
      InsertApart(s[0], Sorted(s[1..]));
    }
  }

  lemma OrderIs(s: seq<Item>)
    requires InOrder(s) && Apart(s) && forall i :: i in s ==> Ranked(i)
    ensures Scheduled(s)
  {
    forall i, j | 0 <= i < j < |s| ensures MoreUrgent(s[i], s[j]) {
      assert s[i] in s && s[j] in s;
      assert !Before(s[j], s[i]);
    }
  }

  /** Sorting some items of a ledger puts them in order. */
  lemma SortedSome(own: Scope, nextSequence: nat, items: seq<Item>, pick: Item -> bool)
    requires ItemsOk(own, nextSequence, items)
    ensures Scheduled(Sorted(Filter(items, pick)))
    ensures forall x :: x in Sorted(Filter(items, pick)) <==> x in items && pick(x)
  {
    hide Sorted, Filter, InOrder;
    var some := Filter(items, pick);
    KeepSome(own, nextSequence, items, pick);
    FilterMembers(items, pick);
    SortedInOrder(some);
    Q.SortedMembers(some);
    forall i, j | 0 <= i < j < |some| ensures some[i].sequence != some[j].sequence { assert Precedes(some[i], some[j]); }
    SortedApart(some);
    forall i | i in Sorted(some) ensures Ranked(i) { var k :| 0 <= k < |items| && items[k] == i; assert Fits(own, nextSequence, items[k]); }
    OrderIs(Sorted(some));
  }

  /** The caller's scope, where it says something, is the coordinator's own. */
  predicate Addressed(own: Scope, scope: Scope) {
    && (scope.sessionId == "" || scope.sessionId == own.sessionId)
    && (scope.threadId == "" || scope.threadId == own.threadId)
    && (scope.agentId == "" || scope.agentId == own.agentId)
  }

  /** Pending, and asked for by this scope. */
  predicate Waiting(c: Coord, i: Item, scope: Scope) {
    i.state == Pending && Addressed(c.scope, scope)
  }

  lemma InScopeIs(c: Coord, i: Item, scope: Scope)
    requires ItemsOk(c.scope, c.nextSequence, c.items) && i in c.items
    ensures InScope(c, i, scope) <==> Waiting(c, i, scope)
  {
    var k :| 0 <= k < |c.items| && c.items[k] == i;
    assert Fits(c.scope, c.nextSequence, c.items[k]);
  }

  lemma RunItems(own: Scope, ops: seq<Op>)
    requires AllowedRun(Init(own), ops)
    ensures var c := Run(Init(own), ops); c.scope == own && ItemsOk(own, c.nextSequence, c.items)
  {
    hide Run, AllowedRun, ItemsOk, TableOk, Agree, DiskOk, Encode;
    InitGood(own);
    RunKeeps(Init(own), ops);
  }

  /** A snapshot is exactly the waiting items: Now before Next before Later, and by sequence within each. */
  lemma SnapshotExact(own: Scope, ops: seq<Op>, scope: Scope)
    requires AllowedRun(Init(own), ops)
    ensures var c := Run(Init(own), ops);
      && Scheduled(Snapshot(c, scope))
      && forall x :: x in Snapshot(c, scope) <==> x in c.items && Waiting(c, x, scope)
  {
    hide Run, AllowedRun, Sorted, Filter, ItemsOk, InScope, Waiting;
    RunItems(own, ops);
    var c := Run(Init(own), ops);
    SortedSome(own, c.nextSequence, c.items, ScopePick(c, scope));
    forall x | x in c.items ensures InScope(c, x, scope) <==> Waiting(c, x, scope) { InScopeIs(c, x, scope); }
  }

  /** What a safe point may take: not stops and continuations, prompts only as delivered now, Later only when allowed. */
  predicate Takeable(i: Item, includeUser: bool, allowLater: bool) {
    && i.kind != Stop && i.kind != GoalContinuation
    && !(i.kind == UserPrompt && i.delivery == NextTurn)
    && (i.kind == UserPrompt && i.delivery != Steer ==> includeUser)
    && (i.priority == Later ==> allowLater)
  }

  /** A safe-point claim takes exactly the takeable waiting items, answers them in order, and marks no other. */
  lemma SafePointExact(own: Scope, ops: seq<Op>, scope: Scope, includeUser: bool, allowLater: bool, ok: bool)
    requires AllowedRun(Init(own), ops)
    ensures var c := Run(Init(own), ops);
      var (n, r) := ClaimSafePoint(c, scope, includeUser, allowLater, ok);
      && (r.Failure? <==> !ok && exists i :: i in c.items && Waiting(c, i, scope) && Takeable(i, includeUser, allowLater))
      && (r.Failure? ==> n == c)
      && (r.Success? ==>
            && Scheduled(r.value)
            && (forall i :: i in c.items && Waiting(c, i, scope) && Takeable(i, includeUser, allowLater) ==> i.(state := Processing) in r.value)
            && (forall x :: x in r.value ==>
                  exists i :: i in c.items && Waiting(c, i, scope) && Takeable(i, includeUser, allowLater) && x == i.(state := Processing))
            && |n.items| == |c.items|
            && forall k :: 0 <= k < |c.items| ==>
                 n.items[k] == if Waiting(c, c.items[k], scope) && Takeable(c.items[k], includeUser, allowLater) then c.items[k].(state := Processing)
                               else c.items[k])
  {
    hide Run, AllowedRun, Sorted, Filter, ItemsOk, InScope, Waiting, Takeable, SafePointEligible, Encode, Scheduled;
    RunItems(own, ops);
    var c := Run(Init(own), ops);
    var pick := SafePick(c, scope, includeUser, allowLater);
    SortedSome(own, c.nextSequence, c.items, pick);
    FilterMembers(c.items, pick);
    forall i | i in c.items ensures pick(i) <==> Waiting(c, i, scope) && Takeable(i, includeUser, allowLater) { SafePickIs(c, i, scope, includeUser, allowLater); }
    var chosen := Filter(c.items, pick);
    MarkedOrder(Sorted(chosen));
    if chosen != [] { assert chosen[0] in chosen; }
    forall k | 0 <= k < |c.items| ensures pick(c.items[k]) <==> Waiting(c, c.items[k], scope) && Takeable(c.items[k], includeUser, allowLater) { assert c.items[k] in c.items; }
  }

  lemma SafePickIs(c: Coord, i: Item, scope: Scope, includeUser: bool, allowLater: bool)
    requires ItemsOk(c.scope, c.nextSequence, c.items) && i in c.items
    ensures SafePick(c, scope, includeUser, allowLater)(i) <==> Waiting(c, i, scope) && Takeable(i, includeUser, allowLater)
  {
    hide Waiting, InScope, ItemsOk;
    InScopeIs(c, i, scope);
  }

  lemma MarkedOrder(s: seq<Item>)
    requires Scheduled(s)
    ensures Scheduled(Marked(s)) && forall x :: x in Marked(s) ==> exists i :: i in s && x == Claimed(i)
    ensures forall x :: x in s ==> Claimed(x) in Marked(s)
  {
    forall x | x in s ensures Claimed(x) in Marked(s) { var k :| 0 <= k < |s| && s[k] == x; assert Marked(s)[k] == Claimed(x); }
    forall x | x in Marked(s) ensures exists i :: i in s && x == Claimed(i) {
      var k :| 0 <= k < |s| && Marked(s)[k] == x;
      assert s[k] in s && x == Claimed(s[k]);
    }
  }

  /** What an idle claim may take. */
  predicate Idle(i: Item) {
    i.kind != Stop && i.kind != GoalContinuation
  }

  /** An idle claim takes the most urgent waiting item that is neither a stop nor a continuation, and only it. */
  lemma IdleExact(own: Scope, ops: seq<Op>, scope: Scope, ok: bool)
    requires AllowedRun(Init(own), ops)
    ensures var c := Run(Init(own), ops);
      var (n, r) := ClaimNextIdle(c, scope, ok);
      && (r == Success(None) <==> forall i :: i in c.items ==> !(Waiting(c, i, scope) && Idle(i)))
      && (r.Failure? ==> !ok)
      && (r.Failure? || r == Success(None) ==> n == c)
      && (r.Success? && r.value.Some? ==>
            exists k :: 0 <= k < |c.items| && r.value.value == c.items[k].(state := Processing)
              && n.items == c.items[k := c.items[k].(state := Processing)] && Foremost(c, k, scope))
  {
    RunItems(own, ops);
    var c := Run(Init(own), ops);
    var pick := IdlePick(c, scope);
    hide Run, AllowedRun;
    forall i | i in c.items ensures pick(i) <==> Waiting(c, i, scope) && Idle(i) { InScopeIs(c, i, scope); }
    LedgerAscends(own, c.nextSequence, c.items);
    var k := BestIndex(c.items, pick, |c.items|);
    forall j | 0 <= j < |c.items| ensures Ranked(c.items[j]) && (pick(c.items[j]) <==> Waiting(c, c.items[j], scope) && Idle(c.items[j])) {
      assert Fits(own, c.nextSequence, c.items[j]);
      assert c.items[j] in c.items;
    }
    if k < |c.items| {
      forall j | 0 <= j < |c.items| && j != k && pick(c.items[j]) ensures MoreUrgent(c.items[k], c.items[j]) {
        assert !Before(c.items[j], c.items[k]);
      }
      assert Foremost(c, k, scope);
    }
  }

  /** The item at `k` waits, and is more urgent than any other that does. */
  predicate Foremost(c: Coord, k: nat, scope: Scope)
    requires k < |c.items|
  {
    && Waiting(c, c.items[k], scope) && Idle(c.items[k])
    && forall j :: 0 <= j < |c.items| && j != k && Waiting(c, c.items[j], scope) && Idle(c.items[j]) ==> MoreUrgent(c.items[k], c.items[j])
  }

  // ---------------------------------------------------------------- claims by kind and identity

  /** A stop claim takes the waiting stop request with the lowest sequence, and only it. */
  lemma StopExact(own: Scope, ops: seq<Op>, scope: Scope, ok: bool)
    requires AllowedRun(Init(own), ops)
    ensures var c := Run(Init(own), ops);
      var (n, r) := ClaimStop(c, scope, ok);
      && (r == Success(None) <==> forall i :: i in c.items ==> !(Waiting(c, i, scope) && i.kind == Stop))
      && (r.Failure? ==> !ok)
      && (r.Failure? || r == Success(None) ==> n == c)
      && (r.Success? && r.value.Some? ==>
            exists k :: 0 <= k < |c.items| && r.value.value == c.items[k].(state := Processing)
              && n.items == c.items[k := c.items[k].(state := Processing)] && Waiting(c, c.items[k], scope) && c.items[k].kind == Stop
              && forall j :: 0 <= j < k ==> !(Waiting(c, c.items[j], scope) && c.items[j].kind == Stop))
  {
    hide Run, AllowedRun, ItemsOk, InScope, Waiting, Encode;
    RunItems(own, ops);
    var c := Run(Init(own), ops);
    var pick := StopPick(c, scope);
    LedgerAscends(own, c.nextSequence, c.items);
    forall j | 0 <= j < |c.items| ensures pick(c.items[j]) <==> Waiting(c, c.items[j], scope) && c.items[j].kind == Stop { InScopeIs(c, c.items[j], scope); }
  }

  /** The item at `k` in another state, and every other as it was. */
  ghost predicate Restates(c: Coord, n: Coord, k: nat, item: Item)
    requires k < |c.items|
  {
    n == c.(items := c.items[k := item], revision := c.revision + 1, disk := n.disk)
  }

  /** A claim by identity takes exactly the pending item with it, if there is one. */
  lemma ByIdExact(c: Coord, k: nat, ok: bool)
    requires ItemsOk(c.scope, c.nextSequence, c.items) && k < |c.items|
    ensures var id, item := c.items[k].id, c.items[k].(state := Processing);
      var (n, r) := ClaimById(c, id, ok);
      if c.items[k].state != Pending then r == Success(None) && n == c
      else if ok then r == Success(Some(item)) && Restates(c, n, k, item)
      else r.Failure? && n == c
  {
    hide Encode, Fits, FirstIndex;
    var at := FirstIndex(c.items, IdPick(c.items[k].id, Pending), 0);
    if at < |c.items| { OnePlace(c, at, k); }
  }

  lemma OnePlace(c: Coord, a: nat, b: nat)
    requires ItemsOk(c.scope, c.nextSequence, c.items) && a < |c.items| && b < |c.items| && c.items[a].id == c.items[b].id
    ensures a == b
  {
    hide Fits;
    assert a < b ==> Precedes(c.items[a], c.items[b]);
    assert b < a ==> Precedes(c.items[b], c.items[a]);
  }

  /** A release puts exactly the processing item with the identity back to pending. */
  lemma ReleaseExact(c: Coord, k: nat, ok: bool)
    requires ItemsOk(c.scope, c.nextSequence, c.items) && k < |c.items|
    ensures var item := c.items[k].(state := Pending);
      var (n, r) := Release(c, c.items[k].id, ok);
      if c.items[k].state != Processing then r == Success(false) && n == c
      else if ok then r == Success(true) && Restates(c, n, k, item)
      else r.Failure? && n == c
  {
    hide Encode, Fits, FirstIndex;
    var at := FirstIndex(c.items, IdPick(c.items[k].id, Processing), 0);
    if at < |c.items| { OnePlace(c, at, k); }
  }

  /** A continuation is rejected once, with the code and the time given, or now; the second time changes nothing. */
  lemma RejectExact(c: Coord, k: nat, code: string, at: nat, now: nat, ok: bool)
    requires ItemsOk(c.scope, c.nextSequence, c.items) && k < |c.items| && c.items[k].kind == GoalContinuation && code != ""
    ensures var item := c.items[k].(state := Rejected, rejection := Some(Rejection(code, if at == 0 then now else at)));
      var (n, r) := RejectContinuation(c, c.items[k].id, code, at, now, ok);
      if c.items[k].state == Rejected then r == Success(false) && n == c
      else if ok then r == Success(true) && Restates(c, n, k, item)
      else r.Failure? && n == c
  {
    hide Encode, FirstIndex, Precedes;
    assert Fits(c.scope, c.nextSequence, c.items[k]);
    var first := FirstIndex(c.items, ContinuationPick(c.items[k].id), 0);
    if first < |c.items| { OnePlace(c, first, k); }
  }

  /** A person's prompt or steering is pending. */
  predicate Typed(c: Coord) {
    exists i :: i in c.items && i.state == Pending && (i.kind == UserPrompt || i.kind == Steering)
  }

  lemma ContinuationAt(c: Coord, k: nat, scope: Scope, state: ItemState)
    requires ItemsOk(c.scope, c.nextSequence, c.items) && k < |c.items| && Addressed(c.scope, scope)
    ensures var r := ContinuationIndex(c.items, c.items[k].id, NormalScope(c.scope, scope), state, |c.items|);
      if Typed(c) then r.Failure?
      else r == Success(if c.items[k].kind == GoalContinuation && c.items[k].state == state then k else |c.items|)
  {
    hide ContinuationIndex, Precedes;
    var own := NormalScope(c.scope, scope);
    forall i | 0 <= i < |c.items| ensures c.items[i].scope == own { assert Fits(c.scope, c.nextSequence, c.items[i]); }
    var r := ContinuationIndex(c.items, c.items[k].id, own, state, |c.items|);
    if Typed(c) {
      var i :| i in c.items && i.state == Pending && (i.kind == UserPrompt || i.kind == Steering);
      var j :| 0 <= j < |c.items| && c.items[j] == i;
      assert ExplicitInput(c.items[j], own);
    } else {
      forall i | 0 <= i < |c.items| ensures !ExplicitInput(c.items[i], own) { assert c.items[i] in c.items; }
      if r.value < |c.items| { OnePlace(c, r.value, k); }
    }
  }

  /** A pending continuation is claimed exactly when nothing a person typed is pending; a processing one may be admitted exactly then. */
  lemma ContinuationClaimExact(c: Coord, k: nat, scope: Scope, ok: bool)
    requires ItemsOk(c.scope, c.nextSequence, c.items) && k < |c.items| && c.items[k].kind == GoalContinuation && Addressed(c.scope, scope)
    ensures var item := c.items[k].(state := Processing);
      var (n, r) := ClaimContinuation(c, c.items[k].id, scope, ok);
      && (if Typed(c) || c.items[k].state != Pending then r == Success(None) && n == c
          else if ok then r == Success(Some(item)) && Restates(c, n, k, item)
          else r.Failure? && n == c)
      && (AdmissionItem(c, c.items[k].id, scope) ==
            if Typed(c) then Failure(ExplicitInputPending) else if c.items[k].state == Processing then Success(c.items[k]) else Failure(NotClaimed))
  {
    hide ContinuationIndex, ItemsOk, Typed, Encode;
    ContinuationAt(c, k, scope, Pending);
    ContinuationAt(c, k, scope, Processing);
    TypedError(c, c.items[k].id, scope);
  }

  lemma TypedError(c: Coord, id: ItemId, scope: Scope)
    ensures var r := ContinuationIndex(c.items, id, NormalScope(c.scope, scope), Processing, |c.items|); r.Failure? ==> r.error == ExplicitInputPending
  {}

  /** Of the identities asked about, those answered for are the ones known or found delivered; only these are remembered. */
  lemma ResolveExact(c: Coord, ids: set<ItemId>, found: set<ItemId>)
    ensures var (n, covered) := ResolveDelivered(c, ids, found);
      && n == c.(delivered := n.delivered)
      && (forall id :: id in covered <==> id in ids && (id in c.delivered || id in found))
      && (forall id :: id in n.delivered <==> id in c.delivered || (id in ids && id in found))
  {}

  /** A deferred recovery is written once: the file then is memory, and a second commit does nothing. */
  lemma CommitExact(c: Coord, ok: bool)
    ensures var (n, r) := CommitRecovery(c, ok);
      && (!c.recoveryPending ==> r == Success(false) && n == c)
      && (c.recoveryPending && !ok ==> r.Failure? && n == c)
      && (c.recoveryPending && ok ==>
            && r == Success(true) && n == c.(revision := c.revision + 1, recoveryPending := false, disk := n.disk)
            && n.disk.items == c.items && n.disk.nextSequence == c.nextSequence && n.disk.revision == n.revision
            && CommitRecovery(n, ok) == (n, Success(false)))
  {}

  /** A failed write leaves a cancellation and a settlement undone. */
  lemma FailedRemovals(c: Coord, id: ItemId, ids: set<ItemId>)
    requires (exists i :: i in c.items && i.id == id && i.state == Pending) && exists i :: i in c.items && i.id in ids
    ensures Cancel(c, id, false).1.Failure? && Cancel(c, id, false).0 == c
    ensures Settle(c, ids, false).1.Failure? && Settle(c, ids, false).0 == c
  {
    hide Encode, Filter;
    W.Shorter(c.items, Uncancelled(id));
    W.Shorter(c.items, Unsettled(ids));
  }
}
