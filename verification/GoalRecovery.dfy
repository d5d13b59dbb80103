/** Two stores, one cursor: what the reconciliation after a restart leaves in the Goal and in the queue, branch by branch. */
module GoalRecovery {
  import opened Basics
  import opened RuntimeTypes
  import opened GoalTypes
  import opened GoalMachine
  import L = InputLedger

  predicate AllPending(items: seq<L.Item>) {
    forall i :: 0 <= i < |items| ==> items[i].state == L.Pending
  }

  /** The queue holds a pending item with this identity. */
  predicate Queued(c: L.Coord, id: ItemId) {
    exists i :: 0 <= i < |c.items| && c.items[i].id == id && c.items[i].state == L.Pending
  }

  /** The queue holds no item with this identity in any state. */
  predicate Absent(c: L.Coord, id: ItemId) {
    forall i :: 0 <= i < |c.items| ==> c.items[i].id != id
  }

  // ---------------------------------------------------------------- recovery makes everything pending

  lemma {:induction false} RecoverPending(own: Scope, covered: set<ItemId>, items: seq<L.Item>, i: nat, r: L.Recovery)
    requires i <= |items| && AllPending(r.items)
    ensures var out := L.RecoverFrom(own, covered, items, i, r); out.Success? ==> AllPending(out.value.items)
    decreases |items| - i
  {
    hide L.ValidItem, L.ReceiptFor, L.ReceiptCovers, L.ValidReceipt;
    if i < |items| && L.RecoverOne(own, covered, r, items[i]).Success? {
      RecoverPending(own, covered, items, i + 1, L.RecoverOne(own, covered, r, items[i]).value);
    }
  }

  lemma RecoveredPending(own: Scope, e: L.Envelope, known: set<ItemId>, found: set<ItemId>, deferred: bool, ok: bool)
    ensures var c := L.Recover(own, e, known, found, deferred, ok); c.Success? ==> AllPending(c.value.items)
  {
    hide L.LoadReceipts, L.RecoverFrom, L.Encode;
    var delivered := known + found * (L.Ids(e.items) - known);
    var receipts := L.LoadReceipts(own, e.nextSequence, e.receipts, 0, map[]);
    if receipts.Success? {
      RecoverPending(own, L.Ids(e.items) * delivered, e.items, 0, L.Recovery([], receipts.value, false));
    }
  }

  // ---------------------------------------------------------------- the queue after each branch

  lemma {:induction false} FilterWhole<T(!new)>(s: seq<T>, keep: T -> bool)
    requires |Filter(s, keep)| == |s|
    ensures forall i :: 0 <= i < |s| ==> keep(s[i])
  {
    if s != [] { FilterWhole(s[1..], keep); }
  }

  lemma SettledAbsent(c: L.Coord, id: ItemId, ok: bool)
    ensures var (n, r) := L.Settle(c, {id}, ok); r.Success? ==> Absent(n, id)
  {
    hide Filter, L.Encode;
    FilterMembers(c.items, L.Unsettled({id}));
    if |Filter(c.items, L.Unsettled({id}))| == |c.items| { FilterWhole(c.items, L.Unsettled({id})); }
    var (n, r) := L.Settle(c, {id}, ok);
    forall i | r.Success? && 0 <= i < |n.items| ensures n.items[i].id != id { assert n.items[i] in n.items; }
  }

  lemma RetiredAbsent(c: L.Coord, id: ItemId, code: string, at: nat, now: nat, w: Writes)
    ensures var (n, settled) := Retire(c, id, code, at, now, w); settled ==> Absent(n, id)
  {
    hide L.Settle, L.RejectContinuation;
    SettledAbsent(L.RejectContinuation(c, id, code, at, now, w.reject).0, id, w.settle);
  }

  lemma EnqueuedQueued(c: L.Coord, cursor: Continuation, now: nat, ok: bool)
    requires AllPending(c.items) && ItemOf(cursor.identity) !in c.delivered
    ensures var (n, r) := EnqueueCursor(c, cursor, now, ok); r.Success? ==> Queued(n, ItemOf(cursor.identity))
  {
    hide L.ValidItem, L.Encode, L.SameSubmission, L.PendingOfKind, L.FindItem;
    var item := CursorItem(cursor);
    var mode := L.Mode(Some((L.GoalContinuation, 1)), false);
    var d := L.Draft(c.items, c.receipts, c.nextSequence, [], false);
    var one := L.EnqueueOne(c.scope, c.delivered, d, item, mode, now);
    assert L.Drafted(c, [item], mode, now) == one by {
      if one.Success? { assert L.EnqueueFrom(c.scope, c.delivered, one.value, [item], mode, now, 1) == one; }
    }
    if one.Success? && L.FindItem(c.items, item.id).None? {
      assert one.value.items[|c.items|].id == item.id;
    }
  }

  /** The cursor of the Goal in memory is open exactly when its item is queued and pending. */
  predicate StoresAgree(n: State, identity: CursorIdentity) {
    && Held(n.mem).Some? && Held(n.mem).value.continuation.Some? && Held(n.mem).value.continuation.value.identity == identity
    && (OpenCursor(Held(n.mem).value.continuation) <==> Queued(n.coord, ItemOf(identity)))
  }

  lemma PausedAgree(s: State, disposition: Disposition, reason: string, now: nat, w: Writes)
    requires Held(s.mem).Some? && Held(s.mem).value.continuation.Some? && (disposition == CursorRejected || disposition == CursorDelivered)
    ensures var (n, reply) := PauseRestored(s, disposition, reason, now, w);
      reply == Done ==> StoresAgree(n, Held(s.mem).value.continuation.value.identity)
  {
    hide Retire, L.Settle;
    var id := ItemOf(Held(s.mem).value.continuation.value.identity);
    RetiredAbsent(s.coord, id, reason, now, now, w);
    SettledAbsent(s.coord, id, w.settle);
  }

  lemma RetiredAgree(s: State, cursor: Continuation, now: nat, w: Writes)
    requires Held(s.mem).Some? && Held(s.mem).value.continuation == Some(cursor) && !OpenCursor(Some(cursor))
    ensures var (n, reply) := RetireRestored(s, cursor, now, w); reply == Done ==> StoresAgree(n, cursor.identity)
  {
    hide Retire;
    var code := if cursor.reason == "" then "restored-terminal-disposition" else cursor.reason;
    RetiredAbsent(s.coord, ItemOf(cursor.identity), code, if cursor.at == 0 then now else cursor.at, now, w);
  }

  /** A reconciliation that succeeds over a recovered queue leaves the two stores in agreement. */
  lemma ReconcileAgrees(s: State, found: set<ItemId>, disabled: bool, now: nat, w: Writes)
    requires Held(s.mem).Some? && Held(s.mem).value.continuation.Some? && AllPending(s.coord.items)
    ensures var (n, reply) := ReconcileContinuation(s, Some(found), disabled, now, w);
      reply == Done ==> StoresAgree(n, Held(s.mem).value.continuation.value.identity)
  {
    hide PauseRestored, RetireRestored, EnqueueCursor, L.Settle;
    var cursor := Held(s.mem).value.continuation.value;
    var id := ItemOf(cursor.identity);
    var resolved := L.ResolveDelivered(s.coord, {id}, found).0;
    var s1 := s.(coord := resolved);
    PausedAgree(s1, CursorDelivered, "transcript-receipt-recovered", now, w);
    PausedAgree(s1, if cursor.disposition == CursorDelivered then CursorDelivered else CursorRejected, "goal-capability-disabled", now, w);
    PausedAgree(s1, CursorRejected, "recovery-item-conflict", now, w);
    SettledAbsent(resolved, id, w.settle);
    if !OpenCursor(Some(cursor)) { RetiredAgree(s1, cursor, now, w); }
    if id !in resolved.delivered { EnqueuedQueued(resolved, cursor, now, w.item); }
  }

  /**
   * A crash at any point, with whatever the two files then hold: once the queue has been recovered, the Goal restored and
   * the reconciliation has succeeded, the cursor is pending or admitting if and only if its item is pending in the queue.
   */
  lemma TwoStoreRecovery(s: State, own: Scope, e: L.Envelope, known: set<ItemId>, deferred: bool, committed: bool,
                         load: Load, found: set<ItemId>, disabled: bool, now: nat, ok: bool, w: Writes)
    requires L.Recover(own, e, known, found, deferred, committed).Success?
    ensures var s1 := Restart(s, L.Recover(own, e, known, found, deferred, committed).value, load, now, ok).0;
      Held(s1.mem).Some? && Held(s1.mem).value.continuation.Some? ==>
        var (n, reply) := ReconcileContinuation(s1, Some(found), disabled, now, w);
        reply == Done ==> StoresAgree(n, Held(s1.mem).value.continuation.value.identity)
  {
    hide RestoreGoal, ReconcileContinuation, L.Recover, StoresAgree;
    RecoveredPending(own, e, known, found, deferred, committed);
    var s1 := Restart(s, L.Recover(own, e, known, found, deferred, committed).value, load, now, ok).0;
    if Held(s1.mem).Some? && Held(s1.mem).value.continuation.Some? { ReconcileAgrees(s1, found, disabled, now, w); }
  }

  // ---------------------------------------------------------------- each branch, exactly

  /** The queue item of a cursor, with the place the ledger gave it. */
  function Entry(identity: CursorIdentity, version: nat, sequence: nat, at: nat): (r: L.Item) {
    L.Item(version, ContinuationItem(identity), L.GoalContinuation, L.Later, L.DefaultDelivery, identity.scope, sequence, at, L.Pending,
           L.Label(true, "goal", "p24.3-durable-continuation"), L.Cursor(identity), None)
  }

  predicate Without(items: seq<L.Item>, id: ItemId) {
    forall i :: 0 <= i < |items| ==> items[i].id != id
  }

  predicate NoContinuation(items: seq<L.Item>, scope: Scope) {
    forall i :: 0 <= i < |items| ==> !(items[i].kind == L.GoalContinuation && items[i].scope == scope && items[i].state == L.Pending)
  }

  lemma OneEnqueued(c: L.Coord, cursor: Continuation, now: nat)
    ensures var mode := L.Mode(Some((L.GoalContinuation, 1)), false);
      L.Drafted(c, [CursorItem(cursor)], mode, now) ==
        L.EnqueueOne(c.scope, c.delivered, L.Draft(c.items, c.receipts, c.nextSequence, [], false), CursorItem(cursor), mode, now)
  {
    hide L.EnqueueOne, CursorItem;
    var mode := L.Mode(Some((L.GoalContinuation, 1)), false);
    var item := CursorItem(cursor);
    var one := L.EnqueueOne(c.scope, c.delivered, L.Draft(c.items, c.receipts, c.nextSequence, [], false), item, mode, now);
    if one.Success? { assert L.EnqueueFrom(c.scope, c.delivered, one.value, [item], mode, now, 1) == one; }
  }

  lemma NonePending(items: seq<L.Item>, scope: Scope)
    requires NoContinuation(items, scope)
    ensures L.PendingOfKind(items, L.GoalContinuation, scope) == 0
  {
    FilterNothing(items, (i: L.Item) => i.state == L.Pending && i.kind == L.GoalContinuation && i.scope == scope);
  }

  /** A cursor's item goes to the end of a queue that has none of its kind, under the next sequence. */
  lemma CursorQueued(c: L.Coord, cursor: Continuation, now: nat)
    requires ValidCursorIdentity(cursor.identity) && cursor.identity.scope == c.scope && ContinuationItem(cursor.identity) !in c.delivered
    requires Without(c.items, ContinuationItem(cursor.identity)) && NoContinuation(c.items, c.scope)
    ensures var (n, r) := EnqueueCursor(c, cursor, now, true);
      && r.Success?
      && n == c.(items := c.items + [Entry(cursor.identity, 1, c.nextSequence + 1, now)], nextSequence := c.nextSequence + 1,
                 revision := c.revision + 1, disk := n.disk)
  {
    hide L.FindItem, L.PendingOfKind, L.Encode, L.Drafted;
    OneEnqueued(c, cursor, now);
    NonePending(c.items, c.scope);
    assert L.FindItem(c.items, ContinuationItem(cursor.identity)).None?;
  }

  /** An item that is already there stays the only one, and nothing is written. */
  lemma CursorThere(c: L.Coord, cursor: Continuation, k: nat, now: nat, ok: bool)
    requires cursor.identity.scope == c.scope && ContinuationItem(cursor.identity) !in c.delivered
    requires k < |c.items| && c.items[k] == Entry(cursor.identity, c.items[k].version, c.items[k].sequence, c.items[k].enqueuedAt)
    requires forall i :: 0 <= i < |c.items| && i != k ==> c.items[i].id != ContinuationItem(cursor.identity)
    ensures var (n, r) := EnqueueCursor(c, cursor, now, ok); r.Success? && n == c
  {
    hide L.FindItem, L.PendingOfKind, L.Encode, L.Drafted, L.ValidItem;
    OneEnqueued(c, cursor, now);
    assert c.items[k] in c.items;
    assert L.FindItem(c.items, ContinuationItem(cursor.identity)) == Some(c.items[k]);
  }

  /** A recovered queue: everything pending, and of this kind nothing but this cursor's own item, at most once. */
  predicate Restorable(c: L.Coord, identity: CursorIdentity) {
    && AllPending(c.items)
    && (forall i :: 0 <= i < |c.items| && (c.items[i].kind == L.GoalContinuation || c.items[i].id == ContinuationItem(identity)) ==>
          c.items[i] == Entry(identity, c.items[i].version, c.items[i].sequence, c.items[i].enqueuedAt))
    && (forall i, j :: 0 <= i < j < |c.items| ==> c.items[i].id != c.items[j].id)
  }

  /**
   * An open cursor whose delivery nobody reports gets its item back: the Goal stays as it was in memory and on disk, and the
   * queue holds exactly one pending item for it, the one that was there or a new one at the end.
   */
  lemma ReconcileRequeues(s: State, found: set<ItemId>, now: nat, w: Writes)
    requires Held(s.mem).Some? && Held(s.mem).value.continuation.Some? && w.item
    requires var cursor := Held(s.mem).value.continuation.value;
      && (cursor.disposition == CursorPending || cursor.disposition == CursorAdmitting)
      && ValidCursorIdentity(cursor.identity) && cursor.identity.scope == s.coord.scope
      && ContinuationItem(cursor.identity) !in s.coord.delivered + found && Restorable(s.coord, cursor.identity)
    ensures var (n, reply) := ReconcileContinuation(s, Some(found), false, now, w);
      var identity := Held(s.mem).value.continuation.value.identity;
      && reply == Done && n == s.(coord := n.coord)
      && (n.coord.items == s.coord.items || n.coord.items == s.coord.items + [Entry(identity, 1, s.coord.nextSequence + 1, now)])
      && (exists k :: 0 <= k < |n.coord.items| && Only(n.coord.items, k, identity))
  {
    hide L.FindItem, L.Encode, EnqueueCursor, PauseRestored;
    var cursor := Held(s.mem).value.continuation.value;
    var id := ContinuationItem(cursor.identity);
    var resolved := L.ResolveDelivered(s.coord, {id}, found).0;
    assert found * ({id} - s.coord.delivered) == {};
    assert resolved == s.coord.(delivered := resolved.delivered) && resolved.delivered == s.coord.delivered;
    if Without(s.coord.items, id) {
      CursorQueued(s.coord, cursor, now);
      assert Only(ReconcileContinuation(s, Some(found), false, now, w).0.coord.items, |s.coord.items|, cursor.identity);
    } else {
      var k :| 0 <= k < |s.coord.items| && s.coord.items[k].id == id;
      CursorThere(s.coord, cursor, k, now, w.item);
      assert Only(s.coord.items, k, cursor.identity);
    }
  }

  /** The one item at `k` is this cursor's, pending, and no other has its identity. */
  predicate Only(items: seq<L.Item>, k: nat, identity: CursorIdentity)
    requires k < |items|
  {
    && items[k] == Entry(identity, items[k].version, items[k].sequence, items[k].enqueuedAt)
    && forall i :: 0 <= i < |items| && i != k ==> items[i].id != ContinuationItem(identity)
  }

  /** The Goal after recovery has paused it: not active, without evidence, its cursor disposed of. */
  function PausedFor(g: Goal, disposition: Disposition, reason: string, now: nat): (r: Goal)
    requires g.continuation.Some?
  {
    g.(status := Paused, reasonCode := "cold-continuation-unavailable", revision := g.revision + 1, updatedAt := now,
       pendingComplete := None, blockerKey := "", blockerTurns := [],
       continuation := Some(Continuation(g.continuation.value.identity, disposition, reason, now)))
  }

  /** The Goal in memory is now `g`; what is stored for an unavailable one is its record. */
  predicate NowHolds(s: State, n: State, g: Goal) {
    match s.mem
    case Empty => false
    case Live(_) => n.mem == Live(g) && n.disk == Some(g)
    case Unavailable(raw, _) => n.mem == Unavailable(raw, g) && n.disk == Some(raw)
  }

  /** Everything but the Goal and the queue is as it was. */
  predicate Apart(s: State, n: State) {
    n == s.(mem := n.mem, disk := n.disk, coord := n.coord)
  }

  /** Items of other identities stay, in order. */
  predicate OnlyWithout(c: L.Coord, n: L.Coord, id: ItemId) {
    n.items == Filter(c.items, (i: L.Item) => i.id != id)
  }

  lemma {:induction false} SameFilter(items: seq<L.Item>, p: L.Item -> bool, q: L.Item -> bool)
    requires forall i :: p(i) <==> q(i)
    ensures Filter(items, p) == Filter(items, q)
  {
    if items != [] { SameFilter(items[1..], p, q); }
  }

  lemma {:induction false} FilterAll(items: seq<L.Item>, p: L.Item -> bool)
    requires forall i :: i in items ==> p(i)
    ensures Filter(items, p) == items
  {
    if items != [] { FilterAll(items[1..], p); }
  }

  /** Settling one identity with a good write takes exactly its items out. */
  lemma SettleOne(c: L.Coord, id: ItemId)
    ensures var (n, r) := L.Settle(c, {id}, true); r.Success? && OnlyWithout(c, n, id) && n.delivered == c.delivered + {id}
  {
    hide Filter, L.Encode;
    var keep := L.Unsettled({id});
    SameFilter(c.items, keep, (i: L.Item) => i.id != id);
    if |Filter(c.items, keep)| == |c.items| {
      FilterWhole(c.items, keep);
      FilterAll(c.items, keep);
    }
  }

  lemma {:induction false} FilterUpdated(items: seq<L.Item>, k: nat, x: L.Item, p: L.Item -> bool)
    requires k < |items| && !p(items[k]) && !p(x)
    ensures Filter(items[k := x], p) == Filter(items, p)
  {
    if k > 0 {
      assert items[k := x][1..] == items[1..][k - 1 := x];
      FilterUpdated(items[1..], k - 1, x, p);
    } else {
      assert items[0 := x][1..] == items[1..];
    }
  }

  /** Retiring an item with good writes takes exactly it out and remembers it as delivered. */
  lemma RetireOne(c: L.Coord, id: ItemId, code: string, at: nat, now: nat, w: Writes)
    requires code != "" && w.reject && w.settle && forall i :: i in c.items && i.state == L.Rejected ==> i.rejection.Some?
    ensures var (n, settled) := Retire(c, id, code, at, now, w); settled && OnlyWithout(c, n, id) && n.delivered == c.delivered + {id}
  {
    hide L.Settle, L.Encode, Filter, L.FirstIndex;
    var c1 := L.RejectContinuation(c, id, code, at, now, true).0;
    SettleOne(c1, id);
    var k := L.FirstIndex(c.items, L.ContinuationPick(id), 0);
    if k < |c.items| {
      assert c.items[k] in c.items;
      if c1 != c { FilterUpdated(c.items, k, c1.items[k], (i: L.Item) => i.id != id); }
    }
  }

  /** A cursor that the transcript reports ends as delivered: the Goal is paused, and nothing is queued for it. */
  lemma ReconcileDelivers(s: State, found: set<ItemId>, disabled: bool, now: nat, w: Writes)
    requires Held(s.mem).Some? && Held(s.mem).value.continuation.Some? && Held(s.mem).value.revision != MAX_U64 && w.first && w.settle
    requires ContinuationItem(Held(s.mem).value.continuation.value.identity) in s.coord.delivered + found
    ensures var (n, reply) := ReconcileContinuation(s, Some(found), disabled, now, w);
      var g := Held(s.mem).value;
      && reply == Done && Apart(s, n)
      && (if g.continuation.value.disposition == CursorDelivered then n.mem == s.mem && n.disk == s.disk
          else NowHolds(s, n, PausedFor(g, CursorDelivered, "transcript-receipt-recovered", now)))
      && OnlyWithout(s.coord, n.coord, ContinuationItem(g.continuation.value.identity))
  {
    hide L.Settle, OnlyWithout;
    var id := ContinuationItem(Held(s.mem).value.continuation.value.identity);
    var resolved := L.ResolveDelivered(s.coord, {id}, found).0;
    SettleOne(resolved, id);
    SameItems(s.coord, resolved, L.Settle(resolved, {id}, true).0, id);
  }

  lemma SameItems(c: L.Coord, d: L.Coord, n: L.Coord, id: ItemId)
    requires c.items == d.items && OnlyWithout(d, n, id)
    ensures OnlyWithout(c, n, id)
  {}

  /** Where continuations are disabled, the Goal is paused; its cursor is rejected, or stays delivered, and its item goes. */
  lemma ReconcileDisabled(s: State, found: set<ItemId>, now: nat, w: Writes)
    requires Held(s.mem).Some? && Held(s.mem).value.continuation.Some? && Held(s.mem).value.revision != MAX_U64 && w.first && w.reject && w.settle
    requires ContinuationItem(Held(s.mem).value.continuation.value.identity) !in s.coord.delivered + found && AllPending(s.coord.items)
    ensures var (n, reply) := ReconcileContinuation(s, Some(found), true, now, w);
      var g := Held(s.mem).value;
      var disposition := if g.continuation.value.disposition == CursorDelivered then CursorDelivered else CursorRejected;
      && reply == Done && Apart(s, n) && NowHolds(s, n, PausedFor(g, disposition, "goal-capability-disabled", now))
      && OnlyWithout(s.coord, n.coord, ContinuationItem(g.continuation.value.identity))
  {
    hide L.Settle, Retire, OnlyWithout;
    var id := ContinuationItem(Held(s.mem).value.continuation.value.identity);
    var resolved := L.ResolveDelivered(s.coord, {id}, found).0;
    SettleOne(resolved, id);
    RetireOne(resolved, id, "goal-capability-disabled", now, now, w);
    SameItems(s.coord, resolved, L.Settle(resolved, {id}, true).0, id);
    SameItems(s.coord, resolved, Retire(resolved, id, "goal-capability-disabled", now, now, w).0, id);
  }

  /** A cursor already rejected or delivered leaves the Goal alone, and its item, if any is left, goes. */
  lemma ReconcileRetires(s: State, found: set<ItemId>, now: nat, w: Writes)
    requires Held(s.mem).Some? && Held(s.mem).value.continuation.Some? && w.reject && w.settle
    requires var cursor := Held(s.mem).value.continuation.value;
      && (cursor.disposition == CursorRejected || cursor.disposition == CursorDelivered)
      && ContinuationItem(cursor.identity) !in s.coord.delivered + found && AllPending(s.coord.items)
    ensures var (n, reply) := ReconcileContinuation(s, Some(found), false, now, w);
      reply == Done && n == s.(coord := n.coord) && OnlyWithout(s.coord, n.coord, ContinuationItem(Held(s.mem).value.continuation.value.identity))
  {
    hide L.Settle, Retire, OnlyWithout;
    var cursor := Held(s.mem).value.continuation.value;
    var id := ContinuationItem(cursor.identity);
    var resolved := L.ResolveDelivered(s.coord, {id}, found).0;
    var code := if cursor.reason == "" then "restored-terminal-disposition" else cursor.reason;
    var at := if cursor.at == 0 then now else cursor.at;
    RetireOne(resolved, id, code, at, now, w);
    SameItems(s.coord, resolved, Retire(resolved, id, code, at, now, w).0, id);
  }

  /** An open cursor whose place is taken by another continuation is rejected, and the Goal is paused. */
  lemma ReconcileConflicts(s: State, found: set<ItemId>, k: nat, now: nat, w: Writes)
    requires Held(s.mem).Some? && Held(s.mem).value.continuation.Some? && Held(s.mem).value.revision != MAX_U64 && w.first && w.reject && w.settle
    requires var cursor := Held(s.mem).value.continuation.value;
      && (cursor.disposition == CursorPending || cursor.disposition == CursorAdmitting)
      && ContinuationItem(cursor.identity) !in s.coord.delivered + found && AllPending(s.coord.items) && cursor.identity.scope == s.coord.scope
      && Without(s.coord.items, ContinuationItem(cursor.identity))
    requires k < |s.coord.items| && s.coord.items[k].kind == L.GoalContinuation && s.coord.items[k].scope == s.coord.scope
    ensures var (n, reply) := ReconcileContinuation(s, Some(found), false, now, w);
      var g := Held(s.mem).value;
      && reply == Done && Apart(s, n) && NowHolds(s, n, PausedFor(g, CursorRejected, "recovery-item-conflict", now))
      && OnlyWithout(s.coord, n.coord, ContinuationItem(g.continuation.value.identity))
  {
    hide L.Settle, Retire, OnlyWithout, EnqueueCursor;
    var cursor := Held(s.mem).value.continuation.value;
    var id := ContinuationItem(cursor.identity);
    var resolved := L.ResolveDelivered(s.coord, {id}, found).0;
    PlaceTaken(resolved, cursor, k, now, w.item);
    RetireOne(resolved, id, "recovery-item-conflict", now, now, w);
    SameItems(s.coord, resolved, Retire(resolved, id, "recovery-item-conflict", now, now, w).0, id);
  }

  lemma PlaceTaken(c: L.Coord, cursor: Continuation, k: nat, now: nat, ok: bool)
    requires AllPending(c.items) && cursor.identity.scope == c.scope && ContinuationItem(cursor.identity) !in c.delivered
    requires Without(c.items, ContinuationItem(cursor.identity)) && k < |c.items| && c.items[k].kind == L.GoalContinuation && c.items[k].scope == c.scope
    ensures EnqueueCursor(c, cursor, now, ok).1.Failure?
  {
    hide L.FindItem, L.Encode, L.Drafted, L.ValidItem, Filter;
    OneEnqueued(c, cursor, now);
    var pending := (i: L.Item) => i.state == L.Pending && i.kind == L.GoalContinuation && i.scope == c.scope;
    FilterMembers(c.items, pending);
    assert c.items[k] in Filter(c.items, pending);
    assert L.FindItem(c.items, ContinuationItem(cursor.identity)).None?;
  }
}
