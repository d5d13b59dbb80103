/**
 * Whole runs of the coordinator: every operation, failed writes, deferred recovery and restarts.
 */
module InputRuns {
  import opened Basics
  import opened RuntimeTypes
  import opened InputLedger
  import opened InputInvariant

  /** One locked call; `ok` is the outcome of its ledger write.  `Restart` is a crash followed by recovery. */
  datatype Op =
    | EnqueueOp(raws: seq<Item>, mode: Mode, now: nat, ok: bool)
    | SafePointOp(scope: Scope, includeUser: bool, allowLater: bool, ok: bool)
    | IdleOp(scope: Scope, ok: bool)
    | StopOp(scope: Scope, ok: bool)
    | ByIdOp(id: ItemId, ok: bool)
    | ContinuationOp(id: ItemId, scope: Scope, ok: bool)
    | ReleaseOp(id: ItemId, ok: bool)
    | RejectOp(id: ItemId, code: string, at: nat, now: nat, ok: bool)
    | SettleOp(ids: set<ItemId>, ok: bool)
    | CancelOp(id: ItemId, ok: bool)
    | ResolveOp(ids: set<ItemId>, found: set<ItemId>)
    | CommitOp(ok: bool)
    | Restart(known: set<ItemId>, found: set<ItemId>, deferred: bool, ok: bool)

  ghost function Step(c: Coord, op: Op): (r: Coord) {
    match op
    case EnqueueOp(raws, mode, now, ok) => Enqueue(c, raws, mode, now, ok).0
    case SafePointOp(scope, includeUser, allowLater, ok) => ClaimSafePoint(c, scope, includeUser, allowLater, ok).0
    case IdleOp(scope, ok) => ClaimNextIdle(c, scope, ok).0
    case StopOp(scope, ok) => ClaimStop(c, scope, ok).0
    case ByIdOp(id, ok) => ClaimById(c, id, ok).0
    case ContinuationOp(id, scope, ok) => ClaimContinuation(c, id, scope, ok).0
    case ReleaseOp(id, ok) => Release(c, id, ok).0
    case RejectOp(id, code, at, now, ok) => RejectContinuation(c, id, code, at, now, ok).0
    case SettleOp(ids, ok) => Settle(c, ids, ok).0
    case CancelOp(id, ok) => Cancel(c, id, ok).0
    case ResolveOp(ids, found) => ResolveDelivered(c, ids, found).0
    case CommitOp(ok) => CommitRecovery(c, ok).0
    case Restart(known, found, deferred, ok) =>
      // A constructor that fails leaves the file alone; the process has not started.
      match Recover(c.scope, c.disk, known, found, deferred, ok)
      case Success(next) => next
      case Failure(_) => c
  }

  /**
   * What the callers owe: the clock is never zero, and a plain enqueue does not name an identity
   * that has a receipt but neither a live item nor a delivery.
   */
  ghost predicate Allowed(c: Coord, op: Op) {
    match op
    case EnqueueOp(raws, mode, now, _) =>
      now > 0 && (!mode.record ==> forall i :: 0 <= i < |raws| ==> !Stale(c, raws[i].id))
    case RejectOp(_, _, _, now, _) => now > 0
    case _ => true
  }

  /** A receipt whose item is gone and not known to be delivered. */
  ghost predicate Stale(c: Coord, id: ItemId) {
    id in c.receipts && id !in c.delivered && forall i :: i in c.items ==> i.id != id
  }

  ghost function Run(c: Coord, ops: seq<Op>): (r: Coord)
    decreases |ops|
  {
    if ops == [] then c else Run(Step(c, ops[0]), ops[1..])
  }

  ghost predicate AllowedRun(c: Coord, ops: seq<Op>)
    decreases |ops|
  {
    ops != [] ==> Allowed(c, ops[0]) && AllowedRun(Step(c, ops[0]), ops[1..])
  }

  /** A coordinator over a file that does not exist yet. */
  ghost function Init(own: Scope): (c: Coord) {
    Coord(own, 0, 0, [], map[], {}, false, Envelope(0, 0, [], []))
  }

  // ---------------------------------------------------------------- enqueue keeps the ledger

  ghost predicate DraftOk(own: Scope, d: Draft) {
    LedgerOk(own, d.nextSequence, d.items, d.receipts)
  }

  /** Receipts only ever grow. */
  ghost predicate Grows(m: map<ItemId, Receipt>, n: map<ItemId, Receipt>) {
    forall k :: k in m ==> k in n && n[k] == m[k]
  }

  ghost predicate DraftStep(own: Scope, d: Draft, next: Draft, mode: Mode) {
    && DraftOk(own, next)
    && Grows(d.receipts, next.receipts)
    && (!mode.record ==> next.receipts == d.receipts)
    && (forall i :: i in d.items ==> i in next.items)
    && (!next.changed ==> next == d.(accepted := next.accepted))
  }

  lemma ResubmitKeeps(own: Scope, d: Draft, existing: Item, item: Item, mode: Mode)
    requires DraftOk(own, d) && existing in d.items && existing.id == item.id && (mode.record ==> item.id !in d.receipts)
    ensures var r := Resubmit(d, existing, item, mode); r.Success? ==> DraftStep(own, d, r.value, mode)
  {
    if Resubmit(d, existing, item, mode).Success? && mode.record {
      AddReceipt(own, d.nextSequence, d.items, d.receipts, existing);
    }
  }

  lemma AppendKeeps(own: Scope, d: Draft, item: Item, mode: Mode, now: nat)
    requires DraftOk(own, d) && item.id != Id("") && item.id !in d.receipts && FindItem(d.items, item.id).None?
    ensures var r := Append(own, d, item, mode, now); r.Success? ==> DraftStep(own, d, r.value, mode)
  {
    hide LedgerOk, ValidItem, ReceiptFor, PendingOfKind;
    var r := Append(own, d, item, mode, now);
    if r.Success? {
      var entry := item.(sequence := d.nextSequence + 1,
                         enqueuedAt := if item.enqueuedAt == 0 then now else item.enqueuedAt,
                         state := Pending);
      AppendItem(own, d.nextSequence, d.items, d.receipts, entry);
      if mode.record {
        assert entry in d.items + [entry];
        AddReceipt(own, d.nextSequence + 1, d.items + [entry], d.receipts, entry);
      }
    }
  }

  lemma EnqueueOneKeeps(own: Scope, delivered: set<ItemId>, d: Draft, raw: Item, mode: Mode, now: nat)
    requires DraftOk(own, d)
    requires !mode.record && raw.id in d.receipts ==> raw.id in delivered || exists i :: i in d.items && i.id == raw.id
    ensures var r := EnqueueOne(own, delivered, d, raw, mode, now); r.Success? ==> DraftStep(own, d, r.value, mode)
  {
    var item := Normal(own, raw);
    if item.id != Id("") && item.id !in delivered && !(mode.record && item.id in d.receipts) {
      match FindItem(d.items, item.id)
      case Some(existing) => ResubmitKeeps(own, d, existing, item, mode);
      case None => AppendKeeps(own, d, item, mode, now);
    }
  }

  lemma {:induction false} EnqueueFromKeeps(own: Scope, delivered: set<ItemId>, d: Draft, raws: seq<Item>, mode: Mode, now: nat, i: nat)
    requires i <= |raws| && DraftOk(own, d)
    requires !mode.record ==> forall j :: i <= j < |raws| && raws[j].id in d.receipts ==>
               raws[j].id in delivered || exists x :: x in d.items && x.id == raws[j].id
    ensures var r := EnqueueFrom(own, delivered, d, raws, mode, now, i);
            r.Success? ==> DraftStep(own, d, r.value, mode)
    decreases |raws| - i
  {
    if i < |raws| {
      EnqueueOneKeeps(own, delivered, d, raws[i], mode, now);
      var r := EnqueueOne(own, delivered, d, raws[i], mode, now);
      if r.Success? { EnqueueFromKeeps(own, delivered, r.value, raws, mode, now, i + 1); }
    }
  }

  lemma EnqueueKeeps(c: Coord, raws: seq<Item>, mode: Mode, now: nat, ok: bool)
    requires Inv(c) && Allowed(c, EnqueueOp(raws, mode, now, ok))
    ensures Kept(c, Enqueue(c, raws, mode, now, ok).0)
  {
    EnqueueFromKeeps(c.scope, c.delivered, Draft(c.items, c.receipts, c.nextSequence, [], false), raws, mode, now, 0);
    var r := Drafted(c, raws, mode, now);
    if r.Success? && r.value.changed && ok {
      CommitKeepsInv(c, r.value.items, r.value.nextSequence, r.value.receipts);
    }
  }

  // ---------------------------------------------------------------- the other operations

  ghost predicate Kept(c: Coord, next: Coord) {
    Inv(next) && next.scope == c.scope && Grows(c.receipts, next.receipts)
  }

  lemma Unmoved(c: Coord)
    requires Inv(c)
    ensures Kept(c, c)
  {
  }

  lemma RestateKeeps(c: Coord, next: seq<Item>)
    requires Inv(c) && |next| == |c.items|
    requires forall i :: 0 <= i < |next| ==> next[i] == c.items[i] || (Restated(c.items[i], next[i]) && ValidItem(c.scope, next[i]))
    ensures Kept(c, SetItems(c, next))
  {
    hide ValidItem, TableOk, Agree, DiskOk, Encode;
    assert forall i :: 0 <= i < |next| ==> Fits(c.scope, c.nextSequence, c.items[i]);
    RestateLedger(c.scope, c.nextSequence, c.items, next, c.receipts);
    CommitKeepsInv(c, next, c.nextSequence, c.receipts);
  }

  /** Moving between pending and processing keeps an item valid. */
  lemma Movable(c: Coord, index: nat, state: ItemState)
    requires Inv(c) && index < |c.items| && c.items[index].state != Rejected && state != Rejected
    ensures ValidItem(c.scope, c.items[index].(state := state)) && Restated(c.items[index], c.items[index].(state := state))
  {
    hide DiskOk, TableOk, Agree, Encode;
    assert Fits(c.scope, c.nextSequence, c.items[index]);
  }

  lemma MoveKeeps(c: Coord, index: nat, state: ItemState)
    requires Inv(c) && index < |c.items| && c.items[index].state != Rejected && state != Rejected
    ensures Kept(c, SetItems(c, c.items[index := c.items[index].(state := state)]))
  {
    hide Inv, ValidItem, Kept;
    Movable(c, index, state);
    RestateKeeps(c, c.items[index := c.items[index].(state := state)]);
  }

  lemma ClaimAtKeeps(c: Coord, index: nat, ok: bool)
    requires Inv(c) && (index < |c.items| ==> c.items[index].state == Pending)
    ensures Kept(c, ClaimAt(c, index, ok).0)
  {
    if index < |c.items| && ok { MoveKeeps(c, index, Processing); }
  }

  lemma IdleKeeps(c: Coord, scope: Scope, ok: bool)
    requires Inv(c)
    ensures Kept(c, ClaimNextIdle(c, scope, ok).0)
  {
    ClaimAtKeeps(c, BestIndex(c.items, IdlePick(c, scope), |c.items|), ok);
  }

  lemma StopKeeps(c: Coord, scope: Scope, ok: bool)
    requires Inv(c)
    ensures Kept(c, ClaimStop(c, scope, ok).0)
  {
    ClaimAtKeeps(c, FirstStop(c.items, StopPick(c, scope), |c.items|), ok);
  }

  lemma ByIdKeeps(c: Coord, id: ItemId, ok: bool)
    requires Inv(c)
    ensures Kept(c, ClaimById(c, id, ok).0)
  {
    ClaimAtKeeps(c, FirstIndex(c.items, IdPick(id, Pending), 0), ok);
  }

  lemma SafePointKeeps(c: Coord, scope: Scope, includeUser: bool, allowLater: bool, ok: bool)
    requires Inv(c)
    ensures Kept(c, ClaimSafePoint(c, scope, includeUser, allowLater, ok).0)
  {
    var pick := SafePick(c, scope, includeUser, allowLater);
    if Filter(c.items, pick) != [] && ok {
      hide Inv, ValidItem, Restated, SafePointEligible, Kept;
      forall i | 0 <= i < |c.items| && pick(c.items[i])
        ensures ValidItem(c.scope, Claimed(c.items[i])) && Restated(c.items[i], Claimed(c.items[i]))
      {
        Movable(c, i, Processing);
      }
      RestateKeeps(c, ClaimAll(c.items, pick));
    }
  }

  lemma ContinuationKeeps(c: Coord, id: ItemId, scope: Scope, ok: bool)
    requires Inv(c)
    ensures Kept(c, ClaimContinuation(c, id, scope, ok).0)
  {
    match ContinuationIndex(c.items, id, NormalScope(c.scope, scope), Pending, |c.items|)
    case Failure(_) =>
    case Success(index) => ClaimAtKeeps(c, index, ok);
  }

  lemma ReleaseKeeps(c: Coord, id: ItemId, ok: bool)
    requires Inv(c)
    ensures Kept(c, Release(c, id, ok).0)
  {
    var index := FirstIndex(c.items, IdPick(id, Processing), 0);
    if index < |c.items| && ok { MoveKeeps(c, index, Pending); }
  }

  lemma RejectedValid(c: Coord, index: nat, code: string, at: nat)
    requires Inv(c) && index < |c.items| && c.items[index].kind == GoalContinuation && code != "" && at > 0
    ensures ValidItem(c.scope, c.items[index].(state := Rejected, rejection := Some(Rejection(code, at))))
  {
    hide DiskOk, TableOk, Agree, Encode;
    assert Fits(c.scope, c.nextSequence, c.items[index]);
  }

  lemma RejectKeeps(c: Coord, id: ItemId, code: string, at: nat, now: nat, ok: bool)
    requires Inv(c) && now > 0
    ensures Kept(c, RejectContinuation(c, id, code, at, now, ok).0)
  {
    hide Inv, ValidItem, Kept;
    Unmoved(c);
    var index := FirstIndex(c.items, ContinuationPick(id), 0);
    if code != "" && index < |c.items| && c.items[index].state != Rejected && ok {
      var when := if at == 0 then now else at;
      RejectedValid(c, index, code, when);
      RestateKeeps(c, c.items[index := c.items[index].(state := Rejected, rejection := Some(Rejection(code, when)))]);
    }
  }

  lemma RemoveKeeps(c: Coord, keep: Item -> bool)
    requires Inv(c)
    ensures Kept(c, SetItems(c, Filter(c.items, keep)))
  {
    KeepLedger(c.scope, c.nextSequence, c.items, c.receipts, keep);
    CommitKeepsInv(c, Filter(c.items, keep), c.nextSequence, c.receipts);
  }

  /** `delivered` and `recoveryPending` are not part of the file. */
  lemma CacheKeeps(c: Coord, delivered: set<ItemId>)
    requires Inv(c)
    ensures Inv(c.(delivered := delivered))
    ensures c.disk == Encode(c) ==> Inv(c.(delivered := delivered, recoveryPending := false))
  {
  }

  lemma RecoverKeeps(own: Scope, e: Envelope, known: set<ItemId>, found: set<ItemId>, deferred: bool, ok: bool)
    requires DiskOk(own, e)
    ensures var r := Recover(own, e, known, found, deferred, ok);
            && (r.Failure? ==> r.error == WriteFailed && !ok && !deferred)
            && (r.Success? ==>
                 && Inv(r.value)
                 && r.value.scope == own
                 && r.value.items == Survivors(e.items, Ids(e.items) * r.value.delivered)
                 && r.value.receipts == Promised(own, e)
                 && r.value.nextSequence == e.nextSequence)
  {
    var delivered := known + found * (Ids(e.items) - known);
    var covered := Ids(e.items) * delivered;
    RecoveredExact(own, e, covered);
    var rec := Recovered(own, e, covered).value;
    var c := Coord(own, e.revision, e.nextSequence, rec.items, rec.receipts, delivered, false, e);
    if !rec.changed { QuietFile(own, e, covered); }
    CommitKeepsInv(c, rec.items, c.nextSequence, c.receipts);
  }

  lemma {:induction false} KeepAll<T(!new)>(s: seq<T>, keep: T -> bool)
    requires forall x :: x in s ==> keep(x)
    ensures Filter(s, keep) == s
  {
    if s != [] { KeepAll(s[1..], keep); }
  }

  lemma {:induction false} NoNewReceipts(items: seq<Item>, m: map<ItemId, Receipt>)
    requires forall i :: i in items && ReceiptFor(i).Some? ==> i.id in m
    ensures WithReceipts(items, m) == m
  {
    if items != [] { assert items[0] in items; NoNewReceipts(items[1..], m); }
  }

  /** When recovery has nothing to do, the file already is what the coordinator would write. */
  lemma QuietFile(own: Scope, e: Envelope, covered: set<ItemId>)
    requires DiskOk(own, e)
    requires Quiet(e.items, LoadReceipts(own, e.nextSequence, e.receipts, 0, map[]).value, covered)
    ensures Survivors(e.items, covered) == e.items
    ensures e.receipts == Ordered(Promised(own, e))
  {
    KeepAll(e.items, (i: Item) => Lives(i, covered));
    forall i | 0 <= i < |e.items| ensures Reset(e.items)[i] == e.items[i] { assert e.items[i] in e.items; }
    NoNewReceipts(e.items, LoadReceipts(own, e.nextSequence, e.receipts, 0, map[]).value);
  }

  // ---------------------------------------------------------------- every step, every run

  lemma PromisedGrows(c: Coord)
    requires Inv(c)
    ensures Grows(c.receipts, Promised(c.scope, c.disk))
  {
    if c.disk == Encode(c) { ReceiptsRoundTrip(c.scope, c.nextSequence, c.receipts); }
  }

  lemma SettleKeeps(c: Coord, ids: set<ItemId>, ok: bool)
    requires Inv(c)
    ensures Kept(c, Settle(c, ids, ok).0)
  {
    var keep := Unsettled(ids);
    RemoveKeeps(c, keep);
    CacheKeeps(c, c.delivered + ids);
    CacheKeeps(SetItems(c, Filter(c.items, keep)), c.delivered + ids);
  }

  lemma CancelKeeps(c: Coord, id: ItemId, ok: bool)
    requires Inv(c)
    ensures Kept(c, Cancel(c, id, ok).0)
  {
    RemoveKeeps(c, Uncancelled(id));
  }

  lemma ResolveKeeps(c: Coord, ids: set<ItemId>, found: set<ItemId>)
    requires Inv(c)
    ensures Kept(c, ResolveDelivered(c, ids, found).0)
  {
    CacheKeeps(c, c.delivered + found * (ids - c.delivered));
  }

  lemma CommitRecoveryKeeps(c: Coord, ok: bool)
    requires Inv(c)
    ensures Kept(c, CommitRecovery(c, ok).0)
  {
    CommitKeepsInv(c, c.items, c.nextSequence, c.receipts);
    CacheKeeps(SetItems(c, c.items), c.delivered);
  }

  lemma RestartKeeps(c: Coord, known: set<ItemId>, found: set<ItemId>, deferred: bool, ok: bool)
    requires Inv(c)
    ensures Kept(c, Step(c, Restart(known, found, deferred, ok)))
  {
    RecoverKeeps(c.scope, c.disk, known, found, deferred, ok);
    PromisedGrows(c);
  }

  lemma StepKeeps(c: Coord, op: Op)
    requires Inv(c) && Allowed(c, op)
    ensures Kept(c, Step(c, op))
  {
    hide Inv, Kept;
    match op
    case EnqueueOp(raws, mode, now, ok) => EnqueueKeeps(c, raws, mode, now, ok);
    case SafePointOp(scope, includeUser, allowLater, ok) => SafePointKeeps(c, scope, includeUser, allowLater, ok);
    case IdleOp(scope, ok) => IdleKeeps(c, scope, ok);
    case StopOp(scope, ok) => StopKeeps(c, scope, ok);
    case ByIdOp(id, ok) => ByIdKeeps(c, id, ok);
    case ContinuationOp(id, scope, ok) => ContinuationKeeps(c, id, scope, ok);
    case ReleaseOp(id, ok) => ReleaseKeeps(c, id, ok);
    case RejectOp(id, code, at, now, ok) => RejectKeeps(c, id, code, at, now, ok);
    case SettleOp(ids, ok) => SettleKeeps(c, ids, ok);
    case CancelOp(id, ok) => CancelKeeps(c, id, ok);
    case ResolveOp(ids, found) => ResolveKeeps(c, ids, found);
    case CommitOp(ok) => CommitRecoveryKeeps(c, ok);
    case Restart(known, found, deferred, ok) => RestartKeeps(c, known, found, deferred, ok);
  }

  /** The ledger invariant holds after every run, and no receipt is ever lost or changed. */
  lemma {:induction false} RunKeeps(c: Coord, ops: seq<Op>)
    requires Inv(c) && AllowedRun(c, ops)
    ensures Kept(c, Run(c, ops))
    decreases |ops|
  {
    if ops != [] {
      StepKeeps(c, ops[0]);
      RunKeeps(Step(c, ops[0]), ops[1..]);
    }
  }

  lemma InitGood(own: Scope)
    ensures Inv(Init(own))
  {
  }

  /**
   * Ledger closure: whatever the run, item identities are unique, items are strictly increasing in
   * sequence, receipts have distinct sequences bounded by the next one, and the file on disk is one
   * that recovery accepts, whatever the transcript says has been delivered.
   */
  lemma LedgerClosure(own: Scope, ops: seq<Op>, known: set<ItemId>, found: set<ItemId>)
    requires AllowedRun(Init(own), ops)
    ensures var c := Run(Init(own), ops);
            && (forall i, j :: 0 <= i < j < |c.items| ==>
                  c.items[i].id != c.items[j].id && c.items[i].sequence < c.items[j].sequence <= c.nextSequence)
            && (forall k :: k in c.receipts ==> 0 < c.receipts[k].sequence <= c.nextSequence)
            && (forall k, l :: k in c.receipts && l in c.receipts && k != l ==> c.receipts[k].sequence != c.receipts[l].sequence)
            && Recover(c.scope, c.disk, known, found, false, true).Success?
            && Recover(c.scope, c.disk, known, found, true, false).Success?
  {
    InitGood(own);
    RunKeeps(Init(own), ops);
    var c := Run(Init(own), ops);
    RecoverKeeps(c.scope, c.disk, known, found, false, true);
    RecoverKeeps(c.scope, c.disk, known, found, true, false);
  }

  /**
   * Crash refinement: after any run with no recovery outstanding, the file is exactly memory, and a
   * crash followed by recovery gives back exactly the surviving items in order, with processing
   * turned back to pending and only rejected, delivered and stop items dropped.
   */
  lemma CrashRefinement(own: Scope, ops: seq<Op>, known: set<ItemId>, found: set<ItemId>, deferred: bool, ok: bool)
    requires AllowedRun(Init(own), ops)
    requires !Run(Init(own), ops).recoveryPending
    ensures var c := Run(Init(own), ops);
            var r := Recover(own, c.disk, known, found, deferred, ok);
            && c.disk == Encode(c)
            && (r.Failure? <==> !deferred && !ok && Restless(c, known + found))
            && (r.Success? ==>
                  && r.value.items == Survivors(c.items, Ids(c.items) * (known + found))
                  && r.value.nextSequence == c.nextSequence
                  && r.value.receipts == WithReceipts(c.items, c.receipts))
  {
    InitGood(own);
    RunKeeps(Init(own), ops);
    var c := Run(Init(own), ops);
    ReceiptsRoundTrip(own, c.nextSequence, c.receipts);
    RecoverKeeps(own, c.disk, known, found, deferred, ok);
    var delivered := known + found * (Ids(c.items) - known);
    assert Ids(c.items) * delivered == Ids(c.items) * (known + found);
    RecoveredExact(own, c.disk, Ids(c.items) * delivered);
  }

  /** Recovery has something to write: an item to drop or reset, or a receipt to add. */
  ghost predicate Restless(c: Coord, delivered: set<ItemId>) {
    !Quiet(c.items, c.receipts, Ids(c.items) * delivered)
  }

  /** Recovering a recovered ledger with the same transcript changes nothing, not even the revision. */
  lemma RecoveryIdempotent(own: Scope, e: Envelope, known: set<ItemId>, found: set<ItemId>, deferred: bool, ok: bool)
    requires DiskOk(own, e)
    ensures var first := Recover(own, e, known, found, false, true);
            && first.Success?
            && var again := Recover(own, first.value.disk, known, found, deferred, ok);
            && again.Success?
            && again.value == first.value.(delivered := again.value.delivered)
  {
    RecoverKeeps(own, e, known, found, false, true);
    var c := Recover(own, e, known, found, false, true).value;
    var covered := Ids(c.items) * (known + found * (Ids(c.items) - known));
    ReceiptsRoundTrip(own, c.nextSequence, c.receipts);
    RecoveredQuiet(own, e, known, found, c, covered);
    RecoveredExact(own, c.disk, covered);
    QuietFile(own, c.disk, covered);
    NoNewReceipts(c.items, c.receipts);
  }

  lemma RecoveredQuiet(own: Scope, e: Envelope, known: set<ItemId>, found: set<ItemId>, c: Coord, covered: set<ItemId>)
    requires DiskOk(own, e) && c.receipts == Promised(own, e)
    requires c.items == Survivors(e.items, Ids(e.items) * (known + found * (Ids(e.items) - known)))
    requires covered == Ids(c.items) * (known + found * (Ids(c.items) - known))
    ensures Quiet(c.items, c.receipts, covered)
  {
    var before := Ids(e.items) * (known + found * (Ids(e.items) - known));
    forall i | i in c.items
      ensures i.state == Pending && Lives(i, covered) && (ReceiptFor(i).Some? ==> i.id in c.receipts)
    {
      SurvivorOrigin(e.items, before, i);
      ReceiptsCoverSurvivors(own, e, i, before);
    }
  }

  lemma SurvivorOrigin(items: seq<Item>, covered: set<ItemId>, survivor: Item)
    requires survivor in Survivors(items, covered)
    ensures survivor.state == Pending && survivor.id in Ids(items) && survivor.id !in covered && survivor.kind != Stop
    ensures exists i :: i in items && survivor == i.(state := Pending)
  {
    var kept := Filter(items, (i: Item) => Lives(i, covered));
    FilterMembers(items, (i: Item) => Lives(i, covered));
    var x :| 0 <= x < |kept| && Reset(kept)[x] == survivor;
    assert kept[x] in kept && kept[x] in items;
  }

  lemma ReceiptsCoverSurvivors(own: Scope, e: Envelope, survivor: Item, covered: set<ItemId>)
    requires DiskOk(own, e) && survivor in Survivors(e.items, covered)
    ensures ReceiptFor(survivor).Some? ==> survivor.id in Promised(own, e)
  {
    SurvivorOrigin(e.items, covered, survivor);
    var i :| i in e.items && survivor == i.(state := Pending);
    if ReceiptFor(survivor).Some? { ReceiptAdded(e.items, LoadReceipts(own, e.nextSequence, e.receipts, 0, map[]).value, i); }
  }

  lemma {:induction false} ReceiptAdded(items: seq<Item>, m: map<ItemId, Receipt>, item: Item)
    requires item in items && ReceiptFor(item).Some?
    ensures item.id in WithReceipts(items, m)
  {
    var next := if items[0].id !in m && ReceiptFor(items[0]).Some? then m[items[0].id := ReceiptFor(items[0]).value] else m;
    if items[0] != item { assert item in items[1..]; ReceiptAdded(items[1..], next, item); }
  }

  // ---------------------------------------------------------------- receipted admission

  /** EnqueueBoundedWithAdmissionReceipt: one prompt, answered with the item it names. */
  ghost function Submit(c: Coord, raw: Item, maxPending: nat, now: nat, ok: bool): (r: (Coord, Result<Item, InputError>)) {
    match Enqueue(c, [raw], Mode(Some((UserPrompt, maxPending)), true), now, ok)
    case (next, Failure(e)) => (next, Failure(e))
    case (next, Success(items)) => (next, if |items| == 1 then Success(items[0]) else Failure(InvalidItem))
  }

  lemma DraftedOne(c: Coord, raw: Item, mode: Mode, now: nat)
    ensures Drafted(c, [raw], mode, now) ==
            EnqueueOne(c.scope, c.delivered, Draft(c.items, c.receipts, c.nextSequence, [], false), raw, mode, now)
  {
    var one := EnqueueOne(c.scope, c.delivered, Draft(c.items, c.receipts, c.nextSequence, [], false), raw, mode, now);
    if one.Success? { assert EnqueueFrom(c.scope, c.delivered, one.value, [raw], mode, now, 1) == one; }
  }

  /** The receipt table after a submission answers for the item the submission returned. */
  ghost predicate Answers(own: Scope, m: map<ItemId, Receipt>, raw: Item, answer: Item) {
    && answer.id == raw.id && raw.id in m
    && ReceiptCovers(m[raw.id], answer)
    && DigestOf(answer) == DigestOf(Normal(own, raw))
  }

  lemma EnqueueOneAnswers(own: Scope, delivered: set<ItemId>, d: Draft, raw: Item, mode: Mode, now: nat)
    requires DraftOk(own, d) && mode.record
    ensures var r := EnqueueOne(own, delivered, d, raw, mode, now);
            r.Success? ==>
              && |r.value.accepted| == |d.accepted| + 1
              && Answers(own, r.value.receipts, raw, r.value.accepted[|d.accepted|])
              && (if raw.id in d.receipts then r.value == d.(accepted := r.value.accepted) else r.value.changed)
  {
    hide ValidItem, ItemsOk, TableOk, PendingOfKind;
    var item := Normal(own, raw);
    match FindItem(d.items, item.id)
    case Some(existing) => assert existing in d.items;
    case None =>
  }

  lemma SubmitAnswer(c: Coord, raw: Item, maxPending: nat, now: nat, ok: bool)
    requires Inv(c)
    ensures var (next, r) := Submit(c, raw, maxPending, now, ok);
            && (r.Success? ==> Answers(c.scope, next.receipts, raw, r.value))
            && (raw.id in c.receipts ==> next == c)
  {
    hide EnqueueOne, Drafted, Answers, LedgerOk, DiskOk, Encode;
    var mode := Mode(Some((UserPrompt, maxPending)), true);
    DraftedOne(c, raw, mode, now);
    EnqueueOneAnswers(c.scope, c.delivered, Draft(c.items, c.receipts, c.nextSequence, [], false), raw, mode, now);
  }

  /**
   * At most once, for ever: however many claims, cancels, settlements and restarts lie between, two
   * successful receipted submissions of one identity return the same sequence and enqueue time for
   * the same payload, the second puts nothing in the ledger, and a live item of that identity is
   * always the one first admitted.  Reuse with another payload fails.
   */
  lemma AdmittedOnce(c: Coord, first: Item, ops: seq<Op>, second: Item, max1: nat, now1: nat, ok1: bool, max2: nat, now2: nat, ok2: bool)
    requires Inv(c) && now1 > 0 && second.id == first.id
    requires Submit(c, first, max1, now1, ok1).1.Success?
    requires AllowedRun(Submit(c, first, max1, now1, ok1).0, ops)
    ensures var (c1, answer1) := Submit(c, first, max1, now1, ok1);
            var c2 := Run(c1, ops);
            var (c3, answer2) := Submit(c2, second, max2, now2, ok2);
            && c3 == c2
            && (answer2.Success? ==>
                  && answer2.value.sequence == answer1.value.sequence
                  && answer2.value.enqueuedAt == answer1.value.enqueuedAt
                  && DigestOf(answer2.value) == DigestOf(answer1.value))
            && (forall i :: i in c2.items && i.id == first.id ==>
                  i.sequence == answer1.value.sequence && i.enqueuedAt == answer1.value.enqueuedAt)
            && (DigestOf(Normal(c.scope, second)) != DigestOf(Normal(c.scope, first)) ==> answer2.Failure?)
  {
    var (c1, answer1) := Submit(c, first, max1, now1, ok1);
    SubmitAnswer(c, first, max1, now1, ok1);
    EnqueueKeeps(c, [first], Mode(Some((UserPrompt, max1)), true), now1, ok1);
    RunKeeps(c1, ops);
    SubmitAnswer(Run(c1, ops), second, max2, now2, ok2);
  }

  // ---------------------------------------------------------------- the caller's duty is exact

  lemma {:induction false} RecoverSnoc(own: Scope, covered: set<ItemId>, items: seq<Item>, last: Item, i: nat, r: Recovery)
    requires i <= |items|
    ensures RecoverFrom(own, covered, items + [last], i, r) ==
            (match RecoverFrom(own, covered, items, i, r)
             case Failure(e) => Failure(e)
             case Success(v) => RecoverOne(own, covered, v, last))
    decreases |items| - i
  {
    if i == |items| {
      assert (items + [last])[i] == last;
      var one := RecoverOne(own, covered, r, last);
      if one.Success? { assert RecoverFrom(own, covered, items + [last], i + 1, one.value) == Success(one.value); }
    } else {
      assert (items + [last])[i] == items[i];
      var one := RecoverOne(own, covered, r, items[i]);
      if one.Success? { RecoverSnoc(own, covered, items, last, i + 1, one.value); }
    }
  }

  lemma StaleFileRefused(own: Scope, c: Coord, entry: Item, covered: set<ItemId>)
    requires LedgerOk(own, c.nextSequence, c.items, c.receipts)
    requires entry.id in c.receipts && entry.sequence == c.nextSequence + 1
    ensures RecoverFrom(own, covered, c.items + [entry], 0, Recovery([], c.receipts, false)).Failure?
  {
    var start := Recovery([], c.receipts, false);
    RecoverRest(own, c.nextSequence, covered, c.items, 0, start);
    RecoverSnoc(own, covered, c.items, entry, 0, start);
  }

  lemma AppendedEntry(c: Coord, raw: Item, now: nat)
    requires Stale(c, raw.id) && Drafted(c, [raw], Mode(None, false), now).Success?
    ensures var d := Drafted(c, [raw], Mode(None, false), now).value;
            && d.changed && d.nextSequence == c.nextSequence + 1 && d.receipts == c.receipts
            && |d.items| == |c.items| + 1 && d.items == c.items + [d.items[|c.items|]]
            && d.items[|c.items|].id == raw.id && d.items[|c.items|].sequence == c.nextSequence + 1
  {
    DraftedOne(c, raw, Mode(None, false), now);
    assert FindItem(c.items, raw.id).None?;
  }

  /** A plain enqueue that is accepted leaves a recoverable file if and only if its identity was not stale. */
  lemma PlainEnqueueExact(c: Coord, raw: Item, now: nat, known: set<ItemId>, found: set<ItemId>)
    requires Inv(c) && now > 0
    requires Enqueue(c, [raw], Mode(None, false), now, true).1.Success?
    ensures Recover(c.scope, Enqueue(c, [raw], Mode(None, false), now, true).0.disk, known, found, false, true).Success? <==> !Stale(c, raw.id)
  {
    var mode := Mode(None, false);
    var next := Enqueue(c, [raw], mode, now, true).0;
    if !Stale(c, raw.id) {
      EnqueueKeeps(c, [raw], mode, now, true);
      RecoverKeeps(c.scope, next.disk, known, found, false, true);
    } else {
      AppendedEntry(c, raw, now);
      ReceiptsRoundTrip(c.scope, next.nextSequence, c.receipts);
      var covered := Ids(next.items) * (known + found * (Ids(next.items) - known));
      StaleFileRefused(c.scope, c, next.items[|c.items|], covered);
    }
  }

  /** Admit with a receipt into an empty ledger, then cancel: the receipt stays, the item is gone. */
  lemma CancelLeavesStale(own: Scope, raw: Item, now: nat)
    requires now > 0 && raw.id != Id("") && raw.enqueuedAt == 0 && raw.state == Pending
    requires ValidItem(own, Normal(own, raw)) && DigestOf(Normal(own, raw)).Some?
    ensures var c1 := Enqueue(Init(own), [raw], Mode(None, true), now, true).0;
            var c2 := Cancel(c1, raw.id, true).0;
            c2.items == [] && raw.id in c2.receipts && c2.delivered == {} && c2.scope == own
  {
    var entry := Normal(own, raw).(sequence := 1, enqueuedAt := now);
    DraftedOne(Init(own), raw, Mode(None, true), now);
    assert ReceiptFor(entry).Some?;
    var keep := Uncancelled(raw.id);
    assert Filter([entry], keep) == Filter([entry][1..], keep) == [];
  }

  lemma PlainAccepted(c: Coord, raw: Item, now: nat)
    requires c.items == [] && c.delivered == {} && raw.id != Id("") && raw.state == Pending
    requires ValidItem(c.scope, Normal(c.scope, raw))
    ensures Enqueue(c, [raw], Mode(None, false), now, true).1.Success?
  {
    DraftedOne(c, raw, Mode(None, false), now);
  }

  /** The duty is real: submit with a receipt, cancel, then enqueue the same identity plainly. */
  lemma PlainEnqueueCanStrand(own: Scope, raw: Item, now: nat)
    requires now > 0 && raw.id != Id("") && raw.enqueuedAt == 0 && raw.state == Pending
    requires ValidItem(own, Normal(own, raw)) && DigestOf(Normal(own, raw)).Some?
    ensures var c := Run(Init(own), [EnqueueOp([raw], Mode(None, true), now, true), CancelOp(raw.id, true)]);
            && AllowedRun(Init(own), [EnqueueOp([raw], Mode(None, true), now, true), CancelOp(raw.id, true)])
            && Enqueue(c, [raw], Mode(None, false), now, true).1.Success?
            && Recover(own, Enqueue(c, [raw], Mode(None, false), now, true).0.disk, {}, {}, false, true).Failure?
  {
    hide Enqueue, Cancel, Recover, ValidItem, Inv, DigestOf, Normal;
    var ops := [EnqueueOp([raw], Mode(None, true), now, true), CancelOp(raw.id, true)];
    var c0 := Init(own);
    InitGood(own);
    CancelLeavesStale(own, raw, now);
    var c1, c2 := Step(c0, ops[0]), Step(Step(c0, ops[0]), ops[1]);
    assert ops[1..][0] == ops[1] && ops[1..][1..] == [];
    assert Run(c0, ops) == Run(c1, ops[1..]) == Run(c2, []) == c2;
    assert AllowedRun(c2, []) && AllowedRun(c1, ops[1..]);
    StepKeeps(c0, ops[0]);
    StepKeeps(c1, ops[1]);
    PlainAccepted(c2, raw, now);
    PlainEnqueueExact(c2, raw, now, {}, {});
  }
}
