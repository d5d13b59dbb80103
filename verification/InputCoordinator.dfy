/**
 * RuntimeInputCoordinator (engine/input_coordinator.go).  Every method is one call under the
 * coordinator's mutex; `ok` is the outcome of the ledger write it attempts, if any.
 */
module InputCoordinator {
  import opened Basics
  import opened RuntimeTypes
  import opened InputLedger

  class RuntimeInputCoordinator {
    var scope: Scope
    var revision: nat
    var nextSequence: nat
    var items: seq<Item>
    var receipts: map<ItemId, Receipt>
    var delivered: set<ItemId>
    var recoveryPending: bool
    /** What the ledger file holds. */
    ghost var disk: Envelope

    ghost function View(): (c: Coord)
      reads this
    {
      Coord(scope, revision, nextSequence, items, receipts, delivered, recoveryPending, disk)
    }

    constructor (own: Scope, envelope: Envelope, items: seq<Item>, receipts: map<ItemId, Receipt>, delivered: set<ItemId>)
      ensures View() == Coord(own, envelope.revision, envelope.nextSequence, items, receipts, delivered, false, envelope)
    {
      this.scope, this.revision, this.nextSequence := own, envelope.revision, envelope.nextSequence;
      this.items, this.receipts, this.delivered := items, receipts, delivered;
      this.recoveryPending, this.disk := false, envelope;
    }

    /** persistStateLocked and the assignments that follow it. */
    method Write(items: seq<Item>, nextSequence: nat, receipts: map<ItemId, Receipt>)
      modifies this
      ensures View() == Commit(old(View()), items, nextSequence, receipts)
    {
      this.items, this.receipts, this.nextSequence := items, receipts, nextSequence;
      revision := revision + 1;
      disk := Encode(View());
    }

    // ---------------------------------------------------------------- recovery

    static method ReadReceipts(own: Scope, envelope: Envelope) returns (r: Result<map<ItemId, Receipt>, InputError>)
      ensures r == LoadReceipts(own, envelope.nextSequence, envelope.receipts, 0, map[])
    {
      var table: map<ItemId, Receipt> := map[];
      var sequences: map<nat, ItemId> := map[];
      for i := 0 to |envelope.receipts|
        invariant LoadReceipts(own, envelope.nextSequence, envelope.receipts, 0, map[]) ==
                  LoadReceipts(own, envelope.nextSequence, envelope.receipts, i, table)
        invariant forall s :: s in sequences <==> exists k :: k in table && table[k].sequence == s
      {
        var receipt := envelope.receipts[i];
        if !ValidReceipt(receipt) { return Failure(InvalidReceipt); }
        if receipt.scope != own { return Failure(InvalidReceipt); }
        if receipt.sequence > envelope.nextSequence { return Failure(InvalidReceipt); }
        if receipt.sequence in sequences { return Failure(InvalidReceipt); }
        if receipt.id in table { return Failure(InvalidReceipt); }
        ghost var before := table;
        sequences := sequences[receipt.sequence := receipt.id];
        table := table[receipt.id := receipt];
        assert forall k :: k in before ==> table[k] == before[k];
        assert table[receipt.id].sequence == receipt.sequence;
      }
      return Success(table);
    }

    /** One item of the stored ledger: checked against its receipt, then dropped, reset or kept. */
    static method RecoverItem(own: Scope, covered: set<ItemId>, so: Recovery, stored: Item) returns (r: Result<Recovery, InputError>)
      ensures r == RecoverOne(own, covered, so, stored)
    {
      var item, table, changed := stored, so.receipts, so.changed;
      if !ValidItem(own, item) { return Failure(InvalidItem); }
      if item.id in table {
        if !ValidReceipt(table[item.id]) || !ReceiptCovers(table[item.id], item) { return Failure(ReceiptMismatch); }
      } else {
        var receipt := ReceiptFor(item);
        if receipt.Some? {
          table := table[item.id := receipt.value];
          changed := true;
        }
      }
      if item.state == Rejected || item.id in covered || item.kind == Stop { return Success(Recovery(so.items, table, true)); }
      if item.state == Processing {
        item := item.(state := Pending);
        changed := true;
      }
      return Success(Recovery(so.items + [item], table, changed));
    }

    /** NewRuntimeInputCoordinator: `known` comes with the call, `found` is the transcript lookup's answer. */
    static method Open(own: Scope, envelope: Envelope, known: set<ItemId>, found: set<ItemId>, deferred: bool, ok: bool)
      returns (r: Result<RuntimeInputCoordinator, InputError>)
      ensures match Recover(own, envelope, known, found, deferred, ok)
              case Failure(e) => r == Failure(e)
              case Success(c) => r.Success? && fresh(r.value) && r.value.View() == c
    {
      hide RecoverOne, LoadReceipts, Encode;
      var loaded := ReadReceipts(own, envelope);
      if loaded.Failure? { return Failure(loaded.error); }
      var table := loaded.value;
      var ledgerIds := set i | i in envelope.items :: i.id;
      var delivered := known + found * (ledgerIds - known);
      var covered := ledgerIds * delivered;
      var recovered: seq<Item> := [];
      var changed := false;
      for i := 0 to |envelope.items|
        invariant Recovered(own, envelope, covered) ==
                  RecoverFrom(own, covered, envelope.items, i, Recovery(recovered, table, changed))
      {
        var next := RecoverItem(own, covered, Recovery(recovered, table, changed), envelope.items[i]);
        if next.Failure? { return Failure(next.error); }
        recovered, table, changed := next.value.items, next.value.receipts, next.value.changed;
      }
      var c := new RuntimeInputCoordinator(own, envelope, recovered, table, delivered);
      if changed {
        if deferred {
          c.recoveryPending := true;
        } else {
          if !ok { return Failure(WriteFailed); }
          c.Write(c.items, c.nextSequence, c.receipts);
        }
      }
      return Success(c);
    }

    method CommitDeferredRecovery(ok: bool) returns (r: Result<bool, InputError>)
      modifies this
      ensures (View(), r) == CommitRecovery(old(View()), ok)
    {
      if !recoveryPending { return Success(false); }
      if !ok { return Failure(WriteFailed); }
      Write(items, nextSequence, receipts);
      recoveryPending := false;
      return Success(true);
    }

    // ---------------------------------------------------------------- enqueue

    method CountPending(candidate: seq<Item>, kind: Kind, own: Scope) returns (n: nat)
      ensures n == PendingOfKind(candidate, kind, own)
    {
      n := 0;
      ghost var keep := (i: Item) => i.state == Pending && i.kind == kind && i.scope == own;
      for i := 0 to |candidate|
        invariant n == |Filter(candidate[..i], keep)|
      {
        assert candidate[..i + 1] == candidate[..i] + [candidate[i]];
        FilterAppend(candidate[..i], [candidate[i]], keep);
        FilterCons(candidate[i], [], keep);
        assert [candidate[i]] + [] == [candidate[i]];
        if candidate[i].state == Pending && candidate[i].kind == kind && candidate[i].scope == own { n := n + 1; }
      }
      assert candidate[..|candidate|] == candidate;
    }

    /** One round of the loop in enqueueBatchLocked, on the candidate ledger. */
    method Stage(d: Draft, raw: Item, mode: Mode, now: nat) returns (r: Result<Draft, InputError>)
      ensures r == EnqueueOne(scope, delivered, d, raw, mode, now)
    {
      var item := Normal(scope, raw);
      if item.id == Id("") { return Failure(EmptyId); }
      if mode.record && item.id in d.receipts {
        var receipt := d.receipts[item.id];
        if !ValidReceipt(receipt) { return Failure(InvalidReceipt); }
        if DigestOf(item).None? { return Failure(NoDigest); }
        if !ReceiptMatches(receipt, item) { return Failure(Conflict(item.id)); }
        var live := FindItem(d.items, item.id);
        if live.Some? {
          if !SameSubmission(live.value, item) { return Failure(Conflict(item.id)); }
          return Success(Accept(d, live.value));
        }
        item := item.(sequence := receipt.sequence, enqueuedAt := receipt.enqueuedAt, state := Processing);
        if !ValidItem(scope, item) { return Failure(InvalidItem); }
        return Success(Accept(d, item));
      }
      if item.id in delivered {
        if mode.record { return Failure(Conflict(item.id)); }
        return Success(Accept(d, item.(state := Processing)));
      }
      var existing := FindItem(d.items, item.id);
      if existing.Some? {
        if !SameSubmission(existing.value, item) { return Failure(Conflict(item.id)); }
        if !mode.record { return Success(Accept(d, existing.value)); }
        var receipt := ReceiptFor(existing.value);
        if receipt.None? { return Failure(NoDigest); }
        return Success(Accept(d.(receipts := d.receipts[item.id := receipt.value], changed := true), existing.value));
      }
      if mode.bound.Some? && item.kind == mode.bound.value.0 {
        var pending := CountPending(d.items, item.kind, item.scope);
        if pending >= mode.bound.value.1 { return Failure(Full); }
      }
      var sequence := d.nextSequence + 1;
      item := item.(sequence := sequence, enqueuedAt := if item.enqueuedAt == 0 then now else item.enqueuedAt, state := Pending);
      if !ValidItem(scope, item) { return Failure(InvalidItem); }
      var table := d.receipts;
      if mode.record {
        var receipt := ReceiptFor(item);
        if receipt.None? { return Failure(NoDigest); }
        table := table[item.id := receipt.value];
      }
      return Success(Draft(d.items + [item], table, sequence, d.accepted + [item], true));
    }

    /** EnqueueBatch, EnqueueBounded and EnqueueBoundedWithAdmissionReceipt, by mode. */
    method EnqueueBatch(raws: seq<Item>, mode: Mode, now: nat, ok: bool) returns (r: Result<seq<Item>, InputError>)
      modifies this
      ensures (View(), r) == Enqueue(old(View()), raws, mode, now, ok)
    {
      var candidate := Draft(items, receipts, nextSequence, [], false);
      for i := 0 to |raws|
        invariant View() == old(View())
        invariant Drafted(View(), raws, mode, now) == EnqueueFrom(scope, delivered, candidate, raws, mode, now, i)
      {
        var staged := Stage(candidate, raws[i], mode, now);
        if staged.Failure? { return Failure(staged.error); }
        candidate := staged.value;
      }
      if !candidate.changed { return Success(candidate.accepted); }
      if !ok { return Failure(WriteFailed); }
      Write(candidate.items, candidate.nextSequence, candidate.receipts);
      return Success(candidate.accepted);
    }

    // ---------------------------------------------------------------- claims

    static method SortItems(s: seq<Item>) returns (r: seq<Item>)
      ensures r == Sorted(s)
    {
      r := [];
      for i := |s| downto 0
        invariant r == Sorted(s[i..])
      {
        assert s[i..][1..] == s[i + 1..];
        r := Insert(s[i], r);
      }
    }

    method TakeSnapshot(within: Scope) returns (r: seq<Item>)
      ensures r == Snapshot(View(), within)
    {
      var own := NormalScope(scope, within);
      ghost var pick := ScopePick(View(), within);
      var found: seq<Item> := [];
      for i := 0 to |items|
        invariant found == Filter(items[..i], pick)
      {
        assert items[..i + 1] == items[..i] + [items[i]];
        FilterAppend(items[..i], [items[i]], pick);
        FilterCons(items[i], [], pick);
        assert [items[i]] + [] == [items[i]];
        if items[i].state == Pending && items[i].scope == own { found := found + [items[i]]; }
      }
      assert items[..|items|] == items;
      r := SortItems(found);
    }

    method ClaimAtSafePoint(within: Scope, includeUser: bool, allowLater: bool, ok: bool) returns (r: Result<seq<Item>, InputError>)
      modifies this
      ensures (View(), r) == ClaimSafePoint(old(View()), within, includeUser, allowLater, ok)
    {
      hide Filter, Sorted, Encode;
      assert Filter([], SafePick(View(), within, includeUser, allowLater)) == [] by { FilterNone(SafePick(View(), within, includeUser, allowLater)); }
      var own := NormalScope(scope, within);
      ghost var pick := SafePick(View(), within, includeUser, allowLater);
      var chosen: seq<Item> := [];
      var candidate: seq<Item> := [];
      for i := 0 to |items|
        invariant View() == old(View())
        invariant chosen == Filter(items[..i], pick)
        invariant |candidate| == i && forall k :: 0 <= k < i ==> candidate[k] == if pick(items[k]) then Claimed(items[k]) else items[k]
      {
        assert items[..i + 1] == items[..i] + [items[i]];
        FilterAppend(items[..i], [items[i]], pick);
        FilterCons(items[i], [], pick);
        assert [items[i]] + [] == [items[i]];
        var item := items[i];
        var eligible := item.state == Pending && item.kind != Stop && item.kind != GoalContinuation && item.scope == own;
        if eligible && item.kind == UserPrompt && (item.delivery == NextTurn || (!includeUser && item.delivery != Steer)) { eligible := false; }
        if eligible && item.priority == Later && !allowLater { eligible := false; }
        if eligible {
          chosen := chosen + [item];
          candidate := candidate + [Claimed(item)];
        } else {
          candidate := candidate + [item];
        }
      }
      assert items[..|items|] == items;
      assert candidate == ClaimAll(items, pick);
      if chosen == [] { return Success([]); }
      var ordered := SortItems(chosen);
      if !ok { return Failure(WriteFailed); }
      Write(candidate, nextSequence, receipts);
      return Success(Marked(ordered));
    }

    method ClaimIndex(index: nat, ok: bool) returns (r: Result<Option<Item>, InputError>)
      modifies this
      ensures (View(), r) == ClaimAt(old(View()), index, ok)
    {
      if index >= |items| { return Success(None); }
      var claimed := Claimed(items[index]);
      if !ok { return Failure(WriteFailed); }
      Write(items[index := claimed], nextSequence, receipts);
      return Success(Some(claimed));
    }

    method ClaimIdle(within: Scope, ok: bool) returns (r: Result<Option<Item>, InputError>)
      modifies this
      ensures (View(), r) == ClaimNextIdle(old(View()), within, ok)
    {
      var own := NormalScope(scope, within);
      ghost var pick := IdlePick(View(), within);
      var best := |items|;
      for i := 0 to |items|
        invariant View() == old(View())
        invariant best == BestIndex(items, pick, i)
      {
        if items[i].state != Pending || items[i].kind == Stop || items[i].kind == GoalContinuation || items[i].scope != own { continue; }
        if best == |items| ||
           Ordinal(items[i].priority) < Ordinal(items[best].priority) ||
           (Ordinal(items[i].priority) == Ordinal(items[best].priority) && items[i].sequence < items[best].sequence) {
          best := i;
        }
      }
      r := ClaimIndex(best, ok);
    }

    method ClaimStopRequest(within: Scope, ok: bool) returns (r: Result<Option<Item>, InputError>)
      modifies this
      ensures (View(), r) == ClaimStop(old(View()), within, ok)
    {
      var own := NormalScope(scope, within);
      ghost var pick := StopPick(View(), within);
      var best := |items|;
      for i := 0 to |items|
        invariant View() == old(View())
        invariant best == FirstStop(items, pick, i)
      {
        if items[i].state != Pending || items[i].kind != Stop || items[i].scope != own { continue; }
        if best == |items| || items[i].sequence < items[best].sequence { best := i; }
      }
      r := ClaimIndex(best, ok);
    }

    method ClaimIdentity(id: ItemId, ok: bool) returns (r: Result<Option<Item>, InputError>)
      modifies this
      ensures (View(), r) == ClaimById(old(View()), id, ok)
    {
      ghost var pick := IdPick(id, Pending);
      var index := 0;
      while index < |items| && !(items[index].id == id && items[index].state == Pending)
        invariant View() == old(View()) && index <= |items|
        invariant FirstIndex(items, pick, 0) == FirstIndex(items, pick, index)
      {
        index := index + 1;
      }
      r := ClaimIndex(index, ok);
    }

    /** The scan shared by claimGoalContinuation and withGoalContinuationAdmission. */
    method FindContinuation(id: ItemId, own: Scope, state: ItemState) returns (r: Result<nat, InputError>)
      ensures r == ContinuationIndex(items, id, own, state, |items|)
    {
      var index := |items|;
      for i := 0 to |items|
        invariant ContinuationIndex(items, id, own, state, i) == Success(index)
      {
        var item := items[i];
        if item.state == state && item.id == id && item.kind == GoalContinuation && item.scope == own {
          index := i;
          continue;
        }
        if item.state == Pending && item.scope == own && (item.kind == UserPrompt || item.kind == Steering) {
          ExplicitInputStops(items, id, own, state, i, |items|);
          return Failure(ExplicitInputPending);
        }
      }
      return Success(index);
    }

    method ClaimGoalContinuation(id: ItemId, within: Scope, ok: bool) returns (r: Result<Option<Item>, InputError>)
      modifies this
      ensures (View(), r) == ClaimContinuation(old(View()), id, within, ok)
    {
      var index := FindContinuation(id, NormalScope(scope, within), Pending);
      if index.Failure? { return Success(None); }
      r := ClaimIndex(index.value, ok);
    }

    method ContinuationForAdmission(id: ItemId, within: Scope) returns (r: Result<Item, InputError>)
      ensures r == AdmissionItem(View(), id, within)
    {
      var index := FindContinuation(id, NormalScope(scope, within), Processing);
      if index.Failure? { return Failure(index.error); }
      if index.value == |items| { return Failure(NotClaimed); }
      return Success(items[index.value]);
    }

    // ---------------------------------------------------------------- release, rejection, settlement

    method ReleaseItem(id: ItemId, ok: bool) returns (r: Result<bool, InputError>)
      modifies this
      ensures (View(), r) == Release(old(View()), id, ok)
    {
      ghost var pick := IdPick(id, Processing);
      var index := 0;
      while index < |items| && !(items[index].id == id && items[index].state == Processing)
        invariant View() == old(View()) && index <= |items|
        invariant FirstIndex(items, pick, 0) == FirstIndex(items, pick, index)
      {
        index := index + 1;
      }
      if index == |items| { return Success(false); }
      if !ok { return Failure(WriteFailed); }
      Write(items[index := items[index].(state := Pending)], nextSequence, receipts);
      return Success(true);
    }

    method RejectGoalContinuation(id: ItemId, code: string, at: nat, now: nat, ok: bool) returns (r: Result<bool, InputError>)
      modifies this
      ensures (View(), r) == RejectContinuation(old(View()), id, code, at, now, ok)
    {
      if code == "" { return Failure(EmptyCode); }
      ghost var pick := ContinuationPick(id);
      var index := 0;
      while index < |items| && !(items[index].id == id && items[index].kind == GoalContinuation)
        invariant View() == old(View()) && index <= |items|
        invariant FirstIndex(items, pick, 0) == FirstIndex(items, pick, index)
      {
        index := index + 1;
      }
      if index == |items| { return Success(false); }
      if items[index].state == Rejected {
        if items[index].rejection.None? { return Failure(CorruptRejection); }
        return Success(false);
      }
      if !ok { return Failure(WriteFailed); }
      var rejection := Rejection(code, if at == 0 then now else at);
      Write(items[index := items[index].(state := Rejected, rejection := Some(rejection))], nextSequence, receipts);
      return Success(true);
    }

    method SettleItems(ids: set<ItemId>, ok: bool) returns (r: Result<bool, InputError>)
      modifies this
      ensures (View(), r) == Settle(old(View()), ids, ok)
    {
      ghost var keep := Unsettled(ids);
      var candidate: seq<Item> := [];
      var changed := false;
      for i := 0 to |items|
        invariant View() == old(View())
        invariant candidate == Filter(items[..i], keep) && changed == (|candidate| < i)
      {
        assert items[..i + 1] == items[..i] + [items[i]];
        FilterAppend(items[..i], [items[i]], keep);
        FilterCons(items[i], [], keep);
        assert [items[i]] + [] == [items[i]];
        if items[i].id in ids {
          changed := true;
          continue;
        }
        candidate := candidate + [items[i]];
      }
      assert items[..|items|] == items;
      if !changed {
        delivered := delivered + ids;
        return Success(false);
      }
      if !ok { return Failure(WriteFailed); }
      Write(candidate, nextSequence, receipts);
      delivered := delivered + ids;
      return Success(true);
    }

    method CancelItem(id: ItemId, ok: bool) returns (r: Result<bool, InputError>)
      modifies this
      ensures (View(), r) == Cancel(old(View()), id, ok)
    {
      ghost var keep := Uncancelled(id);
      var candidate: seq<Item> := [];
      var cancelled := false;
      for i := 0 to |items|
        invariant View() == old(View())
        invariant candidate == Filter(items[..i], keep) && cancelled == (|candidate| < i)
      {
        assert items[..i + 1] == items[..i] + [items[i]];
        FilterAppend(items[..i], [items[i]], keep);
        FilterCons(items[i], [], keep);
        assert [items[i]] + [] == [items[i]];
        if items[i].id == id && items[i].state == Pending {
          cancelled := true;
          continue;
        }
        candidate := candidate + [items[i]];
      }
      assert items[..|items|] == items;
      if !cancelled { return Success(false); }
      if !ok { return Failure(WriteFailed); }
      Write(candidate, nextSequence, receipts);
      return Success(true);
    }

    /** `found` is what the transcript lookup answers for the identities still unresolved. */
    method Resolve(ids: set<ItemId>, found: set<ItemId>) returns (covered: set<ItemId>)
      modifies this
      ensures (View(), covered) == ResolveDelivered(old(View()), ids, found)
    {
      covered := ids * delivered;
      var positive := found * (ids - delivered);
      delivered := delivered + positive;
      covered := covered + positive;
      assert covered == ids * delivered;
    }
  }

  lemma {:induction false} ExplicitInputStops(items: seq<Item>, id: ItemId, own: Scope, state: ItemState, i: nat, n: nat)
    requires i < n <= |items| && ContinuationIndex(items, id, own, state, i + 1).Failure?
    ensures ContinuationIndex(items, id, own, state, n) == Failure(ExplicitInputPending)
    decreases n
  {
    if n > i + 1 { ExplicitInputStops(items, id, own, state, i, n - 1); }
  }
}
