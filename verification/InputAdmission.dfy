/** How a submission enters the queue: a new item, a duplicate, a delivered one, a full queue, a batch, and what a digest tells apart. */
module InputAdmission {
  import opened Basics
  import opened RuntimeTypes
  import opened InputLedger
  import opened InputInvariant
  import opened InputRuns
  import O = InputOutcomes

  // ---------------------------------------------------------------- one item

  /** The item as it is stored: defaults filled in, the next sequence, its own time or now, pending. */
  function StoredAs(c: Coord, raw: Item, now: nat): (r: Item) {
    Item(if raw.delivery == DefaultDelivery then 1 else 2,
         raw.id, raw.kind,
         if raw.priority == Unset then Next else raw.priority,
         raw.delivery,
         Scope(if raw.scope.sessionId == "" then c.scope.sessionId else raw.scope.sessionId,
               if raw.scope.threadId == "" then c.scope.threadId else raw.scope.threadId,
               if raw.scope.agentId == "" then c.scope.agentId else raw.scope.agentId),
         c.nextSequence + 1,
         if raw.enqueuedAt == 0 then now else raw.enqueuedAt,
         Pending, raw.tag, raw.payload, raw.rejection)
  }

  /** How many items of this kind and scope are pending. */
  function PendingCount(items: seq<Item>, kind: Kind, scope: Scope): (r: nat) {
    if items == [] then 0
    else (if items[0].state == Pending && items[0].kind == kind && items[0].scope == scope then 1 else 0) + PendingCount(items[1..], kind, scope)
  }

  lemma {:induction false} CountIs(items: seq<Item>, kind: Kind, scope: Scope)
    ensures PendingOfKind(items, kind, scope) == PendingCount(items, kind, scope)
  {
    if items != [] { CountIs(items[1..], kind, scope); }
  }

  /** The identity is usable, and nothing is known of it: no item, no delivery, and for a receipted submission no receipt. */
  predicate Unknown(c: Coord, raw: Item, mode: Mode) {
    raw.id != Id("") && raw.id !in c.delivered && !(mode.record && raw.id in c.receipts) && forall i :: i in c.items ==> i.id != raw.id
  }

  predicate Full(c: Coord, raw: Item, mode: Mode) {
    mode.bound.Some? && raw.kind == mode.bound.value.0 && PendingCount(c.items, raw.kind, StoredAs(c, raw, 1).scope) >= mode.bound.value.1
  }

  /** A text prompt with a time and some text, which is what a receipt needs. */
  predicate Receipted(item: Item) {
    item.kind == UserPrompt && item.payload.Text? && Trim(item.payload.prompt) != "" && item.scope.sessionId != "" && item.enqueuedAt > 0
  }

  /**
   * An unknown identity is accepted exactly when there is room, the item is valid, a receipt can be given if one is asked for,
   * and the write succeeds; it then stands at the end of the queue under the next sequence, and is the answer.
   */
  lemma NewItemExact(c: Coord, raw: Item, mode: Mode, now: nat, ok: bool)
    requires Unknown(c, raw, mode)
    ensures var (n, r) := Enqueue(c, [raw], mode, now, ok);
      var item := StoredAs(c, raw, now);
      && (r.Success? <==> !Full(c, raw, mode) && ValidItem(c.scope, item) && (mode.record ==> Receipted(item)) && ok)
      && (r.Failure? ==> n == c)
      && (r.Success? ==>
            && r.value == [item]
            && n == c.(items := c.items + [item], nextSequence := c.nextSequence + 1, revision := c.revision + 1, receipts := n.receipts, disk := n.disk)
            && (!mode.record ==> n.receipts == c.receipts)
            && (mode.record ==>
                  && item.id in n.receipts && n.receipts == c.receipts[item.id := n.receipts[item.id]]
                  && n.receipts[item.id].sequence == item.sequence && n.receipts[item.id].enqueuedAt == item.enqueuedAt
                  && Some(n.receipts[item.id].digest) == DigestOf(item)))
  {
    hide ValidItem, PendingOfKind, PendingCount, Encode, FindItem, Drafted, Trim;
    DraftedOne(c, raw, mode, now);
    CountIs(c.items, raw.kind, StoredAs(c, raw, 1).scope);
    assert FindItem(c.items, raw.id).None?;
  }

  /** The same submission again: nothing the caller chose differs. */
  predicate SameAgain(c: Coord, existing: Item, raw: Item) {
    var item := StoredAs(c, raw, 1);
    && existing.id == item.id && existing.kind == item.kind && existing.priority == item.priority && existing.delivery == item.delivery
    && existing.scope == item.scope && existing.tag == item.tag && existing.payload == item.payload && existing.rejection == item.rejection
  }

  /** A live identity is answered with the item it has, and nothing is added; with anything else about it, it is refused. */
  lemma DuplicateExact(c: Coord, k: nat, raw: Item, mode: Mode, now: nat, ok: bool)
    requires ItemsOk(c.scope, c.nextSequence, c.items) && k < |c.items| && c.items[k].id == raw.id
    requires raw.id !in c.delivered && !mode.record
    ensures var (n, r) := Enqueue(c, [raw], mode, now, ok);
      n == c && r == if SameAgain(c, c.items[k], raw) then Success([c.items[k]]) else Failure(Conflict(raw.id))
  {
    hide Encode, FindItem, Drafted, Precedes, ValidItem, SameSubmission, SameAgain;
    DraftedOne(c, raw, mode, now);
    assert Fits(c.scope, c.nextSequence, c.items[k]);
    FoundIs(c, k);
    AgainIs(c, c.items[k], raw);
    assert [] + [c.items[k]] == [c.items[k]];
  }

  lemma AgainIs(c: Coord, existing: Item, raw: Item)
    requires existing.id == raw.id
    ensures SameSubmission(existing, Normal(c.scope, raw)) <==> SameAgain(c, existing, raw)
  {}

  lemma FoundIs(c: Coord, k: nat)
    requires ItemsOk(c.scope, c.nextSequence, c.items) && k < |c.items|
    ensures FindItem(c.items, c.items[k].id) == Some(c.items[k])
  {
    hide ItemsOk;
    assert c.items[k] in c.items;
    var found := FindItem(c.items, c.items[k].id).value;
    var j :| 0 <= j < |c.items| && c.items[j] == found;
    O.OnePlace(c, j, k);
  }

  /** A delivered identity is answered as processing without entering the queue; a receipted submission of it is refused. */
  lemma DeliveredAgain(c: Coord, raw: Item, mode: Mode, now: nat, ok: bool)
    requires raw.id != Id("") && raw.id in c.delivered && !(mode.record && raw.id in c.receipts)
    ensures var (n, r) := Enqueue(c, [raw], mode, now, ok);
      && n == c
      && (mode.record ==> r == Failure(Conflict(raw.id)))
      && (!mode.record ==> r.Success? && |r.value| == 1 && r.value[0].id == raw.id && r.value[0].state == Processing && r.value[0].payload == raw.payload)
  {
    hide Encode, Drafted, FindItem;
    DraftedOne(c, raw, mode, now);
  }

  /** A receipted retry of a settled identity is answered from its receipt: same sequence and time, no item, no write. */
  lemma RetryExact(c: Coord, raw: Item, mode: Mode, now: nat, ok: bool)
    requires raw.id != Id("") && mode.record && raw.id in c.receipts && ValidReceipt(c.receipts[raw.id]) && forall i :: i in c.items ==> i.id != raw.id
    ensures var (n, r) := Enqueue(c, [raw], mode, now, ok);
      var receipt := c.receipts[raw.id];
      var item := StoredAs(c, raw, now).(sequence := receipt.sequence, enqueuedAt := receipt.enqueuedAt, state := Processing);
      && n == c
      && (r.Success? <==>
            ValidItem(c.scope, item) && receipt.id == raw.id && receipt.kind == raw.kind && receipt.scope == item.scope && Some(receipt.digest) == DigestOf(item))
      && (r.Success? ==> r.value == [item])
  {
    hide Encode, Drafted, FindItem, ValidItem, Trim;
    DraftedOne(c, raw, mode, now);
    assert FindItem(c.items, raw.id).None?;
  }

  // ---------------------------------------------------------------- the bound

  lemma {:induction false} CountMore(items: seq<Item>, item: Item, kind: Kind, scope: Scope)
    ensures PendingCount(items + [item], kind, scope) ==
      PendingCount(items, kind, scope) + if item.state == Pending && item.kind == kind && item.scope == scope then 1 else 0
  {
    if items == [] {
      assert ([] + [item])[1..] == [];
    } else {
      assert (items + [item])[1..] == items[1..] + [item];
      CountMore(items[1..], item, kind, scope);
    }
  }

  /** A bounded submission never brings the pending prompts of its scope above the bound, and is refused exactly when they are at it. */
  lemma SubmitWithinBound(own: Scope, ops: seq<Op>, raw: Item, maxPending: nat, now: nat, ok: bool)
    requires AllowedRun(Init(own), ops)
    ensures var c := Run(Init(own), ops);
      var (n, r) := Submit(c, raw, maxPending, now, ok);
      && (n.items != c.items ==> PendingCount(c.items, UserPrompt, own) < maxPending && PendingCount(n.items, UserPrompt, own) <= maxPending)
      && (Unknown(c, raw, Mode(None, true)) && raw.kind == UserPrompt && StoredAs(c, raw, now).scope == own && PendingCount(c.items, UserPrompt, own) >= maxPending ==>
            r == Failure(InputError.Full))
  {
    hide Run, AllowedRun, Enqueue, PendingCount, ValidItem, Trim;
    var c := Run(Init(own), ops);
    var mode := Mode(Some((UserPrompt, maxPending)), true);
    InitGood(own);
    RunKeeps(Init(own), ops);
    SubmitStays(c, raw, mode, now, ok);
    if Unknown(c, raw, mode) {
      NewItemExact(c, raw, mode, now, ok);
      CountMore(c.items, StoredAs(c, raw, now), UserPrompt, own);
      ScopeOwn(c, StoredAs(c, raw, now));
      if Full(c, raw, mode) { FullError(c, raw, mode, now, ok); }
    }
  }

  lemma ScopeOwn(c: Coord, item: Item)
    ensures ValidItem(c.scope, item) ==> item.scope == c.scope
  {}

  lemma FullError(c: Coord, raw: Item, mode: Mode, now: nat, ok: bool)
    requires Unknown(c, raw, mode) && Full(c, raw, mode)
    ensures Enqueue(c, [raw], mode, now, ok).1 == Failure(InputError.Full)
  {
    hide PendingOfKind, PendingCount, Encode, FindItem, Drafted;
    DraftedOne(c, raw, mode, now);
    CountIs(c.items, raw.kind, StoredAs(c, raw, 1).scope);
    assert FindItem(c.items, raw.id).None?;
  }

  /** Only an unknown identity changes the items. */
  lemma SubmitStays(c: Coord, raw: Item, mode: Mode, now: nat, ok: bool)
    ensures !Unknown(c, raw, mode) ==> Enqueue(c, [raw], mode, now, ok).0.items == c.items
  {
    hide PendingOfKind, Encode, FindItem, Drafted, ValidItem, ReceiptFor, ReceiptMatches, DigestOf, SameSubmission;
    DraftedOne(c, raw, mode, now);
  }

  // ---------------------------------------------------------------- a batch

  /** The submissions one after the other, each with a good write. */
  ghost function EnqueueEach(c: Coord, raws: seq<Item>, mode: Mode, now: nat): (r: Result<(Coord, seq<Item>), InputError>)
    decreases |raws|
  {
    if raws == [] then Success((c, []))
    else
      match Enqueue(c, [raws[0]], mode, now, true)
      case (_, Failure(e)) => Failure(e)
      case (next, Success(answer)) =>
        match EnqueueEach(next, raws[1..], mode, now)
        case Failure(e) => Failure(e)
        case Success((last, answers)) => Success((last, answer + answers))
  }

  /** A draft in the middle of a batch, and the coordinator that the submissions so far would have left. */
  predicate Level(d: Draft, c: Coord) {
    d.items == c.items && d.receipts == c.receipts && d.nextSequence == c.nextSequence
  }

  lemma OneLevel(own: Scope, delivered: set<ItemId>, d: Draft, c: Coord, raw: Item, mode: Mode, now: nat)
    requires Level(d, c) && c.scope == own && c.delivered == delivered
    ensures var one := EnqueueOne(own, delivered, d, raw, mode, now);
      var (n, r) := Enqueue(c, [raw], mode, now, true);
      && (one.Failure? ==> r == Failure(one.error) && n == c)
      && (one.Success? ==> r.Success? && Level(one.value, n) && n.scope == own && n.delivered == delivered && one.value.accepted == d.accepted + r.value)
  {
    hide PendingOfKind, Encode, FindItem, Drafted, ValidItem, ReceiptFor, ReceiptMatches, DigestOf, SameSubmission;
    DraftedOne(c, raw, mode, now);
  }

  lemma {:induction false} BatchLevel(own: Scope, delivered: set<ItemId>, d: Draft, c: Coord, raws: seq<Item>, mode: Mode, now: nat, i: nat)
    requires Level(d, c) && c.scope == own && c.delivered == delivered && i <= |raws|
    ensures var all := EnqueueFrom(own, delivered, d, raws, mode, now, i);
      var each := EnqueueEach(c, raws[i..], mode, now);
      && (all.Failure? ==> each == Failure(all.error))
      && (all.Success? ==> each.Success? && Level(all.value, each.value.0) && all.value.accepted == d.accepted + each.value.1)
    decreases |raws| - i
  {
    hide EnqueueOne, Enqueue;
    if i < |raws| {
      OneLevel(own, delivered, d, c, raws[i], mode, now);
      var one := EnqueueOne(own, delivered, d, raws[i], mode, now);
      assert raws[i..][0] == raws[i] && raws[i..][1..] == raws[i + 1..];
      if one.Success? {
        var (next, r) := Enqueue(c, [raws[i]], mode, now, true);
        BatchLevel(own, delivered, one.value, next, raws, mode, now, i + 1);
        var rest := EnqueueEach(next, raws[i + 1..], mode, now);
        if rest.Success? { assert (d.accepted + r.value) + rest.value.1 == d.accepted + (r.value + rest.value.1); }
      }
    } else {
      assert raws[i..] == [];
    }
  }

  /** A batch is its submissions one after the other, in one write: all enter and are answered, or none does. */
  lemma BatchIsSequence(c: Coord, raws: seq<Item>, mode: Mode, now: nat, ok: bool)
    ensures var (n, r) := Enqueue(c, raws, mode, now, ok);
      var each := EnqueueEach(c, raws, mode, now);
      && (each.Failure? ==> r == Failure(each.error))
      && (each.Success? && ok ==>
            && r == Success(each.value.1) && n.items == each.value.0.items && n.receipts == each.value.0.receipts
            && n.nextSequence == each.value.0.nextSequence && n.revision <= c.revision + 1)
      && (r.Failure? ==> n == c)
  {
    hide EnqueueFrom, EnqueueEach, Encode;
    var d := Draft(c.items, c.receipts, c.nextSequence, [], false);
    BatchLevel(c.scope, c.delivered, d, c, raws, mode, now, 0);
    assert raws[0..] == raws;
    UnchangedDraft(c.scope, c.delivered, d, raws, mode, now, 0);
    var each := EnqueueEach(c, raws, mode, now);
    if each.Success? { assert [] + each.value.1 == each.value.1; }
  }

  lemma OneUnchanged(own: Scope, delivered: set<ItemId>, d: Draft, raw: Item, mode: Mode, now: nat)
    ensures var one := EnqueueOne(own, delivered, d, raw, mode, now);
      one.Success? ==> (d.changed ==> one.value.changed) && (!one.value.changed ==> one.value == d.(accepted := one.value.accepted))
  {
    hide PendingOfKind, FindItem, ValidItem, ReceiptFor, ReceiptMatches, DigestOf, SameSubmission;
  }

  lemma {:induction false} UnchangedDraft(own: Scope, delivered: set<ItemId>, d: Draft, raws: seq<Item>, mode: Mode, now: nat, i: nat)
    requires i <= |raws|
    ensures var all := EnqueueFrom(own, delivered, d, raws, mode, now, i);
      all.Success? ==> (d.changed ==> all.value.changed) && (!all.value.changed ==> all.value == d.(accepted := all.value.accepted))
    decreases |raws| - i
  {
    hide EnqueueOne;
    if i < |raws| {
      OneUnchanged(own, delivered, d, raws[i], mode, now);
      var one := EnqueueOne(own, delivered, d, raws[i], mode, now);
      if one.Success? { UnchangedDraft(own, delivered, one.value, raws, mode, now, i + 1); }
    }
  }

  // ---------------------------------------------------------------- digests

  predicate Blank(s: string) {
    forall i :: 0 <= i < |s| ==> s[i] == ' ' || s[i] == '\t' || s[i] == '\n' || s[i] == '\r'
  }

  lemma {:induction false} TrimLeftIs(s: string) returns (n: nat)
    ensures n <= |s| && Blank(s[..n]) && TrimLeft(s) == s[n..] && (n < |s| ==> !IsSpace(s[n]))
  {
    n := 0;
    if s != "" && IsSpace(s[0]) {
      var m := TrimLeftIs(s[1..]);
      n := m + 1;
      assert s[..n] == [s[0]] + s[1..][..m];
      assert s[n..] == s[1..][m..];
    }
  }

  lemma {:induction false} TrimRightIs(s: string) returns (n: nat)
    ensures n <= |s| && Blank(s[n..]) && TrimRight(s) == s[..n] && (n > 0 ==> !IsSpace(s[n - 1]))
  {
    n := |s|;
    if s != "" && IsSpace(s[|s| - 1]) {
      var front := s[..|s| - 1];
      n := TrimRightIs(front);
      assert s[n..] == front[n..] + [s[|s| - 1]];
      assert s[..n] == front[..n];
    }
  }

  /** Trimming takes the blanks off both ends, all of them and nothing else. */
  lemma TrimExact(s: string) returns (a: nat, b: nat)
    ensures a <= b <= |s| && Blank(s[..a]) && Blank(s[b..]) && Trim(s) == s[a..b]
    ensures a < b ==> !Blank(s[a..a + 1]) && !Blank(s[b - 1..b])
  {
    a := TrimLeftIs(s);
    var t := s[a..];
    var n := TrimRightIs(t);
    b := a + n;
    assert s[b..] == t[n..] && s[a..b] == t[..n];
    if n > 0 { assert s[a..a + 1][0] == s[a] && s[b - 1..b][0] == t[n - 1]; }
  }

  /** Two text prompts have one digest exactly when their texts agree up to blanks and everything else the caller chose agrees. */
  lemma DigestExact(a: Item, b: Item)
    requires a.kind == UserPrompt && b.kind == UserPrompt && a.payload.Text? && b.payload.Text?
    requires Trim(a.payload.prompt) != "" && Trim(b.payload.prompt) != ""
    ensures DigestOf(a).Some? && DigestOf(b).Some?
    ensures DigestOf(a) == DigestOf(b) <==>
      && Trim(a.payload.prompt) == Trim(b.payload.prompt) && Shown(a.payload) == Shown(b.payload)
      && (a.priority == b.priority || (a.priority == Unset && b.priority == Next) || (a.priority == Next && b.priority == Unset))
      && a.delivery == b.delivery && a.scope == b.scope && a.tag.isMeta == b.tag.isMeta
      && Trim(a.tag.origin) == Trim(b.tag.origin) && Trim(a.tag.provenance) == Trim(b.tag.provenance)
  {
    hide Trim;
  }

  /** What a prompt shows: its display text, or the prompt itself where there is none. */
  function Shown(p: Payload): (r: string)
    requires p.Text?
  {
    if Trim(p.display) != "" then Trim(p.display) else Trim(p.prompt)
  }

  /** A second receipted submission of one identity with another text is refused, whatever happened between. */
  lemma AnotherTextRefused(c: Coord, first: Item, ops: seq<Op>, second: Item, max1: nat, now1: nat, ok1: bool, max2: nat, now2: nat, ok2: bool)
    requires Inv(c) && now1 > 0 && second.id == first.id && first.kind == UserPrompt && second.kind == UserPrompt
    requires first.payload.Text? && second.payload.Text? && Trim(first.payload.prompt) != Trim(second.payload.prompt)
    requires Submit(c, first, max1, now1, ok1).1.Success? && AllowedRun(Submit(c, first, max1, now1, ok1).0, ops)
    ensures Submit(Run(Submit(c, first, max1, now1, ok1).0, ops), second, max2, now2, ok2).1.Failure?
  {
    hide Submit, Inv, Run, AllowedRun, Trim;
    AdmittedOnce(c, first, ops, second, max1, now1, ok1, max2, now2, ok2);
    var a, b := Normal(c.scope, first), Normal(c.scope, second);
    if Trim(a.payload.prompt) != "" && Trim(b.payload.prompt) != "" { DigestExact(a, b); }
  }
}
