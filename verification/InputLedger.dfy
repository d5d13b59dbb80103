/**
 * The durable runtime-input ledger as values (engine/input_coordinator.go): items, admission
 * receipts, their validation, and what one call of the coordinator does to them.
 */
module InputLedger {
  import opened Basics
  import opened RuntimeTypes

  datatype Priority = Unset | Now | Next | Later | OtherPriority

  datatype Delivery = DefaultDelivery | Steer | NextTurn | OtherDelivery

  datatype Kind =
    | UserPrompt | Steering | AgentMessage | AgentNotification | AsyncRewake
    | PermissionDecision | GoalContinuation | Stop | OtherKind

  datatype ItemState = Pending | Processing | Rejected

  /** Prompts keep their text; the other payloads are opaque apart from their kind and well-formedness. */
  datatype Payload =
    | Text(display: string, prompt: string)
    | Cursor(identity: CursorIdentity)
    | Opaque(kind: Kind, body: string, wellFormed: bool)

  datatype Label = Label(isMeta: bool, origin: string, provenance: string)

  datatype Rejection = Rejection(code: string, at: nat)

  /** A zero `enqueuedAt` or `at` is Go's zero time. */
  datatype Item = Item(
    version: nat,
    id: ItemId,
    kind: Kind,
    priority: Priority,
    delivery: Delivery,
    scope: Scope,
    sequence: nat,
    enqueuedAt: nat,
    state: ItemState,
    tag: Label,
    payload: Payload,
    rejection: Option<Rejection>)

  /** The fields the source hashes for a receipt. */
  datatype Digest = Digest(priority: Priority, delivery: Delivery, scope: Scope, isMeta: bool,
                           origin: string, provenance: string, display: string, prompt: string)

  datatype Receipt = Receipt(id: ItemId, kind: Kind, scope: Scope, digest: Digest, sequence: nat, enqueuedAt: nat)

  /** The file: receipts are written in sequence order. */
  datatype Envelope = Envelope(revision: nat, nextSequence: nat, items: seq<Item>, receipts: seq<Receipt>)

  /** One coordinator: its fields, and `disk`, what its ledger file holds. */
  datatype Coord = Coord(
    scope: Scope,
    revision: nat,
    nextSequence: nat,
    items: seq<Item>,
    receipts: map<ItemId, Receipt>,
    delivered: set<ItemId>,
    recoveryPending: bool,
    disk: Envelope)

  datatype InputError =
    | EmptyId | Conflict(id: ItemId) | NoDigest | Full | InvalidItem | InvalidReceipt | ReceiptMismatch
    | CorruptRejection | EmptyCode | NotClaimed | ExplicitInputPending | WriteFailed

  // ---------------------------------------------------------------- validation

  const ITEM_VERSION: nat := 1
  const DELIVERY_VERSION: nat := 2

  predicate ValidPayload(item: Item) {
    match item.kind
    case UserPrompt => PromptPayload(item)
    case Steering => PromptPayload(item)
    case GoalContinuation =>
      && item.payload.Cursor?
      && item.payload.identity.scope == item.scope
      && item.id == ContinuationItem(item.payload.identity)
      && ValidCursorIdentity(item.payload.identity)
    case OtherKind => false
    case _ => item.payload.Opaque? && item.payload.kind == item.kind && item.payload.wellFormed
  }

  /** A prompt is inline text, or an opaque durable record of prompt kind. */
  predicate PromptPayload(item: Item) {
    match item.payload
    case Text(_, prompt) => Trim(prompt) != ""
    case Opaque(kind, _, wellFormed) => kind == UserPrompt && wellFormed
    case Cursor(_) => false
  }

  predicate ValidItem(scope: Scope, item: Item) {
    && (item.version == ITEM_VERSION || item.version == DELIVERY_VERSION)
    && (match item.state
        case Rejected =>
          item.kind == GoalContinuation && item.rejection.Some? && item.rejection.value.code != "" && item.rejection.value.at > 0
        case _ => item.rejection.None?)
    && (item.priority == Now || item.priority == Next || item.priority == Later)
    && item.delivery != OtherDelivery
    && (item.delivery != DefaultDelivery ==> item.version == DELIVERY_VERSION && item.kind == UserPrompt)
    && item.scope.sessionId != ""
    && item.scope == scope
    && ValidPayload(item)
  }

  function NormalPriority(p: Priority): (r: Priority) {
    if p == Unset then Next else p
  }

  function NormalScope(own: Scope, scope: Scope): (r: Scope) {
    Scope(
      if scope.sessionId == "" then own.sessionId else scope.sessionId,
      if scope.threadId == "" then own.threadId else scope.threadId,
      if scope.agentId == "" then own.agentId else scope.agentId)
  }

  function Normal(own: Scope, item: Item): (r: Item) {
    item.(
      version := if item.delivery != DefaultDelivery then DELIVERY_VERSION else ITEM_VERSION,
      priority := NormalPriority(item.priority),
      scope := NormalScope(own, item.scope))
  }

  // ---------------------------------------------------------------- receipts

  /** Only a plain text user prompt has a digest. */
  function DigestOf(item: Item): (r: Option<Digest>) {
    if item.kind != UserPrompt || !item.payload.Text? || Trim(item.payload.prompt) == "" then None
    else
      var prompt := Trim(item.payload.prompt);
      var display := Trim(item.payload.display);
      Some(Digest(NormalPriority(item.priority), item.delivery, item.scope, item.tag.isMeta,
                  Trim(item.tag.origin), Trim(item.tag.provenance),
                  if display == "" then prompt else display, prompt))
  }

  predicate ValidReceipt(r: Receipt) {
    r.id != Id("") && r.kind == UserPrompt && r.scope.sessionId != "" && r.sequence > 0 && r.enqueuedAt > 0
  }

  function ReceiptFor(item: Item): (r: Option<Receipt>)
    ensures r.Some? ==> ValidReceipt(r.value) && r.value.id == item.id && ReceiptCovers(r.value, item)
  {
    match DigestOf(item)
    case None => None
    case Some(digest) =>
      var receipt := Receipt(item.id, item.kind, item.scope, digest, item.sequence, item.enqueuedAt);
      if ValidReceipt(receipt) then Some(receipt) else None
  }

  predicate ReceiptMatches(receipt: Receipt, item: Item) {
    && DigestOf(item).Some?
    && receipt.id == item.id
    && receipt.kind == item.kind
    && receipt.scope == item.scope
    && receipt.digest == DigestOf(item).value
  }

  /** What recovery demands of a live item and its receipt. */
  predicate ReceiptCovers(receipt: Receipt, item: Item) {
    ReceiptMatches(receipt, item) && receipt.sequence == item.sequence && receipt.enqueuedAt == item.enqueuedAt
  }

  /** A receipt with the smallest sequence exists in every non-empty table. */
  lemma {:induction false} LeastReceipt(m: map<ItemId, Receipt>) returns (id: ItemId)
    requires m != map[]
    ensures id in m && forall k :: k in m ==> m[id].sequence <= m[k].sequence
    decreases |m|
  {
    id :| id in m;
    var rest := m - {id};
    if rest != map[] {
      var other := LeastReceipt(rest);
      assert forall k :: k in m ==> k == id || (k in rest && rest[k] == m[k]);
      if m[other].sequence < m[id].sequence { id := other; }
    } else {
      forall k | k in m ensures k == id { assert k in rest || k == id; }
    }
  }

  /** The order in which receipts are written: by sequence. */
  ghost function Ordered(m: map<ItemId, Receipt>): (r: seq<Receipt>)
    decreases |m|
  {
    if m == map[] then [] else
      assert exists id :: id in m && forall k :: k in m ==> m[id].sequence <= m[k].sequence by {
        var id := LeastReceipt(m);
      }
      var id :| id in m && forall k :: k in m ==> m[id].sequence <= m[k].sequence;
      [m[id]] + Ordered(m - {id})
  }

  ghost function Encode(c: Coord): (e: Envelope) {
    Envelope(c.revision, c.nextSequence, c.items, Ordered(c.receipts))
  }

  // ---------------------------------------------------------------- lookups

  function FindItem(items: seq<Item>, id: ItemId): (r: Option<Item>)
    ensures r.Some? ==> r.value in items && r.value.id == id
    ensures r.None? <==> forall i :: i in items ==> i.id != id
  {
    if items == [] then None
    else if items[0].id == id then Some(items[0])
    else FindItem(items[1..], id)
  }

  /** The first index at or after `from` whose item passes; `|items|` when none does. */
  function FirstIndex(items: seq<Item>, pass: Item -> bool, from: nat): (r: nat)
    requires from <= |items|
    ensures from <= r <= |items|
    ensures forall i :: from <= i < r ==> !pass(items[i])
    ensures r < |items| ==> pass(items[r])
    decreases |items| - from
  {
    if from == |items| || pass(items[from]) then from else FirstIndex(items, pass, from + 1)
  }

  function PendingOfKind(items: seq<Item>, kind: Kind, scope: Scope): (r: nat) {
    |Filter(items, (i: Item) => i.state == Pending && i.kind == kind && i.scope == scope)|
  }

  /** Pending work a person typed: a user prompt or steering. */
  predicate ExplicitInput(item: Item, scope: Scope) {
    item.state == Pending && item.scope == scope && (item.kind == UserPrompt || item.kind == Steering)
  }

  // ---------------------------------------------------------------- scheduling order

  function Ordinal(p: Priority): (r: nat) {
    match p
    case Now => 0
    case Later => 2
    case _ => 1
  }

  predicate Before(a: Item, b: Item) {
    Ordinal(a.priority) < Ordinal(b.priority) || (Ordinal(a.priority) == Ordinal(b.priority) && a.sequence < b.sequence)
  }

  predicate InOrder(s: seq<Item>) {
    forall i, j :: 0 <= i < j < |s| ==> !Before(s[j], s[i])
  }

  function Insert(x: Item, s: seq<Item>): (r: seq<Item>)
    ensures multiset(r) == multiset(s) + multiset{x}
  {
    if s == [] || !Before(s[0], x) then [x] + s
    else
      assert s == [s[0]] + s[1..];
      [s[0]] + Insert(x, s[1..])
  }

  lemma InsertMembers(x: Item, s: seq<Item>)
    ensures forall y :: y in Insert(x, s) <==> y == x || y in s
  {
    forall y ensures y in Insert(x, s) <==> y == x || y in s {
      assert y in Insert(x, s) <==> y in multiset(Insert(x, s));
      assert y in s <==> y in multiset(s);
    }
  }

  lemma {:induction false} InsertKeepsOrder(x: Item, s: seq<Item>)
    requires InOrder(s)
    ensures InOrder(Insert(x, s))
  {
    var r := Insert(x, s);
    if s == [] || !Before(s[0], x) {
      forall i, j | 0 <= i < j < |r| ensures !Before(r[j], r[i]) {
        if i > 0 { assert r[i] == s[i - 1] && r[j] == s[j - 1]; } else { assert r[j] == s[j - 1]; }
      }
    } else {
      var rest := Insert(x, s[1..]);
      InsertKeepsOrder(x, s[1..]);
      InsertMembers(x, s[1..]);
      forall j | 0 <= j < |rest| ensures !Before(rest[j], s[0]) {
        assert rest[j] in rest;
        if rest[j] != x { assert rest[j] in s[1..]; var k :| 0 <= k < |s[1..]| && s[1..][k] == rest[j]; }
      }
      forall i, j | 0 <= i < j < |r| ensures !Before(r[j], r[i]) {
        if i > 0 { assert r[i] == rest[i - 1] && r[j] == rest[j - 1]; } else { assert r[j] == rest[j - 1]; }
      }
    }
  }

  /** sort.SliceStable by priority, then sequence. */
  function Sorted(s: seq<Item>): (r: seq<Item>)
    ensures multiset(r) == multiset(s)
  {
    if s == [] then [] else
      assert s == [s[0]] + s[1..];
      Insert(s[0], Sorted(s[1..]))
  }

  lemma {:induction false} SortedInOrder(s: seq<Item>)
    ensures InOrder(Sorted(s))
  {
    if s != [] {
      SortedInOrder(s[1..]);
      InsertKeepsOrder(s[0], Sorted(s[1..]));
    }
  }

  predicate InScope(c: Coord, item: Item, scope: Scope) {
    item.state == Pending && item.scope == NormalScope(c.scope, scope)
  }

  function ScopePick(c: Coord, scope: Scope): (r: Item -> bool) {
    (i: Item) => InScope(c, i, scope)
  }

  /** The pending items of a scope in scheduling order. */
  function Snapshot(c: Coord, scope: Scope): (r: seq<Item>) {
    Sorted(Filter(c.items, ScopePick(c, scope)))
  }

  // ---------------------------------------------------------------- commits

  /** A write replaces the file and then memory, or leaves both alone. */
  ghost function Commit(c: Coord, items: seq<Item>, nextSequence: nat, receipts: map<ItemId, Receipt>): (r: Coord) {
    var next := c.(items := items, nextSequence := nextSequence, receipts := receipts, revision := c.revision + 1);
    next.(disk := Encode(next))
  }

  ghost function SetItems(c: Coord, items: seq<Item>): (r: Coord) {
    Commit(c, items, c.nextSequence, c.receipts)
  }

  function Claimed(item: Item): (r: Item) {
    item.(state := Processing)
  }

  function ClaimAll(items: seq<Item>, pick: Item -> bool): (r: seq<Item>)
    ensures |r| == |items|
    ensures forall i :: 0 <= i < |items| ==> r[i] == if pick(items[i]) then Claimed(items[i]) else items[i]
  {
    seq(|items|, i requires 0 <= i < |items| => if pick(items[i]) then Claimed(items[i]) else items[i])
  }

  function Marked(items: seq<Item>): (r: seq<Item>)
    ensures |r| == |items|
    ensures forall i :: 0 <= i < |items| ==> r[i] == Claimed(items[i])
  {
    ClaimAll(items, _ => true)
  }

  // ---------------------------------------------------------------- enqueue

  /** `bound` limits how many pending items of one kind may exist; `record` asks for a receipt. */
  datatype Mode = Mode(bound: Option<(Kind, nat)>, record: bool)

  datatype Draft = Draft(items: seq<Item>, receipts: map<ItemId, Receipt>, nextSequence: nat, accepted: seq<Item>, changed: bool)

  /** The same submission as a live item, apart from what the ledger itself assigned. */
  predicate SameSubmission(existing: Item, item: Item) {
    existing == item.(version := existing.version, sequence := existing.sequence,
                      enqueuedAt := existing.enqueuedAt, state := existing.state)
  }

  function Accept(d: Draft, item: Item): (r: Draft) {
    d.(accepted := d.accepted + [item])
  }

  function EnqueueOne(own: Scope, delivered: set<ItemId>, d: Draft, raw: Item, mode: Mode, now: nat): (r: Result<Draft, InputError>) {
    var item := Normal(own, raw);
    if item.id == Id("") then Failure(EmptyId)
    else if mode.record && item.id in d.receipts then Retry(own, d, item)
    else if item.id in delivered then
      if mode.record then Failure(Conflict(item.id)) else Success(Accept(d, item.(state := Processing)))
    else
      match FindItem(d.items, item.id)
      case Some(existing) => Resubmit(d, existing, item, mode)
      case None => Append(own, d, item, mode, now)
  }

  /** A receipted submission whose identity already has a receipt. */
  function Retry(own: Scope, d: Draft, item: Item): (r: Result<Draft, InputError>)
    requires item.id in d.receipts
  {
    var receipt := d.receipts[item.id];
    if !ValidReceipt(receipt) then Failure(InvalidReceipt)
    else if DigestOf(item).None? then Failure(NoDigest)
    else if !ReceiptMatches(receipt, item) then Failure(Conflict(item.id))
    else
      match FindItem(d.items, item.id)
      case Some(existing) =>
        if SameSubmission(existing, item) then Success(Accept(d, existing)) else Failure(Conflict(item.id))
      case None =>
        var settled := item.(sequence := receipt.sequence, enqueuedAt := receipt.enqueuedAt, state := Processing);
        if ValidItem(own, settled) then Success(Accept(d, settled)) else Failure(InvalidItem)
  }

  function Resubmit(d: Draft, existing: Item, item: Item, mode: Mode): (r: Result<Draft, InputError>) {
    if !SameSubmission(existing, item) then Failure(Conflict(item.id))
    else if !mode.record then Success(Accept(d, existing))
    else
      match ReceiptFor(existing)
      case None => Failure(NoDigest)
      case Some(receipt) => Success(Accept(d.(receipts := d.receipts[item.id := receipt], changed := true), existing))
  }

  function Append(own: Scope, d: Draft, item: Item, mode: Mode, now: nat): (r: Result<Draft, InputError>) {
    if mode.bound.Some? && item.kind == mode.bound.value.0 &&
       PendingOfKind(d.items, item.kind, item.scope) >= mode.bound.value.1 then Failure(Full)
    else
      var entry := item.(sequence := d.nextSequence + 1,
                         enqueuedAt := if item.enqueuedAt == 0 then now else item.enqueuedAt,
                         state := Pending);
      if !ValidItem(own, entry) then Failure(InvalidItem)
      else if mode.record && ReceiptFor(entry).None? then Failure(NoDigest)
      else
        Success(Draft(
          d.items + [entry],
          if mode.record then d.receipts[entry.id := ReceiptFor(entry).value] else d.receipts,
          d.nextSequence + 1,
          d.accepted + [entry],
          true))
  }

  function EnqueueFrom(own: Scope, delivered: set<ItemId>, d: Draft, raws: seq<Item>, mode: Mode, now: nat, i: nat): (r: Result<Draft, InputError>)
    requires i <= |raws|
    decreases |raws| - i
  {
    if i == |raws| then Success(d)
    else
      match EnqueueOne(own, delivered, d, raws[i], mode, now)
      case Failure(e) => Failure(e)
      case Success(next) => EnqueueFrom(own, delivered, next, raws, mode, now, i + 1)
  }

  function Drafted(c: Coord, raws: seq<Item>, mode: Mode, now: nat): (r: Result<Draft, InputError>) {
    EnqueueFrom(c.scope, c.delivered, Draft(c.items, c.receipts, c.nextSequence, [], false), raws, mode, now, 0)
  }

  /** `ok` is whether the ledger write succeeds, if one is attempted. */
  ghost function Enqueue(c: Coord, raws: seq<Item>, mode: Mode, now: nat, ok: bool): (r: (Coord, Result<seq<Item>, InputError>)) {
    match Drafted(c, raws, mode, now)
    case Failure(e) => (c, Failure(e))
    case Success(d) =>
      if !d.changed then (c, Success(d.accepted))
      else if !ok then (c, Failure(WriteFailed))
      else (Commit(c, d.items, d.nextSequence, d.receipts), Success(d.accepted))
  }

  // ---------------------------------------------------------------- claims and settlement

  predicate SafePointEligible(item: Item, includeUser: bool, allowLater: bool) {
    && item.kind != Stop && item.kind != GoalContinuation
    && (item.kind == UserPrompt ==> item.delivery != NextTurn && (includeUser || item.delivery == Steer))
    && (item.priority == Later ==> allowLater)
  }

  predicate IdleEligible(item: Item) {
    item.kind != Stop && item.kind != GoalContinuation
  }

  function SafePick(c: Coord, scope: Scope, includeUser: bool, allowLater: bool): (r: Item -> bool) {
    (i: Item) => InScope(c, i, scope) && SafePointEligible(i, includeUser, allowLater)
  }

  function IdlePick(c: Coord, scope: Scope): (r: Item -> bool) {
    (i: Item) => InScope(c, i, scope) && IdleEligible(i)
  }

  function StopPick(c: Coord, scope: Scope): (r: Item -> bool) {
    (i: Item) => InScope(c, i, scope) && i.kind == Stop
  }

  function IdPick(id: ItemId, state: ItemState): (r: Item -> bool) {
    (i: Item) => i.id == id && i.state == state
  }

  function ContinuationPick(id: ItemId): (r: Item -> bool) {
    (i: Item) => i.id == id && i.kind == GoalContinuation
  }

  function Unsettled(ids: set<ItemId>): (r: Item -> bool) {
    (i: Item) => i.id !in ids
  }

  function Uncancelled(id: ItemId): (r: Item -> bool) {
    (i: Item) => !(i.id == id && i.state == Pending)
  }

  ghost function ClaimSafePoint(c: Coord, scope: Scope, includeUser: bool, allowLater: bool, ok: bool): (r: (Coord, Result<seq<Item>, InputError>)) {
    var pick := SafePick(c, scope, includeUser, allowLater);
    var chosen := Filter(c.items, pick);
    if chosen == [] then (c, Success([]))
    else if !ok then (c, Failure(WriteFailed))
    else (SetItems(c, ClaimAll(c.items, pick)), Success(Marked(Sorted(chosen))))
  }

  /** The linear scan of ClaimNextIdle: the best index among the first `n` items, or `|items|`. */
  function BestIndex(items: seq<Item>, pick: Item -> bool, n: nat): (r: nat)
    requires n <= |items|
    ensures r < n || r == |items|
    ensures r < n ==> pick(items[r]) && forall i :: 0 <= i < n && pick(items[i]) ==> !Before(items[i], items[r])
    ensures r < n ==> forall i :: 0 <= i < r && pick(items[i]) ==> Before(items[r], items[i])
    ensures r == |items| ==> forall i :: 0 <= i < n ==> !pick(items[i])
  {
    if n == 0 then |items|
    else
      var best := BestIndex(items, pick, n - 1);
      if pick(items[n - 1]) && (best == |items| || Before(items[n - 1], items[best])) then n - 1 else best
  }

  ghost function ClaimAt(c: Coord, index: nat, ok: bool): (r: (Coord, Result<Option<Item>, InputError>)) {
    if index >= |c.items| then (c, Success(None))
    else if !ok then (c, Failure(WriteFailed))
    else (SetItems(c, c.items[index := Claimed(c.items[index])]), Success(Some(Claimed(c.items[index]))))
  }

  ghost function ClaimNextIdle(c: Coord, scope: Scope, ok: bool): (r: (Coord, Result<Option<Item>, InputError>)) {
    ClaimAt(c, BestIndex(c.items, IdlePick(c, scope), |c.items|), ok)
  }

  ghost function ClaimStop(c: Coord, scope: Scope, ok: bool): (r: (Coord, Result<Option<Item>, InputError>)) {
    ClaimAt(c, FirstStop(c.items, StopPick(c, scope), |c.items|), ok)
  }

  /** The lowest-sequence match among the first `n` items, or `|items|`. */
  function FirstStop(items: seq<Item>, pick: Item -> bool, n: nat): (r: nat)
    requires n <= |items|
    ensures r < n || r == |items|
    ensures r < n ==> pick(items[r]) && forall i :: 0 <= i < n && pick(items[i]) ==> items[r].sequence <= items[i].sequence
    ensures r == |items| ==> forall i :: 0 <= i < n ==> !pick(items[i])
  {
    if n == 0 then |items|
    else
      var best := FirstStop(items, pick, n - 1);
      if pick(items[n - 1]) && (best == |items| || items[n - 1].sequence < items[best].sequence) then n - 1 else best
  }

  ghost function ClaimById(c: Coord, id: ItemId, ok: bool): (r: (Coord, Result<Option<Item>, InputError>)) {
    ClaimAt(c, FirstIndex(c.items, IdPick(id, Pending), 0), ok)
  }

  predicate IsContinuation(item: Item, id: ItemId, scope: Scope, state: ItemState) {
    item.state == state && item.id == id && item.kind == GoalContinuation && item.scope == scope
  }

  /** The last matching index, or none when explicit input is pending in the scope. */
  function ContinuationIndex(items: seq<Item>, id: ItemId, scope: Scope, state: ItemState, n: nat): (r: Result<nat, InputError>)
    requires n <= |items|
    ensures r.Failure? <==> exists i :: 0 <= i < n && ExplicitInput(items[i], scope)
    ensures r.Failure? ==> r.error == ExplicitInputPending
    ensures r.Success? ==> r.value < n || r.value == |items|
    ensures r.Success? && r.value < n ==> IsContinuation(items[r.value], id, scope, state)
    ensures r == Success(|items|) ==> forall i :: 0 <= i < n ==> !IsContinuation(items[i], id, scope, state)
  {
    if n == 0 then Success(|items|)
    else
      match ContinuationIndex(items, id, scope, state, n - 1)
      case Failure(e) => Failure(e)
      case Success(index) =>
        if IsContinuation(items[n - 1], id, scope, state) then Success(n - 1)
        else if ExplicitInput(items[n - 1], scope) then Failure(ExplicitInputPending)
        else Success(index)
  }

  ghost function ClaimContinuation(c: Coord, id: ItemId, scope: Scope, ok: bool): (r: (Coord, Result<Option<Item>, InputError>)) {
    match ContinuationIndex(c.items, id, NormalScope(c.scope, scope), Pending, |c.items|)
    case Failure(_) => (c, Success(None))
    case Success(index) => ClaimAt(c, index, ok)
  }

  /** withGoalContinuationAdmission: the claimed item, or why it may not be admitted now. */
  function AdmissionItem(c: Coord, id: ItemId, scope: Scope): (r: Result<Item, InputError>) {
    match ContinuationIndex(c.items, id, NormalScope(c.scope, scope), Processing, |c.items|)
    case Failure(e) => Failure(e)
    case Success(index) => if index == |c.items| then Failure(NotClaimed) else Success(c.items[index])
  }

  ghost function Release(c: Coord, id: ItemId, ok: bool): (r: (Coord, Result<bool, InputError>)) {
    var index := FirstIndex(c.items, IdPick(id, Processing), 0);
    if index == |c.items| then (c, Success(false))
    else if !ok then (c, Failure(WriteFailed))
    else (SetItems(c, c.items[index := c.items[index].(state := Pending)]), Success(true))
  }

  ghost function RejectContinuation(c: Coord, id: ItemId, code: string, at: nat, now: nat, ok: bool): (r: (Coord, Result<bool, InputError>)) {
    if code == "" then (c, Failure(EmptyCode))
    else
      var index := FirstIndex(c.items, ContinuationPick(id), 0);
      if index == |c.items| then (c, Success(false))
      else if c.items[index].state == Rejected then
        if c.items[index].rejection.None? then (c, Failure(CorruptRejection)) else (c, Success(false))
      else if !ok then (c, Failure(WriteFailed))
      else
        var rejected := c.items[index].(state := Rejected, rejection := Some(Rejection(code, if at == 0 then now else at)));
        (SetItems(c, c.items[index := rejected]), Success(true))
  }

  ghost function Settle(c: Coord, ids: set<ItemId>, ok: bool): (r: (Coord, Result<bool, InputError>)) {
    var kept := Filter(c.items, Unsettled(ids));
    if |kept| == |c.items| then (c.(delivered := c.delivered + ids), Success(false))
    else if !ok then (c, Failure(WriteFailed))
    else (SetItems(c, kept).(delivered := c.delivered + ids), Success(true))
  }

  ghost function Cancel(c: Coord, id: ItemId, ok: bool): (r: (Coord, Result<bool, InputError>)) {
    var kept := Filter(c.items, Uncancelled(id));
    if |kept| == |c.items| then (c, Success(false))
    else if !ok then (c, Failure(WriteFailed))
    else (SetItems(c, kept), Success(true))
  }

  /** `found` is what the transcript lookup reports for the identities asked about. */
  function ResolveDelivered(c: Coord, ids: set<ItemId>, found: set<ItemId>): (r: (Coord, set<ItemId>)) {
    var entry := found * (ids - c.delivered);
    (c.(delivered := c.delivered + entry), ids * (c.delivered + entry))
  }

  // ---------------------------------------------------------------- recovery

  function LoadReceipts(own: Scope, nextSequence: nat, rs: seq<Receipt>, i: nat, acc: map<ItemId, Receipt>): (r: Result<map<ItemId, Receipt>, InputError>)
    requires i <= |rs|
    decreases |rs| - i
  {
    if i == |rs| then Success(acc)
    else if !ValidReceipt(rs[i]) || rs[i].scope != own || rs[i].sequence > nextSequence then Failure(InvalidReceipt)
    else if (exists k :: k in acc && acc[k].sequence == rs[i].sequence) || rs[i].id in acc then Failure(InvalidReceipt)
    else LoadReceipts(own, nextSequence, rs, i + 1, acc[rs[i].id := rs[i]])
  }

  datatype Recovery = Recovery(items: seq<Item>, receipts: map<ItemId, Receipt>, changed: bool)

  predicate Dropped(item: Item, covered: set<ItemId>) {
    item.state == Rejected || item.id in covered || item.kind == Stop
  }

  function RecoverOne(own: Scope, covered: set<ItemId>, r: Recovery, item: Item): (next: Result<Recovery, InputError>) {
    if !ValidItem(own, item) then Failure(InvalidItem)
    else if item.id in r.receipts && !(ValidReceipt(r.receipts[item.id]) && ReceiptCovers(r.receipts[item.id], item)) then
      Failure(ReceiptMismatch)
    else
      var adds := item.id !in r.receipts && ReceiptFor(item).Some?;
      var receipts := if adds then r.receipts[item.id := ReceiptFor(item).value] else r.receipts;
      if Dropped(item, covered) then Success(Recovery(r.items, receipts, true))
      else
        Success(Recovery(
          r.items + [item.(state := Pending)],
          receipts,
          r.changed || adds || item.state == Processing))
  }

  function RecoverFrom(own: Scope, covered: set<ItemId>, items: seq<Item>, i: nat, r: Recovery): (result: Result<Recovery, InputError>)
    requires i <= |items|
    decreases |items| - i
  {
    if i == |items| then Success(r)
    else
      match RecoverOne(own, covered, r, items[i])
      case Failure(e) => Failure(e)
      case Success(next) => RecoverFrom(own, covered, items, i + 1, next)
  }

  function Ids(items: seq<Item>): (r: set<ItemId>) {
    set i | i in items :: i.id
  }

  function Recovered(own: Scope, e: Envelope, covered: set<ItemId>): (r: Result<Recovery, InputError>) {
    match LoadReceipts(own, e.nextSequence, e.receipts, 0, map[])
    case Failure(error) => Failure(error)
    case Success(receipts) => RecoverFrom(own, covered, e.items, 0, Recovery([], receipts, false))
  }

  /** NewRuntimeInputCoordinator over an existing file; `known` and `found` are the transcript's delivered identities. */
  ghost function Recover(own: Scope, e: Envelope, known: set<ItemId>, found: set<ItemId>, deferred: bool, ok: bool): (r: Result<Coord, InputError>) {
    var delivered := known + found * (Ids(e.items) - known);
    match Recovered(own, e, Ids(e.items) * delivered)
    case Failure(error) => Failure(error)
    case Success(rec) =>
      var c := Coord(own, e.revision, e.nextSequence, rec.items, rec.receipts, delivered, false, e);
      if !rec.changed then Success(c)
      else if deferred then Success(c.(recoveryPending := true))
      else if ok then Success(SetItems(c, rec.items))
      else Failure(WriteFailed)
  }

  ghost function CommitRecovery(c: Coord, ok: bool): (r: (Coord, Result<bool, InputError>)) {
    if !c.recoveryPending then (c, Success(false))
    else if !ok then (c, Failure(WriteFailed))
    else (SetItems(c, c.items).(recoveryPending := false), Success(true))
  }
}
