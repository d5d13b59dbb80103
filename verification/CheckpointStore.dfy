/** projectGraphCheckpointStore (engine/graph_hitl.go): opaque graph state and the interrupt that owns it. */
module CheckpointStore {
  import opened Basics

  const ENVELOPE_VERSION: nat := 1
  const REQUEST_VERSION: nat := 1

  /** projectGraphHITLRequest; `consistent` stands for its decision-constraint and plan-approval checks. */
  datatype Request = Request(version: nat, requestId: string, interruptId: string, digest: string, policy: string, tool: string,
                             session: string, kind: string, consistent: bool)

  predicate ValidRequest(r: Request) {
    && r.version == REQUEST_VERSION
    && r.requestId != "" && r.interruptId != "" && r.digest != "" && r.policy != "" && r.tool != "" && r.session != "" && r.kind != ""
    && r.consistent
  }

  datatype Envelope = Envelope(version: nat, checkpointId: string, payload: seq<bv8>, interrupt: Option<Request>)

  const NOTHING := Envelope(0, "", [], None)

  datatype StoreError = WrongCheckpoint | EmptyPayload | NoPayload | InvalidRequest | WriteFailed | Refused

  /** `durable` is whether the store has a path; `disk` is the file at it. */
  datatype Store = Store(checkpointId: string, durable: bool, envelope: Envelope, disk: Option<Envelope>)

  /** persistLocked, then the assignment to envelope. */
  function Persist(s: Store, next: Envelope, ok: bool): (r: (Store, Option<StoreError>)) {
    if !s.durable then (s.(envelope := next), None)
    else if !ok then (s, Some(WriteFailed))
    else (s.(envelope := next, disk := Some(next)), None)
  }

  predicate Named(s: Store, checkpointId: string) {
    checkpointId != "" && checkpointId == s.checkpointId
  }

  function Get(s: Store, checkpointId: string): (r: Result<Option<seq<bv8>>, StoreError>) {
    if !Named(s, checkpointId) then Failure(WrongCheckpoint)
    else if s.envelope.payload == [] then Success(None)
    else Success(Some(s.envelope.payload))
  }

  function Set(s: Store, checkpointId: string, payload: seq<bv8>, ok: bool): (r: (Store, Option<StoreError>)) {
    if !Named(s, checkpointId) then (s, Some(WrongCheckpoint))
    else if payload == [] then (s, Some(EmptyPayload))
    else Persist(s, Envelope(ENVELOPE_VERSION, s.checkpointId, payload, None), ok)
  }

  function MarkInterrupt(s: Store, r: Request, ok: bool): (out: (Store, Option<StoreError>)) {
    if s.envelope.payload == [] then (s, Some(NoPayload))
    else if !ValidRequest(r) then (s, Some(InvalidRequest))
    else Persist(s, s.envelope.(interrupt := Some(r)), ok)
  }

  function Delete(s: Store, checkpointId: string, ok: bool): (r: (Store, Option<StoreError>)) {
    if !Named(s, checkpointId) then (s, Some(WrongCheckpoint))
    else if s.durable && !ok then (s, Some(WriteFailed))
    else (s.(envelope := NOTHING, disk := if s.durable then None else s.disk), None)
  }

  /** newProjectGraphCheckpointStore over what the path holds. */
  function Reload(checkpointId: string, durable: bool, disk: Option<Envelope>): (r: Result<Store, StoreError>) {
    if !durable || disk.None? then Success(Store(checkpointId, durable, NOTHING, disk))
    else
      var e := disk.value;
      if e.version != ENVELOPE_VERSION || e.checkpointId != checkpointId || e.payload == [] || e.interrupt.None? || !ValidRequest(e.interrupt.value)
      then Failure(Refused)
      else Success(Store(checkpointId, durable, e, disk))
  }

  // ---------------------------------------------------------------- runs

  datatype Op =
    | SetOp(checkpointId: string, payload: seq<bv8>, ok: bool)
    | MarkOp(request: Request, ok: bool)
    | DeleteOp(checkpointId: string, ok: bool)
    | RestartOp

  function Step(s: Store, op: Op): (r: (Store, Option<StoreError>)) {
    match op
    case SetOp(id, payload, ok) => Set(s, id, payload, ok)
    case MarkOp(request, ok) => MarkInterrupt(s, request, ok)
    case DeleteOp(id, ok) => Delete(s, id, ok)
    case RestartOp =>
      match Reload(s.checkpointId, s.durable, s.disk)
      case Failure(e) => (s, Some(e))
      case Success(next) => (next, None)
  }

  /** Successful payload writes so far, and the number of the one that each committed interrupt was marked on. */
  datatype History = History(payloads: seq<seq<bv8>>, marks: map<nat, Request>)

  function Note(h: History, op: Op, failed: bool): (r: History) {
    if failed then h
    else
      match op
      case SetOp(_, payload, _) => h.(payloads := h.payloads + [payload])
      case MarkOp(request, _) => h.(marks := h.marks[|h.payloads| := request])
      case _ => h
  }

  datatype World = World(s: Store, h: History)

  function Next(w: World, op: Op): (r: World) {
    var (s, error) := Step(w.s, op);
    World(s, Note(w.h, op, error.Some?))
  }

  function Run(w: World, ops: seq<Op>): (r: World)
    decreases |ops|
  {
    if ops == [] then w else Run(Next(w, ops[0]), ops[1..])
  }

  /** The payload is the latest one written, and an interrupt beside it is the latest marked on that very payload. */
  predicate Owned(e: Envelope, checkpointId: string, h: History) {
    e == NOTHING ||
    (&& e.version == ENVELOPE_VERSION && e.checkpointId == checkpointId
     && h.payloads != [] && e.payload == h.payloads[|h.payloads| - 1] && e.payload != []
     && (e.interrupt.Some? ==> ValidRequest(e.interrupt.value) && |h.payloads| in h.marks && h.marks[|h.payloads|] == e.interrupt.value))
  }

  /** Marks only exist for payloads written, and none yet for the next one. */
  predicate WorldOk(w: World) {
    && Owned(w.s.envelope, w.s.checkpointId, w.h)
    && (forall k :: k in w.h.marks ==> k <= |w.h.payloads|)
    && (w.s.durable ==> w.s.disk == if w.s.envelope == NOTHING then None else Some(w.s.envelope))
  }

  lemma NextOk(w: World, op: Op)
    requires WorldOk(w)
    ensures WorldOk(Next(w, op)) && Next(w, op).s.durable == w.s.durable && Next(w, op).s.checkpointId == w.s.checkpointId
  {}

  lemma {:induction false} RunOk(w: World, ops: seq<Op>)
    requires WorldOk(w)
    ensures WorldOk(Run(w, ops)) && Run(w, ops).s.durable == w.s.durable && Run(w, ops).s.checkpointId == w.s.checkpointId
    decreases |ops|
  {
    hide WorldOk, Next;
    if ops != [] {
      NextOk(w, ops[0]);
      RunOk(Next(w, ops[0]), ops[1..]);
    }
  }

  function Init(checkpointId: string, durable: bool): (w: World) {
    World(Store(checkpointId, durable, NOTHING, None), History([], map[]))
  }

  /** After any run, a present interrupt was marked after the last payload was written, and on that payload. */
  lemma InterruptBinding(checkpointId: string, durable: bool, ops: seq<Op>)
    ensures var w := Run(Init(checkpointId, durable), ops);
      w.s.envelope.interrupt.Some? ==>
        && w.h.payloads != [] && w.s.envelope.payload == w.h.payloads[|w.h.payloads| - 1]
        && |w.h.payloads| in w.h.marks && w.h.marks[|w.h.payloads|] == w.s.envelope.interrupt.value
  {
    hide Run;
    RunOk(Init(checkpointId, durable), ops);
  }

  /**
   * After any run, a restart yields the very pair in memory when there is an interrupt, nothing when there is no payload,
   * and a refusal exactly when there is a payload without an interrupt.
   */
  lemma ReloadExact(checkpointId: string, ops: seq<Op>)
    ensures var s := Run(Init(checkpointId, true), ops).s;
      var r := Reload(s.checkpointId, s.durable, s.disk);
      && (r.Failure? <==> s.envelope.payload != [] && s.envelope.interrupt.None?)
      && (r.Success? ==> r.value == s)
  {
    hide Run;
    RunOk(Init(checkpointId, true), ops);
  }

  /** Without a path nothing survives: a restart yields an empty store. */
  lemma ReloadUnstored(checkpointId: string, ops: seq<Op>)
    ensures var s := Run(Init(checkpointId, false), ops).s;
      Reload(s.checkpointId, s.durable, s.disk) == Success(Store(checkpointId, false, NOTHING, s.disk))
  {
    hide Run;
    RunOk(Init(checkpointId, false), ops);
  }

  // ---------------------------------------------------------------- what a call leaves to be read

  /** A payload that was accepted is what is read next, in memory and after the file; it has no interrupt yet. */
  lemma WriteThenRead(s: Store, id: string, payload: seq<bv8>, ok: bool)
    ensures var (n, error) := Set(s, id, payload, ok);
      && (error.None? <==> id != "" && id == s.checkpointId && payload != [] && (s.durable ==> ok))
      && (error.Some? ==> n == s)
      && (error.None? ==>
            Get(n, id) == Success(Some(payload)) && n.envelope.interrupt.None? && (s.durable ==> n.disk == Some(n.envelope)) && (!s.durable ==> n.disk == s.disk))
  {}

  /** An interrupt that was accepted is beside the very payload that was there. */
  lemma MarkThenRead(s: Store, r: Request, ok: bool)
    ensures var (n, error) := MarkInterrupt(s, r, ok);
      && (error.None? <==> s.envelope.payload != [] && ValidRequest(r) && (s.durable ==> ok))
      && (error.Some? ==> n == s)
      && (error.None? ==>
            && n.envelope.interrupt == Some(r) && n.envelope.payload == s.envelope.payload
            && (forall id :: Get(n, id) == Get(s, id)) && (s.durable ==> n.disk == Some(n.envelope)))
  {}

  /** A file is accepted exactly when it is of this version and for this checkpoint, and holds a payload with a valid interrupt. */
  lemma ReloadAccepts(checkpointId: string, e: Envelope)
    ensures var r := Reload(checkpointId, true, Some(e));
      && (r.Success? <==>
            e.version == 1 && e.checkpointId == checkpointId && e.payload != [] && e.interrupt.Some? && ValidRequest(e.interrupt.value))
      && (r.Success? ==> r.value == Store(checkpointId, true, e, Some(e)))
  {}

  /** After a deletion there is nothing to read, in memory or on disk. */
  lemma RemoveThenRead(s: Store, id: string, ok: bool)
    ensures var (n, error) := Delete(s, id, ok);
      && (error.None? <==> id != "" && id == s.checkpointId && (s.durable ==> ok))
      && (error.Some? ==> n == s)
      && (error.None? ==> Get(n, id) == Success(None) && n.envelope.interrupt.None? && (s.durable ==> n.disk.None?))
  {}

  // ---------------------------------------------------------------- the object

  class GraphCheckpointStore {
    const checkpointId: string
    const durable: bool
    var envelope: Envelope
    var disk: Option<Envelope>

    ghost function View(): (s: Store)
      reads this
    {
      Store(checkpointId, durable, envelope, disk)
    }

    constructor (checkpointId: string, durable: bool, envelope: Envelope, disk: Option<Envelope>)
      ensures View() == Store(checkpointId, durable, envelope, disk)
    {
      this.checkpointId, this.durable, this.envelope, this.disk := checkpointId, durable, envelope, disk;
    }

    static method Open(checkpointId: string, durable: bool, disk: Option<Envelope>) returns (r: Result<GraphCheckpointStore, StoreError>)
      ensures match Reload(checkpointId, durable, disk)
        case Failure(e) => r == Failure(e)
        case Success(s) => r.Success? && fresh(r.value) && r.value.View() == s
    {
      var envelope := NOTHING;
      if durable && disk.Some? {
        var e := disk.value;
        if e.version != ENVELOPE_VERSION { return Failure(Refused); }
        if e.checkpointId != checkpointId { return Failure(Refused); }
        if e.payload == [] { return Failure(Refused); }
        if e.interrupt.None? { return Failure(Refused); }
        if !ValidRequest(e.interrupt.value) { return Failure(Refused); }
        envelope := e;
      }
      var store := new GraphCheckpointStore(checkpointId, durable, envelope, disk);
      return Success(store);
    }

    method PersistEnvelope(next: Envelope, ok: bool) returns (error: Option<StoreError>)
      modifies this
      ensures (View(), error) == Persist(old(View()), next, ok)
    {
      if durable {
        if !ok { return Some(WriteFailed); }
        disk := Some(next);
      }
      envelope := next;
      return None;
    }

    method Read(id: string) returns (r: Result<Option<seq<bv8>>, StoreError>)
      ensures r == Get(View(), id)
    {
      if id == "" || id != checkpointId { return Failure(WrongCheckpoint); }
      if envelope.payload == [] { return Success(None); }
      return Success(Some(envelope.payload));
    }

    method Write(id: string, payload: seq<bv8>, ok: bool) returns (error: Option<StoreError>)
      modifies this
      ensures (View(), error) == Set(old(View()), id, payload, ok)
    {
      if id == "" || id != checkpointId { return Some(WrongCheckpoint); }
      if payload == [] { return Some(EmptyPayload); }
      var next := envelope.(version := ENVELOPE_VERSION, checkpointId := checkpointId, payload := payload);
      next := next.(interrupt := None);
      error := PersistEnvelope(next, ok);
    }

    method Mark(request: Request, ok: bool) returns (error: Option<StoreError>)
      modifies this
      ensures (View(), error) == MarkInterrupt(old(View()), request, ok)
    {
      if envelope.payload == [] { return Some(NoPayload); }
      if !ValidRequest(request) { return Some(InvalidRequest); }
      error := PersistEnvelope(envelope.(interrupt := Some(request)), ok);
    }

    method Remove(id: string, ok: bool) returns (error: Option<StoreError>)
      modifies this
      ensures (View(), error) == Delete(old(View()), id, ok)
    {
      if id == "" || id != checkpointId { return Some(WrongCheckpoint); }
      if durable {
        if !ok { return Some(WriteFailed); }
        disk := None;
      }
      envelope := NOTHING;
      return None;
    }
  }
}
