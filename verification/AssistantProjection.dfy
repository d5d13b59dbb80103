/**
 * assistantProjectionEmitter (engine/assistant_projection.go): message identities and exact-byte deltas, in front of the
 * history.  Content is a sequence of bytes, written as a string.
 */
module AssistantProjection {
  import opened Basics
  import opened TranscriptLog

  /** What the emitter yields: an event untouched, an assistant event stamped with its identity, or a delta. */
  datatype Emitted = Passed(event: Event) | Offered(id: string, event: Event) | Delta(id: string, bytes: string)

  datatype Emitter = Emitter(messageId: string, delivered: string, failed: bool, ordinal: nat, out: seq<Emitted>)

  const START := Emitter("", "", false, 0, [])

  function Put(s: Emitter, x: Emitted): (r: Emitter) {
    s.(out := s.out + [x])
  }

  function PutDelta(s: Emitter, bytes: string): (r: Emitter) {
    if bytes == "" then s else Put(s, Delta(s.messageId, bytes))
  }

  /** An assistant event, the bytes it adds, and those bytes remembered. */
  function Deliver(s: Emitter, e: Event, bytes: string): (r: Emitter)
    ensures r.messageId == s.messageId && r.delivered == s.delivered + bytes && r.failed == s.failed
  {
    PutDelta(Put(s, Offered(s.messageId, e)), bytes).(delivered := s.delivered + bytes)
  }

  /** emitFinal. */
  function EmitFinal(s: Emitter, e: Event, m: Message): (r: Emitter) {
    if s.delivered == "" then Deliver(s, e, m.content)
    else if m.content == s.delivered then s
    else if s.delivered <= m.content then
      var suffix := m.content[|s.delivered|..];
      Deliver(s, e.(kind := Chunk(m.(content := suffix))), suffix)
    else s.(failed := true)
  }

  /** emitAssistant; `uuid` is what the generator would return, empty when it cannot. */
  function EmitAssistant(s: Emitter, e: Event, m: Message, uuid: string): (r: Emitter) {
    if s.failed then s
    else
      var named := if s.messageId == "" then s.(messageId := uuid) else s;
      if named.messageId == "" then s.(failed := true)
      else if e.kind.FinalAssistant? then EmitFinal(named, e, m)
      else Deliver(named, e, m.content)
  }

  function Reset(s: Emitter): (r: Emitter) {
    s.(messageId := "", delivered := "")
  }

  function Emit(s: Emitter, e: Event, uuid: string): (r: Emitter) {
    var next := s.(ordinal := s.ordinal + 1);
    var current := if e.rejected then Reset(next) else next;
    match e.kind
    case StreamStart => Put(Reset(next), Passed(e))
    case EmptyAssistant => if current.failed then current else Put(current, Passed(e))
    case FinalAssistant(m) => EmitAssistant(current, e, m, uuid)
    case Chunk(m) => EmitAssistant(current, e, m, uuid)
    case _ => Put(next, Passed(e))
  }

  // ---------------------------------------------------------------- deltas per identity

  /** The concatenation of all deltas with this identity. */
  function DeltasOf(out: seq<Emitted>, id: string): (r: string) {
    if out == [] then ""
    else
      var last := out[|out| - 1];
      var before := DeltasOf(out[..|out| - 1], id);
      if last.Delta? && last.id == id then before + last.bytes else before
  }

  /** The concatenation of all deltas. */
  function AllDeltas(out: seq<Emitted>): (r: string) {
    if out == [] then ""
    else
      var before := AllDeltas(out[..|out| - 1]);
      if out[|out| - 1].Delta? then before + out[|out| - 1].bytes else before
  }

  lemma PutOne(s: Emitter, x: Emitted)
    ensures forall id :: DeltasOf(Put(s, x).out, id) == if x.Delta? && x.id == id then DeltasOf(s.out, id) + x.bytes else DeltasOf(s.out, id)
    ensures AllDeltas(Put(s, x).out) == if x.Delta? then AllDeltas(s.out) + x.bytes else AllDeltas(s.out)
  {
    var out := Put(s, x).out;
    assert out[..|out| - 1] == s.out;
  }

  lemma DeliverDeltas(s: Emitter, e: Event, bytes: string)
    ensures var n := Deliver(s, e, bytes);
      && (forall id :: DeltasOf(n.out, id) == if id == s.messageId then DeltasOf(s.out, id) + bytes else DeltasOf(s.out, id))
      && AllDeltas(n.out) == AllDeltas(s.out) + bytes
  {
    hide DeltasOf, AllDeltas;
    PutOne(s, Offered(s.messageId, e));
    PutOne(Put(s, Offered(s.messageId, e)), Delta(s.messageId, bytes));
    assert bytes == "" ==> AllDeltas(s.out) + bytes == AllDeltas(s.out) && forall id :: DeltasOf(s.out, id) + bytes == DeltasOf(s.out, id);
  }

  /** The bytes last remembered for each identity. */
  datatype Ledger = Ledger(bytes: map<string, string>)

  function Note(l: Ledger, s: Emitter): (r: Ledger) {
    if s.messageId == "" then l else Ledger(l.bytes[s.messageId := s.delivered])
  }

  ghost predicate Exact(s: Emitter, l: Ledger) {
    && (forall id :: id in l.bytes ==> id != "" && DeltasOf(s.out, id) == l.bytes[id])
    && (forall id :: id !in l.bytes ==> DeltasOf(s.out, id) == "")
    && (s.messageId != "" ==> s.messageId in l.bytes && l.bytes[s.messageId] == s.delivered)
    && (s.messageId == "" ==> s.delivered == "")
  }

  /** The generator never repeats an identity. */
  predicate Unused(l: Ledger, uuid: string) {
    uuid !in l.bytes
  }

  lemma DeliverExact(s: Emitter, l: Ledger, e: Event, bytes: string)
    requires Exact(s, l) && s.messageId != ""
    ensures Exact(Deliver(s, e, bytes), Note(l, Deliver(s, e, bytes)))
  {
    hide DeltasOf;
    DeliverDeltas(s, e, bytes);
  }

  lemma PassExact(s: Emitter, l: Ledger, e: Event)
    requires Exact(s, l)
    ensures Exact(Put(s, Passed(e)), l)
  {
    hide DeltasOf;
    PutOne(s, Passed(e));
  }

  lemma SameNote(s: Emitter, l: Ledger)
    requires Exact(s, l)
    ensures Note(l, s) == l
  {
    hide DeltasOf;
    assert s.messageId != "" ==> l.bytes[s.messageId := s.delivered] == l.bytes;
  }

  lemma NamedExact(s: Emitter, l: Ledger, uuid: string)
    requires Exact(s, l) && Unused(l, uuid) && s.messageId == "" && uuid != ""
    ensures Exact(s.(messageId := uuid), Note(l, s.(messageId := uuid)))
  {
    hide DeltasOf;
  }

  lemma AssistantExact(s: Emitter, l: Ledger, e: Event, m: Message, uuid: string)
    requires Exact(s, l) && Unused(l, uuid)
    ensures var n := EmitAssistant(s, e, m, uuid); Exact(n, Note(l, n))
  {
    hide DeltasOf, Exact, Deliver;
    SameNote(s, l);
    if !s.failed {
      var named := if s.messageId == "" then s.(messageId := uuid) else s;
      var l1 := Note(l, named);
      if named.messageId != "" {
        if s.messageId == "" { NamedExact(s, l, uuid); }
        SameNote(named, l1);
        var k := if e.kind.FinalAssistant? && named.delivered != "" && named.delivered <= m.content
                 then e.(kind := Chunk(m.(content := m.content[|named.delivered|..]))) else e;
        var bytes := if k != e then m.content[|named.delivered|..] else m.content;
        DeliverExact(named, l1, k, bytes);
        NoteTwice(l, named, Deliver(named, k, bytes));
        FailedExact(named, l1);
      } else { FailedExact(s, l); }
    }
  }

  lemma NoteTwice(l: Ledger, s: Emitter, n: Emitter)
    requires n.messageId == s.messageId
    ensures Note(Note(l, s), n) == Note(l, n)
  {
    assert l.bytes[s.messageId := s.delivered][s.messageId := n.delivered] == l.bytes[s.messageId := n.delivered];
  }

  lemma FailedExact(s: Emitter, l: Ledger)
    requires Exact(s, l)
    ensures Exact(s.(failed := true), l) && Note(l, s.(failed := true)) == Note(l, s)
  {}

  lemma ResetExact(s: Emitter, l: Ledger)
    requires Exact(s, l)
    ensures Exact(Reset(s), l)
  {}

  lemma TickExact(s: Emitter, l: Ledger)
    requires Exact(s, l)
    ensures Exact(s.(ordinal := s.ordinal + 1), l)
  {}

  lemma EmitExact(s: Emitter, l: Ledger, e: Event, uuid: string)
    requires Exact(s, l) && Unused(l, uuid)
    ensures var n := Emit(s, e, uuid); Exact(n, Note(l, n))
  {
    hide Exact, EmitAssistant;
    TickExact(s, l);
    var next := s.(ordinal := s.ordinal + 1);
    ResetExact(next, l);
    var current := if e.rejected then Reset(next) else next;
    match e.kind
    case FinalAssistant(m) => AssistantExact(current, l, e, m, uuid);
    case Chunk(m) => AssistantExact(current, l, e, m, uuid);
    case _ =>
      SameNote(current, l);
      PassExact(current, l, e);
      PassExact(next, l, e);
      PassExact(Reset(next), l, e);
      SameNote(Emit(s, e, uuid), l);
  }

  // ---------------------------------------------------------------- runs

  datatype Input = Input(event: Event, uuid: string)

  function EmitAll(s: Emitter, xs: seq<Input>): (r: Emitter)
    decreases |xs|
  {
    if xs == [] then s else EmitAll(Emit(s, xs[0].event, xs[0].uuid), xs[1..])
  }

  function NoteAll(s: Emitter, l: Ledger, xs: seq<Input>): (r: Ledger)
    decreases |xs|
  {
    if xs == [] then l else (var n := Emit(s, xs[0].event, xs[0].uuid); NoteAll(n, Note(l, n), xs[1..]))
  }

  predicate NeverRepeats(s: Emitter, l: Ledger, xs: seq<Input>)
    decreases |xs|
  {
    xs != [] ==> Unused(l, xs[0].uuid) && (var n := Emit(s, xs[0].event, xs[0].uuid); NeverRepeats(n, Note(l, n), xs[1..]))
  }

  lemma {:induction false} RunExact(s: Emitter, l: Ledger, xs: seq<Input>)
    requires Exact(s, l) && NeverRepeats(s, l, xs)
    ensures Exact(EmitAll(s, xs), NoteAll(s, l, xs))
    decreases |xs|
  {
    hide Exact, Emit, Note;
    if xs != [] {
      EmitExact(s, l, xs[0].event, xs[0].uuid);
      var n := Emit(s, xs[0].event, xs[0].uuid);
      RunExact(n, Note(l, n), xs[1..]);
    }
  }

  /** For every message identity of a query, its deltas concatenate to the bytes delivered under it; no other identity has any. */
  lemma DeltasAreDelivered(xs: seq<Input>)
    requires NeverRepeats(START, Ledger(map[]), xs)
    ensures var l, out := NoteAll(START, Ledger(map[]), xs), EmitAll(START, xs).out;
      forall id :: DeltasOf(out, id) == if id in l.bytes then l.bytes[id] else ""
  {
    hide Emit, DeltasOf, EmitAll, NoteAll, NeverRepeats;
    assert Exact(START, Ledger(map[])) by { NothingYet(); }
    RunExact(START, Ledger(map[]), xs);
  }

  lemma NothingYet()
    ensures Exact(START, Ledger(map[]))
  {}

  /** An accepted final leaves exactly its content delivered. */
  lemma FinalIsDelivered(s: Emitter, m: Message, rejected: bool, uuid: string)
    ensures var n := Emit(s, Event(FinalAssistant(m), rejected), uuid); !n.failed ==> n.delivered == m.content
  {}

  // ---------------------------------------------------------------- the output alone

  /** The content of an assistant event. */
  function ContentOf(e: Event): (r: string) {
    match e.kind
    case FinalAssistant(m) => m.content
    case Chunk(m) => m.content
    case _ => ""
  }

  /** The concatenated content of the assistant events offered under an identity. */
  function OfferedOf(out: seq<Emitted>, id: string): (r: string) {
    if out == [] then ""
    else
      var last := out[|out| - 1];
      var before := OfferedOf(out[..|out| - 1], id);
      if last.Offered? && last.id == id then before + ContentOf(last.event) else before
  }

  lemma PutOffered(s: Emitter, x: Emitted, id: string)
    ensures OfferedOf(Put(s, x).out, id) == if x.Offered? && x.id == id then OfferedOf(s.out, id) + ContentOf(x.event) else OfferedOf(s.out, id)
  {
    var out := Put(s, x).out;
    assert out[..|out| - 1] == s.out;
  }

  /** Offered content and deltas agree under this identity. */
  predicate Matched(s: Emitter, id: string) {
    DeltasOf(s.out, id) == OfferedOf(s.out, id)
  }

  lemma DeliverFor(s: Emitter, e: Event, bytes: string, id: string)
    ensures DeltasOf(Deliver(s, e, bytes).out, id) == if id == s.messageId then DeltasOf(s.out, id) + bytes else DeltasOf(s.out, id)
  {
    hide DeltasOf, AllDeltas, Deliver;
    DeliverDeltas(s, e, bytes);
  }

  lemma DeliverOffers(s: Emitter, e: Event, bytes: string, id: string)
    ensures OfferedOf(Deliver(s, e, bytes).out, id) == if id == s.messageId then OfferedOf(s.out, id) + ContentOf(e) else OfferedOf(s.out, id)
  {
    hide OfferedOf, ContentOf;
    PutOffered(s, Offered(s.messageId, e), id);
    PutOffered(Put(s, Offered(s.messageId, e)), Delta(s.messageId, bytes), id);
  }

  lemma DeliverMatched(s: Emitter, e: Event, bytes: string, id: string)
    requires Matched(s, id) && ContentOf(e) == bytes
    ensures Matched(Deliver(s, e, bytes), id)
  {
    hide DeltasOf, OfferedOf, ContentOf, Deliver;
    DeliverFor(s, e, bytes, id);
    DeliverOffers(s, e, bytes, id);
  }

  lemma EmitMatched(s: Emitter, e: Event, uuid: string, id: string)
    requires Matched(s, id)
    ensures Matched(Emit(s, e, uuid), id)
  {
    hide DeltasOf, OfferedOf, Deliver;
    var next := s.(ordinal := s.ordinal + 1);
    var current := if e.rejected then Reset(next) else next;
    if e.kind.FinalAssistant? || e.kind.Chunk? {
      var m := if e.kind.FinalAssistant? then e.kind.final else e.kind.chunk;
      var named := if current.messageId == "" then current.(messageId := uuid) else current;
      DeliverMatched(named, e, m.content, id);
      if named.delivered <= m.content {
        var suffix := m.content[|named.delivered|..];
        DeliverMatched(named, e.(kind := Chunk(m.(content := suffix))), suffix, id);
      }
    } else {
      PutOffered(next, Passed(e), id);
      PutOne(next, Passed(e));
      PutOffered(Reset(next), Passed(e), id);
      PutOne(Reset(next), Passed(e));
    }
  }

  lemma {:induction false} RunMatched(s: Emitter, xs: seq<Input>, id: string)
    requires Matched(s, id)
    ensures Matched(EmitAll(s, xs), id)
    decreases |xs|
  {
    hide Emit, DeltasOf, OfferedOf;
    if xs != [] {
      EmitMatched(s, xs[0].event, xs[0].uuid, id);
      RunMatched(Emit(s, xs[0].event, xs[0].uuid), xs[1..], id);
    }
  }

  /** Under every identity the deltas of a query concatenate to the content of the assistant events it offers. */
  lemma {:induction false} DeltasAreOffered(xs: seq<Input>, id: string)
    ensures var out := EmitAll(START, xs).out; DeltasOf(out, id) == OfferedOf(out, id)
  {
    hide EmitAll;
    StartMatched(id);
    RunMatched(START, xs, id);
  }

  lemma EmitGrows(s: Emitter, e: Event, uuid: string)
    ensures s.out <= Emit(s, e, uuid).out
  {}

  lemma {:induction false} OutGrows(s: Emitter, xs: seq<Input>)
    ensures s.out <= EmitAll(s, xs).out
    decreases |xs|
  {
    hide Emit;
    if xs != [] {
      EmitGrows(s, xs[0].event, xs[0].uuid);
      OutGrows(Emit(s, xs[0].event, xs[0].uuid), xs[1..]);
    }
  }

  lemma {:induction false} NothingMoreOffered(out: seq<Emitted>, n: nat, id: string)
    requires n <= |out| && forall i :: n <= i < |out| ==> !(out[i].Offered? && out[i].id == id)
    ensures OfferedOf(out, id) == OfferedOf(out[..n], id)
    decreases |out|
  {
    if n == |out| {
      assert out[..n] == out;
    } else {
      var front := out[..|out| - 1];
      NothingMoreOffered(front, n, id);
      assert front[..n] == out[..n];
    }
  }

  /**
   * An accepted final is the last word: however the query went before it and goes on after it, if nothing more is offered
   * under its identity, the deltas under that identity are exactly its content.
   */
  lemma FinalStands(xs: seq<Input>, x: Input, ys: seq<Input>)
    requires NeverRepeats(START, Ledger(map[]), xs) && Unused(NoteAll(START, Ledger(map[]), xs), x.uuid) && x.event.kind.FinalAssistant?
    requires var s := Emit(EmitAll(START, xs), x.event, x.uuid);
      var n := EmitAll(s, ys);
      !s.failed && forall i :: |s.out| <= i < |n.out| ==> !(n.out[i].Offered? && n.out[i].id == s.messageId)
    ensures var s := Emit(EmitAll(START, xs), x.event, x.uuid);
      DeltasOf(EmitAll(s, ys).out, s.messageId) == x.event.kind.final.content
  {
    hide DeltasOf, OfferedOf, EmitAll, NoteAll, NeverRepeats, Emit;
    var before, l := EmitAll(START, xs), NoteAll(START, Ledger(map[]), xs);
    NothingYet();
    RunExact(START, Ledger(map[]), xs);
    EmitExact(before, l, x.event, x.uuid);
    FinalIsDelivered(before, x.event.kind.final, x.event.rejected, x.uuid);
    var s := Emit(before, x.event, x.uuid);
    var n := EmitAll(s, ys);
    NamedWhenAccepted(before, x.event, x.uuid);
    DeltasAreOffered(xs, s.messageId);
    EmitMatched(before, x.event, x.uuid, s.messageId);
    RunMatched(s, ys, s.messageId);
    OutGrows(s, ys);
    NothingMoreOffered(n.out, |s.out|, s.messageId);
    assert n.out[..|s.out|] == s.out;
  }

  lemma StartMatched(id: string)
    ensures Matched(START, id)
  {}

  lemma NamedWhenAccepted(s: Emitter, e: Event, uuid: string)
    requires e.kind.FinalAssistant? && !Emit(s, e, uuid).failed
    ensures Emit(s, e, uuid).messageId != ""
  {}

  predicate Silent(x: Emitted) {
    x.Passed? && !x.event.kind.FinalAssistant? && !x.event.kind.Chunk? && !x.event.kind.EmptyAssistant?
  }

  /** After a mismatch no assistant message and no delta is ever yielded again. */
  lemma {:induction false} SilentAfterFailure(s: Emitter, xs: seq<Input>)
    requires s.failed
    ensures var n := EmitAll(s, xs);
      n.failed && s.out <= n.out && forall i :: |s.out| <= i < |n.out| ==> Silent(n.out[i])
    decreases |xs|
  {
    if xs != [] {
      SilentAfterFailure(Emit(s, xs[0].event, xs[0].uuid), xs[1..]);
    }
  }

  // ---------------------------------------------------------------- what each event yields

  predicate IsAssistant(e: Event) {
    e.kind.FinalAssistant? || e.kind.Chunk? || e.kind.EmptyAssistant?
  }

  /** The identity and the bytes an event finds: none after a rejection, or at the start of a stream. */
  function Before(s: Emitter, e: Event): (r: (string, string)) {
    if e.rejected then ("", "") else (s.messageId, s.delivered)
  }

  function DeltaOf(id: string, bytes: string): (r: seq<Emitted>) {
    if bytes == "" then [] else [Delta(id, bytes)]
  }

  /** Any event but an assistant's is yielded as it is; the start of a stream forgets the identity. */
  lemma PassesOn(s: Emitter, e: Event, uuid: string)
    requires !IsAssistant(e)
    ensures var n := Emit(s, e, uuid);
      && n.out == s.out + [Passed(e)] && n.failed == s.failed
      && (n.messageId, n.delivered) == if e.kind.StreamStart? then ("", "") else (s.messageId, s.delivered)
  {}

  /** A chunk is offered with its bytes under the identity in force, or a new one; without any, the query has failed. */
  lemma ChunkExact(s: Emitter, e: Event, uuid: string)
    requires e.kind.Chunk? && !s.failed
    ensures var n := Emit(s, e, uuid);
      var (found, bytes) := Before(s, e);
      var id := if found == "" then uuid else found;
      && (n.failed <==> id == "")
      && (n.failed ==> n.out == s.out)
      && (!n.failed ==>
            && n.messageId == id && n.delivered == bytes + e.kind.chunk.content
            && n.out == s.out + [Offered(id, e)] + DeltaOf(id, e.kind.chunk.content))
  {}

  /**
   * A final is accepted exactly when there is an identity for it and what has been delivered is a prefix of it; it then yields
   * what is missing and nothing else.
   */
  lemma FinalExact(s: Emitter, e: Event, uuid: string)
    requires e.kind.FinalAssistant? && !s.failed
    ensures var n := Emit(s, e, uuid);
      var (found, bytes) := Before(s, e);
      var id, m := if found == "" then uuid else found, e.kind.final;
      && (n.failed <==> id == "" || !(bytes <= m.content))
      && (n.failed ==> n.out == s.out)
      && (!n.failed ==>
            && n.messageId == id && n.delivered == m.content
            && (bytes == "" ==> n.out == s.out + [Offered(id, e)] + DeltaOf(id, m.content))
            && (bytes != "" && bytes == m.content ==> n.out == s.out)
            && (bytes != "" && bytes < m.content ==>
                  var missing := m.content[|bytes|..];
                  n.out == s.out + [Offered(id, Event(Chunk(m.(content := missing)), e.rejected))] + [Delta(id, missing)]))
  {}

  /** An empty assistant event is yielded as it is until the query has failed. */
  lemma EmptyExact(s: Emitter, e: Event, uuid: string)
    requires e.kind.EmptyAssistant?
    ensures var n := Emit(s, e, uuid); n.out == (if s.failed then s.out else s.out + [Passed(e)]) && (n.messageId, n.delivered) == Before(s, e)
  {}

  // ---------------------------------------------------------------- the history behind the emitter

  function FeedOne(h: History, x: Emitted, fix: seq<Message> -> seq<Message>): (r: History) {
    match x
    case Passed(e) => Observe(h, e, fix)
    case Offered(_, e) => Observe(h, e, fix)
    case Delta(_, _) => h
  }

  function Feed(h: History, out: seq<Emitted>, fix: seq<Message> -> seq<Message>): (r: History) {
    if out == [] then h else FeedOne(Feed(h, out[..|out| - 1], fix), out[|out| - 1], fix)
  }

  /** The content of the assistant messages, in order. */
  function TextOf(ms: seq<Message>): (r: string) {
    if ms == [] then ""
    else
      var last := ms[|ms| - 1];
      if last.role == Assistant then TextOf(ms[..|ms| - 1]) + last.content else TextOf(ms[..|ms| - 1])
  }

  function Text(h: History): (r: string) {
    TextOf(h.messages) + (if h.pending.Some? then h.pending.value.content else "")
  }

  predicate PendingAssistant(h: History) {
    h.pending.Some? ==> h.pending.value.role == Assistant
  }

  predicate NotAssistant(m: Option<Message>) {
    m.Some? ==> m.value.role != Assistant
  }

  /** Events of an undisturbed exchange: assistant output, tool results and attachments. */
  predicate Calm(e: Event) {
    && !e.rejected
    && match e.kind
       case FinalAssistant(m) => m.role == Assistant
       case Chunk(m) => m.role == Assistant || m.role == NoRole
       case ToolResult(m) => NotAssistant(m)
       case Attachment(m) => NotAssistant(m)
       case CompactBoundary(_, _, _) => false
       case MaxTurns(_) => false
       case Tombstone => false
       case UserInterruption => false
       case _ => true
  }

  lemma TextAppend(ms: seq<Message>, m: Message)
    ensures TextOf(ms + [m]) == if m.role == Assistant then TextOf(ms) + m.content else TextOf(ms)
  {
    assert (ms + [m])[..|ms|] == ms;
  }

  lemma FlushText(h: History)
    requires PendingAssistant(h)
    ensures Text(Flush(h)) == Text(h) && Flush(h).pending.None?
  {
    if h.pending.Some? { TextAppend(h.messages, h.pending.value); }
  }

  lemma AddText(h: History, m: Option<Message>)
    requires h.pending.None?
    ensures Text(Add(h, m)) == if m.Some? && m.value.role == Assistant then Text(h) + m.value.content else Text(h)
  {
    hide TextOf;
    if m.Some? { TextAppend(h.messages, m.value); }
  }

  /** An assistant event adds its content to the text; any other calm event adds nothing. */
  lemma ObserveText(h: History, e: Event, fix: seq<Message> -> seq<Message>)
    requires PendingAssistant(h) && Calm(e)
    ensures var n := Observe(h, e, fix);
      && PendingAssistant(n)
      && Text(n) == Text(h) + (match e.kind case FinalAssistant(m) => m.content case Chunk(m) => m.content case _ => "")
  {
    hide TextOf;
    FlushText(h);
    match e.kind
    case FinalAssistant(m) => AddText(Flush(h), Some(m));
    case ToolResult(m) => AddText(Flush(h), m);
    case Attachment(m) => AddText(Flush(h), m);
    case _ =>
  }

  lemma FeedSnoc(h: History, out: seq<Emitted>, x: Emitted, fix: seq<Message> -> seq<Message>)
    ensures Feed(h, out + [x], fix) == FeedOne(Feed(h, out, fix), x, fix)
  {
    assert (out + [x])[..|out|] == out;
  }

  /** The history has seen exactly the bytes of the deltas. */
  predicate InStep(h: History, s: Emitter, fix: seq<Message> -> seq<Message>) {
    var seen := Feed(h, s.out, fix);
    PendingAssistant(seen) && Text(seen) == Text(h) + AllDeltas(s.out)
  }

  lemma PassInStep(h: History, s: Emitter, e: Event, fix: seq<Message> -> seq<Message>)
    requires InStep(h, s, fix) && Calm(e) && !e.kind.FinalAssistant? && !e.kind.Chunk?
    ensures InStep(h, Put(s, Passed(e)), fix)
  {
    hide Feed, AllDeltas, Observe, Text;
    FeedSnoc(h, s.out, Passed(e), fix);
    ObserveText(Feed(h, s.out, fix), e, fix);
    PutOne(s, Passed(e));
  }

  lemma DeliverInStep(h: History, s: Emitter, e: Event, bytes: string, fix: seq<Message> -> seq<Message>)
    requires InStep(h, s, fix) && Calm(e)
    requires (e.kind.FinalAssistant? && e.kind.final.content == bytes) || (e.kind.Chunk? && e.kind.chunk.content == bytes)
    ensures InStep(h, Deliver(s, e, bytes), fix)
  {
    hide Feed, AllDeltas, Observe, Text;
    FeedSnoc(h, s.out, Offered(s.messageId, e), fix);
    ObserveText(Feed(h, s.out, fix), e, fix);
    FeedSnoc(h, s.out + [Offered(s.messageId, e)], Delta(s.messageId, bytes), fix);
    DeliverDeltas(s, e, bytes);
    assert (Text(h) + AllDeltas(s.out)) + bytes == Text(h) + (AllDeltas(s.out) + bytes);
  }

  lemma EmitInStep(h: History, s: Emitter, e: Event, uuid: string, fix: seq<Message> -> seq<Message>)
    requires InStep(h, s, fix) && Calm(e)
    ensures InStep(h, Emit(s, e, uuid), fix)
  {
    hide Feed, AllDeltas, Deliver;
    var next := s.(ordinal := s.ordinal + 1);
    match e.kind
    case FinalAssistant(m) =>
      var named := if s.messageId == "" then next.(messageId := uuid) else next;
      if named.delivered == "" { DeliverInStep(h, named, e, m.content, fix); }
      else if named.delivered <= m.content {
        var suffix := m.content[|named.delivered|..];
        DeliverInStep(h, named, e.(kind := Chunk(m.(content := suffix))), suffix, fix);
      }
    case Chunk(m) =>
      var named := if s.messageId == "" then next.(messageId := uuid) else next;
      DeliverInStep(h, named, e, m.content, fix);
    case _ =>
      PassInStep(h, next, e, fix);
      PassInStep(h, Reset(next), e, fix);
  }

  lemma {:induction false} RunInStep(h: History, s: Emitter, xs: seq<Input>, fix: seq<Message> -> seq<Message>)
    requires InStep(h, s, fix) && forall i :: 0 <= i < |xs| ==> Calm(xs[i].event)
    ensures InStep(h, EmitAll(s, xs), fix)
    decreases |xs|
  {
    hide InStep, Emit, Calm;
    if xs != [] {
      EmitInStep(h, s, xs[0].event, xs[0].uuid, fix);
      RunInStep(h, Emit(s, xs[0].event, xs[0].uuid), xs[1..], fix);
    }
  }

  /**
   * Fed to the history, an undisturbed exchange leaves assistant content that concatenates to exactly the bytes of the
   * deltas.
   */
  lemma {:induction false} HistoryHasTheBytes(h: History, xs: seq<Input>, fix: seq<Message> -> seq<Message>)
    requires PendingAssistant(h) && forall i :: 0 <= i < |xs| ==> Calm(xs[i].event)
    ensures var out := EmitAll(START, xs).out; Text(Feed(h, out, fix)) == Text(h) + AllDeltas(out)
  {
    hide EmitAll, Calm;
    assert InStep(h, START, fix);
    RunInStep(h, START, xs, fix);
  }

  // ---------------------------------------------------------------- the object

  /** assistantProjectionEmitter; `yielded` is what its consumer has seen. */
  class ProjectionEmitter {
    var messageId: string
    var delivered: string
    var failed: bool
    var ordinal: nat
    var yielded: seq<Emitted>

    ghost function View(): (s: Emitter)
      reads this
    {
      Emitter(messageId, delivered, failed, ordinal, yielded)
    }

    constructor ()
      ensures View() == START
    {
      messageId, delivered, failed, ordinal, yielded := "", "", false, 0, [];
    }

    method Yield(x: Emitted)
      modifies this
      ensures View() == Put(old(View()), x)
    {
      yielded := yielded + [x];
    }

    method YieldDelta(bytes: string)
      modifies this
      ensures View() == PutDelta(old(View()), bytes)
    {
      if bytes == "" { return; }
      Yield(Delta(messageId, bytes));
    }

    method Handle(e: Event, uuid: string)
      modifies this
      ensures View() == Emit(old(View()), e, uuid)
    {
      hide EmitAssistant;
      ordinal := ordinal + 1;
      if e.kind.StreamStart? {
        messageId, delivered := "", "";
        Yield(Passed(e));
      } else if e.kind.FinalAssistant? || e.kind.Chunk? || e.kind.EmptyAssistant? {
        if e.rejected { messageId, delivered := "", ""; }
        if e.kind.EmptyAssistant? {
          if !failed { Yield(Passed(e)); }
        } else {
          HandleAssistant(e, if e.kind.FinalAssistant? then e.kind.final else e.kind.chunk, uuid);
        }
      } else {
        Yield(Passed(e));
      }
    }

    method HandleAssistant(e: Event, m: Message, uuid: string)
      requires e.kind.FinalAssistant? || e.kind.Chunk?
      modifies this
      ensures View() == EmitAssistant(old(View()), e, m, uuid)
    {
      if failed { return; }
      if messageId == "" {
        messageId := uuid;
        if messageId == "" {
          failed := true;
          return;
        }
      }
      if e.kind.FinalAssistant? {
        HandleFinal(e, m);
        return;
      }
      Yield(Offered(messageId, e));
      YieldDelta(m.content);
      delivered := delivered + m.content;
    }

    method HandleFinal(e: Event, m: Message)
      modifies this
      ensures View() == EmitFinal(old(View()), e, m)
    {
      if delivered == "" {
        Yield(Offered(messageId, e));
        YieldDelta(m.content);
        delivered := delivered + m.content;
      } else if m.content == delivered {
      } else if delivered <= m.content {
        var suffix := m.content[|delivered|..];
        Yield(Offered(messageId, e.(kind := Chunk(m.(content := suffix)))));
        YieldDelta(suffix);
        delivered := delivered + suffix;
      } else {
        failed := true;
      }
    }
  }
}
