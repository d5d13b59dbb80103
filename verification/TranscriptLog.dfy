/**
 * The durable transcript against the conversation in memory (engine/engine.go, engine/transcript/persist.go): a log of
 * appended messages and whole snapshots, and the flags by which a turn decides what to write.
 */
module TranscriptLog {
  import opened Basics

  datatype Role = NoRole | User | Assistant | Tool | System

  /** A message with the fields the history looks at; `boundary` marks the start of a compacted context. */
  datatype Message = Message(role: Role, content: string, boundary: bool)

  // ---------------------------------------------------------------- the log

  datatype Entry = Line(message: Message) | Snapshot(messages: seq<Message>)

  /** What loading the transcript yields: the last snapshot and the lines after it. */
  function Decode(log: seq<Entry>): (r: seq<Message>) {
    if log == [] then []
    else
      match log[|log| - 1]
      case Line(m) => Decode(log[..|log| - 1]) + [m]
      case Snapshot(ms) => ms
  }

  function Lines(ms: seq<Message>): (r: seq<Entry>)
    ensures |r| == |ms|
  {
    if ms == [] then [] else Lines(ms[..|ms| - 1]) + [Line(ms[|ms| - 1])]
  }

  lemma {:induction false} DecodeLines(log: seq<Entry>, ms: seq<Message>)
    ensures Decode(log + Lines(ms)) == Decode(log) + ms
  {
    if ms == [] {
      assert log + Lines(ms) == log;
    } else {
      var front, last := ms[..|ms| - 1], ms[|ms| - 1];
      DecodeLines(log, front);
      var all := log + Lines(ms);
      assert all[..|all| - 1] == log + Lines(front);
      assert Decode(log) + front + [last] == Decode(log) + ms;
    }
  }

  lemma DecodeSnapshot(log: seq<Entry>, ms: seq<Message>)
    ensures Decode(log + [Snapshot(ms)]) == ms
  {}

  /** How appending messages one by one ends: all written, or an error after the first few. */
  datatype Appending = Appended | Broken(written: nat)

  function AppendTo(log: seq<Entry>, ms: seq<Message>, a: Appending): (r: (seq<Entry>, bool)) {
    if ms == [] then (log, true)
    else
      match a
      case Appended => (log + Lines(ms), true)
      case Broken(n) => (log + Lines(if n < |ms| then ms[..n] else ms), false)
  }

  /** How writing a snapshot ends; a doubtful write may or may not be visible. */
  datatype Snapping = Recorded | Rejected | Doubtful(visible: bool)

  function SnapTo(log: seq<Entry>, ms: seq<Message>, b: Snapping): (r: seq<Entry>) {
    if b == Recorded || b == Doubtful(true) then log + [Snapshot(ms)] else log
  }

  // ---------------------------------------------------------------- the history

  /** conversationHistory. */
  datatype History = History(messages: seq<Message>, pending: Option<Message>)

  datatype EventKind =
    | FinalAssistant(final: Message)
    | Chunk(chunk: Message)
    | ToolResult(result: Option<Message>)
    | Attachment(attachment: Option<Message>)
    | CompactBoundary(messages: seq<Message>, marker: Option<Message>, committed: bool)
    | MaxTurns(info: Option<Message>)
    | EmptyAssistant | StreamStart | Tombstone | UserInterruption | OtherEvent

  /** `rejected` is the event's modelRoundRejected flag. */
  datatype Event = Event(kind: EventKind, rejected: bool)

  function Flush(h: History): (r: History) {
    if h.pending.None? then h else History(h.messages + [h.pending.value], None)
  }

  function Add(h: History, m: Option<Message>): (r: History) {
    if m.None? then h else h.(messages := h.messages + [m.value])
  }

  /** mergeAssistantChunk on the modelled fields. */
  function Merge(pending: Option<Message>, chunk: Message): (r: Message) {
    var base := if pending.Some? then pending.value else Message(Assistant, "", false);
    base.(role := if chunk.role == NoRole then base.role else chunk.role, content := base.content + chunk.content)
  }

  /** conversationHistory.Observe; `fix` is repairLoadedMessages. */
  function Observe(h: History, e: Event, fix: seq<Message> -> seq<Message>): (r: History) {
    var start := if e.rejected then h.(pending := None) else h;
    if e.rejected && e.kind.ToolResult? then start
    else
      match e.kind
      case FinalAssistant(m) => Add(Flush(start), Some(m))
      case Chunk(m) => if m.role == Tool then Add(Flush(start), Some(m)) else start.(pending := Some(Merge(start.pending, m)))
      case ToolResult(m) => Add(Flush(start), m)
      case Attachment(m) => Add(Flush(start), m)
      case CompactBoundary(ms, marker, _) =>
        if ms != [] then History(ms, None)
        else if marker.Some? && marker.value.role == System && marker.value.boundary then History([marker.value], None)
        else Add(Flush(start), marker)
      case MaxTurns(info) => Add(History(fix(Flush(start).messages), None), info)
      case EmptyAssistant => start
      case StreamStart => Flush(start)
      case Tombstone => start.(pending := None)
      case UserInterruption => start.(pending := None)
      case OtherEvent => start
  }

  // ---------------------------------------------------------------- one turn

  /**
   * `count` messages are persisted; `needs` asks for a full snapshot, `compact` for a compaction snapshot, `repair` for a
   * repair of the file-state record; `failed` is whether the last write failed.
   */
  datatype Turn = Turn(log: seq<Entry>, history: History, count: nat, needs: bool, compact: bool, repair: bool, failed: bool)

  /** shouldCheckpointTranscript. */
  predicate ShouldCheckpoint(e: Event) {
    match e.kind
    case ToolResult(_) => !e.rejected
    case UserInterruption => true
    case Attachment(m) => m.Some?
    case MaxTurns(info) => info.Some?
    case FinalAssistant(_) => true
    case _ => false
  }

  function Saved(t: Turn): (r: Turn) {
    t.(count := |t.history.messages|, needs := false, failed := false)
  }

  function Unsaved(t: Turn): (r: Turn) {
    t.(needs := true, failed := true)
  }

  predicate Full(t: Turn, force: bool) {
    t.needs || t.repair || force || |t.history.messages| < t.count
  }

  /** The checkpoint shared by events and provider-origin commits: a full snapshot, or the messages not yet written. */
  function Checkpoint(t: Turn, force: bool, a: Appending, b: Snapping): (r: Turn) {
    var f := t.(history := Flush(t.history));
    var ms := f.history.messages;
    if Full(f, force) then
      var next := f.(log := SnapTo(f.log, ms, b));
      if b == Recorded then Saved(next).(repair := false) else Unsaved(next)
    else
      var (log, ok) := AppendTo(f.log, ms[f.count..], a);
      var next := f.(log := log);
      if ok then Saved(next) else Unsaved(next)
  }

  /** The compaction snapshot owed since an earlier event. */
  function SettleCompact(t: Turn, b: Snapping): (r: Turn) {
    var f := t.(history := Flush(t.history));
    var next := f.(log := SnapTo(f.log, f.history.messages, b));
    if b == Recorded then Saved(next).(repair := false, compact := false) else Unsaved(next).(compact := b == Rejected)
  }

  function OnEvent(t: Turn, e: Event, first: Snapping, a: Appending, b: Snapping, fix: seq<Message> -> seq<Message>): (r: Turn) {
    var settled := if t.compact && !e.kind.CompactBoundary? then SettleCompact(t, first) else t;
    var seen := settled.(history := Observe(settled.history, e, fix));
    if e.kind.CompactBoundary? then
      if e.kind.committed then Saved(seen.(history := Flush(seen.history))).(compact := false, repair := false)
      else seen.(compact := true)
    else if !seen.compact && ShouldCheckpoint(e) then Checkpoint(seen, e.kind.MaxTurns?, a, b)
    else seen
  }

  predicate HasAssistant(ms: seq<Message>) {
    exists i :: 0 <= i < |ms| && ms[i].role == Assistant
  }

  /** commitProviderOrigin; `session` is the outcome of the session checkpoint that follows. */
  function CommitOrigin(t: Turn, staged: bool, a: Appending, b: Snapping, session: bool): (r: (Turn, bool)) {
    var f := t.(history := Flush(t.history));
    if !HasAssistant(f.history.messages) || !staged then (f, false)
    else
      var next := Checkpoint(f, false, a, b);
      if next.failed then (next, false)
      else if !session then (Unsaved(next), false)
      else (next, true)
  }

  /** The media-recovery compaction commit: memory follows the snapshot once it is durable. */
  function CommitMedia(t: Turn, ms: seq<Message>, b: Snapping): (r: (Turn, bool)) {
    var next := t.(log := SnapTo(t.log, ms, b));
    if b == Recorded then (Saved(next.(history := History(ms, None))).(repair := false), true) else (next, false)
  }

  /** The write that ends the turn; memory then keeps the final messages. */
  function Finish(t: Turn, a: Appending, b: Snapping, session: bool): (r: Turn) {
    var f := t.(history := Flush(t.history));
    var ms := f.history.messages;
    if f.compact || Full(f, false) then
      f.(log := SnapTo(f.log, ms, b), failed := b != Recorded || !session)
    else
      var (log, ok) := AppendTo(f.log, ms[f.count..], a);
      f.(log := log, failed := !ok || !session)
  }

  /** Whether the transcript write that ends the turn succeeds. */
  predicate FinalWriteOk(t: Turn, a: Appending, b: Snapping) {
    var f := t.(history := Flush(t.history));
    if f.compact || Full(f, false) then b == Recorded else AppendTo(f.log, f.history.messages[f.count..], a).1
  }

  // ---------------------------------------------------------------- the invariant

  /** Unless a snapshot is owed, the log decodes to the persisted prefix of the history. */
  predicate Agrees(t: Turn) {
    t.compact || t.needs || (t.count <= |t.history.messages| && Decode(t.log) == t.history.messages[..t.count])
  }

  /** The messages counted as written; all of them when the history has become shorter than the count. */
  function PersistedPrefix(t: Turn): (r: seq<Message>) {
    if t.count <= |t.history.messages| then t.history.messages[..t.count] else t.history.messages
  }

  lemma CheckpointAgrees(t: Turn, force: bool, a: Appending, b: Snapping)
    requires !t.compact && (t.needs || force || (t.count <= |t.history.messages| && Decode(t.log) == t.history.messages[..t.count]))
    ensures var n := Checkpoint(t, force, a, b);
      && Agrees(n) && !n.compact
      && (!n.failed ==> Decode(n.log) == n.history.messages && n.count == |n.history.messages|)
  {
    hide Decode, Lines;
    var f := t.(history := Flush(t.history));
    var ms := f.history.messages;
    DecodeSnapshot(f.log, ms);
    if !Full(f, force) {
      assert ms[..f.count] == t.history.messages[..t.count];
      assert ms[..f.count] + ms[f.count..] == ms;
      DecodeLines(f.log, ms[f.count..]);
    }
  }

  lemma SettleAgrees(t: Turn, b: Snapping)
    ensures Agrees(SettleCompact(t, b))
  {
    hide Decode;
    var f := t.(history := Flush(t.history));
    DecodeSnapshot(f.log, f.history.messages);
    assert f.history.messages[..|f.history.messages|] == f.history.messages;
  }

  /** Observing anything but a compaction or a max-turns event only appends. */
  lemma ObserveAppends(h: History, e: Event, fix: seq<Message> -> seq<Message>)
    requires !e.kind.CompactBoundary? && !e.kind.MaxTurns?
    ensures h.messages <= Observe(h, e, fix).messages
  {}

  /** A committed compaction names exactly what the log now decodes to, and a max-turns event carries its marker. */
  predicate Expected(t: Turn, e: Event) {
    && (e.kind.CompactBoundary? && e.kind.committed ==> e.kind.messages != [] && Decode(t.log) == e.kind.messages)
    && (e.kind.MaxTurns? ==> e.kind.info.Some?)
  }

  lemma EventAgrees(t: Turn, e: Event, first: Snapping, a: Appending, b: Snapping, fix: seq<Message> -> seq<Message>)
    requires Agrees(t) && Expected(t, e)
    ensures Agrees(OnEvent(t, e, first, a, b, fix))
  {
    hide Decode, SettleCompact, Checkpoint;
    if e.kind.CompactBoundary? {
      assert e.kind.messages[..|e.kind.messages|] == e.kind.messages;
    } else {
      if t.compact { SettleAgrees(t, first); }
      var settled := if t.compact then SettleCompact(t, first) else t;
      var seen := settled.(history := Observe(settled.history, e, fix));
      if !e.kind.MaxTurns? {
        ObserveAppends(settled.history, e, fix);
        assert settled.count <= |settled.history.messages| ==> seen.history.messages[..settled.count] == settled.history.messages[..settled.count];
      }
      if !seen.compact && ShouldCheckpoint(e) { CheckpointAgrees(seen, e.kind.MaxTurns?, a, b); }
    }
  }

  lemma OriginAgrees(t: Turn, staged: bool, a: Appending, b: Snapping, session: bool)
    requires Agrees(t)
    ensures Agrees(CommitOrigin(t, staged, a, b, session).0)
  {
    hide Decode, Lines, HasAssistant;
    var f := t.(history := Flush(t.history));
    assert t.count <= |t.history.messages| ==> f.history.messages[..t.count] == t.history.messages[..t.count];
    if !t.compact { CheckpointAgrees(f, false, a, b); }
  }

  /** A media snapshot that memory does not follow did not reach the file, or a snapshot is owed, or it is the persisted prefix. */
  predicate Followed(t: Turn, ms: seq<Message>, b: Snapping) {
    b != Doubtful(true) || t.compact || t.needs || ms == PersistedPrefix(t)
  }

  lemma MediaAgrees(t: Turn, ms: seq<Message>, b: Snapping)
    requires Agrees(t) && Followed(t, ms, b)
    ensures Agrees(CommitMedia(t, ms, b).0)
  {
    hide Decode;
    DecodeSnapshot(t.log, ms);
    assert ms[..|ms|] == ms;
  }

  lemma FinishAgrees(t: Turn, a: Appending, b: Snapping, session: bool)
    requires Agrees(t) && FinalWriteOk(t, a, b)
    ensures var n := Finish(t, a, b, session); Decode(n.log) == n.history.messages
  {
    hide Decode, Lines;
    var f := t.(history := Flush(t.history));
    var ms := f.history.messages;
    DecodeSnapshot(f.log, ms);
    if !(f.compact || Full(f, false)) {
      assert ms[..f.count] == t.history.messages[..t.count];
      assert ms[..f.count] + ms[f.count..] == ms;
      DecodeLines(f.log, ms[f.count..]);
    }
  }

  // ---------------------------------------------------------------- runs

  /** One step inside a turn, with the outcomes of the writes it attempts. */
  datatype Action =
    | Saw(event: Event, first: Snapping, a: Appending, b: Snapping)
    | Origin(staged: bool, a: Appending, b: Snapping, session: bool)
    | Media(messages: seq<Message>, b: Snapping)
    | FileStateFailed

  function Do(t: Turn, x: Action, fix: seq<Message> -> seq<Message>): (r: Turn) {
    match x
    case Saw(e, first, a, b) => OnEvent(t, e, first, a, b, fix)
    case Origin(staged, a, b, session) => CommitOrigin(t, staged, a, b, session).0
    case Media(ms, b) => CommitMedia(t, ms, b).0
    case FileStateFailed => t.(repair := true)
  }

  predicate Fits(t: Turn, x: Action) {
    match x
    case Saw(e, _, _, _) => Expected(t, e)
    case Media(ms, b) => Followed(t, ms, b)
    case _ => true
  }

  function DoAll(t: Turn, xs: seq<Action>, fix: seq<Message> -> seq<Message>): (r: Turn)
    decreases |xs|
  {
    if xs == [] then t else DoAll(Do(t, xs[0], fix), xs[1..], fix)
  }

  predicate FitsAll(t: Turn, xs: seq<Action>, fix: seq<Message> -> seq<Message>)
    decreases |xs|
  {
    xs != [] ==> Fits(t, xs[0]) && FitsAll(Do(t, xs[0], fix), xs[1..], fix)
  }

  lemma {:induction false} RunAgrees(t: Turn, xs: seq<Action>, fix: seq<Message> -> seq<Message>)
    requires Agrees(t) && FitsAll(t, xs, fix)
    ensures Agrees(DoAll(t, xs, fix))
    decreases |xs|
  {
    hide Agrees, Expected, Followed, OnEvent, CommitOrigin, CommitMedia;
    if xs != [] {
      match xs[0] {
        case Saw(e, first, a, b) => EventAgrees(t, e, first, a, b, fix);
        case Origin(staged, a, b, session) => OriginAgrees(t, staged, a, b, session);
        case Media(ms, b) => MediaAgrees(t, ms, b);
        case FileStateFailed => RepairAgrees(t);
      }
      RunAgrees(Do(t, xs[0], fix), xs[1..], fix);
    }
  }

  lemma RepairAgrees(t: Turn)
    requires Agrees(t)
    ensures Agrees(t.(repair := true))
  {}

  /** What the engine keeps between turns; `required` is transcriptCheckpointRequired. */
  datatype Session = Session(log: seq<Entry>, messages: seq<Message>, required: bool)

  /**
   * How a turn begins: with new messages, where `delivery` is the outcome of marking a continuation delivered; with a
   * durable prompt record and its attachments; as the resumption of an interrupted graph; with messages that the Agent
   * runner stored before the engine was entered; or with a prompt that a hook rejects, of which only the rejection is kept.
   */
  datatype Entrance =
    | Fresh(added: seq<Message>, delivery: Option<bool>)
    | Rich(prompt: Message, attachments: seq<Message>, record: Appending)
    | Resumed
    | Seeded(added: seq<Message>)
    | HookRejected(rejection: Message)

  function Added(e: Entrance): (r: seq<Message>) {
    match e
    case Fresh(added, _) => added
    case Rich(prompt, attachments, _) => [prompt] + attachments
    case Resumed => []
    case Seeded(added) => added
    case HookRejected(_) => []
  }

  /** The first write of a turn, and whether it succeeds. */
  function FirstWrite(s: Session, e: Entrance, a: Appending, b: Snapping): (r: (seq<Entry>, bool)) {
    var base := s.messages + Added(e);
    match e
    case Fresh(added, _) => if s.required then (SnapTo(s.log, base, b), b == Recorded) else AppendTo(s.log, added, a)
    case Rich(prompt, attachments, record) =>
      var (log, ok) := AppendTo(s.log, [prompt], record);
      if !ok then (log, false)
      else if s.required then (SnapTo(log, base, b), b == Recorded)
      else AppendTo(log, attachments, a)
    case Resumed => (s.log, true)
    case Seeded(_) => (s.log, true)
    case HookRejected(rejection) => AppendTo(s.log, [rejection], a)
  }

  /** The turn after its first write, and whether it ends there, before the query starts. */
  function Start(s: Session, e: Entrance, a: Appending, b: Snapping): (r: (Turn, bool)) {
    var (log, ok) := FirstWrite(s, e, a, b);
    var t := Turn(log, History(s.messages + Added(e), None), |s.messages|, s.required, false, false, false);
    (if ok then Saved(t) else Unsaved(t),
     e.HookRejected? || (e.Rich? && !ok) || (e.Fresh? && e.delivery.Some? && !(ok && e.delivery.value)))
  }

  function End(t: Turn): (r: Session) {
    Session(t.log, t.history.messages, t.failed)
  }

  /** Between turns the log decodes to the messages in memory, or a full snapshot is due. */
  predicate Durable(s: Session) {
    s.required || Decode(s.log) == s.messages
  }

  /** What the Agent runner leaves for a child engine: a transcript rewritten to the history and the first turn. */
  function Seed(history: seq<Message>, added: seq<Message>): (s: Session) {
    Session(Lines(history + added), history, false)
  }

  lemma SeedDecodes(history: seq<Message>, added: seq<Message>)
    ensures Decode(Seed(history, added).log) == history + added
  {
    DecodeLines([], history + added);
    assert [] + Lines(history + added) == Lines(history + added);
    assert [] + (history + added) == history + added;
  }

  /** A resumption is not entered while a snapshot is due. */
  predicate Ready(s: Session, e: Entrance) {
    e.Resumed? ==> !s.required
  }

  /** A seeded turn is entered on its own seed, any other on a durable session. */
  predicate Entered(s: Session, e: Entrance) {
    if e.Seeded? then s == Seed(s.messages, e.added) else Durable(s) && Ready(s, e)
  }

  lemma RichAgrees(s: Session, e: Entrance, a: Appending, b: Snapping)
    requires Durable(s) && e.Rich?
    ensures Agrees(Start(s, e, a, b).0)
  {
    hide Decode, Lines;
    var base := s.messages + Added(e);
    var (log, ok) := AppendTo(s.log, [e.prompt], e.record);
    assert base[..|base|] == base;
    if ok {
      DecodeLines(s.log, [e.prompt]);
      DecodeLines(log, e.attachments);
      DecodeSnapshot(log, base);
      assert (s.messages + [e.prompt]) + e.attachments == base;
      assert e.attachments == [] ==> base == s.messages + [e.prompt];
    }
  }

  lemma StartAgrees(s: Session, e: Entrance, a: Appending, b: Snapping)
    requires Entered(s, e) && !Start(s, e, a, b).1
    ensures Agrees(Start(s, e, a, b).0)
  {
    hide Decode, Lines;
    var base := s.messages + Added(e);
    assert base[..|base|] == base;
    DecodeSnapshot(s.log, base);
    match e
    case Fresh(added, _) =>
      DecodeLines(s.log, added);
      assert added == [] ==> base == s.messages;
    case Rich(_, _, _) => RichAgrees(s, e, a, b);
    case Resumed => assert base == s.messages;
    case Seeded(added) => SeedDecodes(s.messages, added);
    case HookRejected(_) =>
  }

  datatype TurnScript = TurnScript(entrance: Entrance, a: Appending, b: Snapping, actions: seq<Action>,
                                   lastAppend: Appending, lastSnap: Snapping, session: bool)

  /** The turn when the query is over. */
  function Queried(s: Session, x: TurnScript, fix: seq<Message> -> seq<Message>): (r: Turn) {
    DoAll(Start(s, x.entrance, x.a, x.b).0, x.actions, fix)
  }

  predicate EndsEarly(s: Session, x: TurnScript) {
    Start(s, x.entrance, x.a, x.b).1
  }

  /** A turn that ends before its query leaves memory as it was; any other leaves its final history. */
  function Conclude(s: Session, x: TurnScript, fix: seq<Message> -> seq<Message>): (r: Session) {
    if EndsEarly(s, x) then s.(log := Start(s, x.entrance, x.a, x.b).0.log)
    else End(Finish(Queried(s, x, fix), x.lastAppend, x.lastSnap, x.session))
  }

  /** What a turn that does reach its query owes. */
  predicate Sane(s: Session, x: TurnScript, fix: seq<Message> -> seq<Message>) {
    FitsAll(Start(s, x.entrance, x.a, x.b).0, x.actions, fix)
  }

  /**
   * Through any events, compactions, failed or partly written appends, snapshots in doubt and provider-origin commits of a
   * turn: if its final write succeeds, the log decodes to exactly the final history; if not, a snapshot is due.
   */
  lemma FinalHistoryDurable(s: Session, x: TurnScript, fix: seq<Message> -> seq<Message>)
    requires Entered(s, x.entrance) && Sane(s, x, fix) && !EndsEarly(s, x)
    ensures FinalWriteOk(Queried(s, x, fix), x.lastAppend, x.lastSnap) ==> Decode(Conclude(s, x, fix).log) == Conclude(s, x, fix).messages
    ensures Durable(Conclude(s, x, fix))
  {
    hide Decode, Agrees, Do, FinalWriteOk, Start, DoAll, FitsAll, Entered;
    StartAgrees(s, x.entrance, x.a, x.b);
    RunAgrees(Start(s, x.entrance, x.a, x.b).0, x.actions, fix);
    var t := Queried(s, x, fix);
    if FinalWriteOk(t, x.lastAppend, x.lastSnap) { FinishAgrees(t, x.lastAppend, x.lastSnap, x.session); }
    FailedWhenNotOk(t, x.lastAppend, x.lastSnap, x.session);
  }

  /** What the first write of a turn would have to be for nothing to reach the log. */
  predicate WritesNothing(e: Entrance, a: Appending) {
    match e
    case Fresh(added, _) => added == [] || a == Broken(0)
    case Rich(_, _, record) => record == Broken(0)
    case HookRejected(_) => a == Broken(0)
    case _ => true
  }

  /** A turn that ends before its query keeps the session durable exactly when a snapshot was due or its first write left nothing. */
  lemma EarlyEndExact(s: Session, x: TurnScript, fix: seq<Message> -> seq<Message>)
    requires Durable(s) && EndsEarly(s, x)
    ensures Durable(Conclude(s, x, fix)) <==> s.required || WritesNothing(x.entrance, x.a)
  {
    hide Decode, Lines;
    if !s.required {
      match x.entrance
      case Fresh(added, _) => AppendedDecodes(s.log, added, x.a);
      case Rich(prompt, attachments, record) =>
        AppendedDecodes(s.log, [prompt], record);
        AppendedDecodes(AppendTo(s.log, [prompt], record).0, attachments, x.a);
      case HookRejected(rejection) => AppendedDecodes(s.log, [rejection], x.a);
      case _ =>
    }
  }

  /** An append leaves what the log decodes to exactly when it writes no line; otherwise it grows. */
  lemma AppendedDecodes(log: seq<Entry>, ms: seq<Message>, a: Appending)
    ensures var next := AppendTo(log, ms, a).0;
      && |Decode(next)| >= |Decode(log)|
      && (Decode(next) == Decode(log) <==> ms == [] || a == Broken(0))
      && (|Decode(next)| == |Decode(log)| <==> ms == [] || a == Broken(0))
  {
    hide Decode, Lines;
    var written := if ms == [] then [] else if a.Broken? && a.written < |ms| then ms[..a.written] else ms;
    DecodeLines(log, written);
    assert AppendTo(log, ms, a).0 == log + Lines(written) by { NoLines(log); }
    assert written == [] ==> Decode(log) + written == Decode(log);
    assert |Decode(log) + written| == |Decode(log)| + |written|;
  }

  lemma NoLines(log: seq<Entry>)
    ensures log + Lines([]) == log
  {}

  /** Such a turn can strand its prompt: a continuation whose messages were written but whose delivery was not. */
  lemma EarlyEndStrands(fix: seq<Message> -> seq<Message>)
    ensures var u, p := Message(User, "u", false), Message(User, "p", false);
      var s := Session([Line(u)], [u], false);
      var n := Conclude(s, TurnScript(Fresh([p], Some(false)), Appended, Recorded, [], Appended, Recorded, true), fix);
      Durable(s) && n.messages == [u] && !n.required && Decode(n.log) == [u, p]
  {
    var u, p := Message(User, "u", false), Message(User, "p", false);
    assert Decode([Line(u)]) == [u] by { assert [Line(u)][..0] == []; }
    DecodeLines([Line(u)], [p]);
    assert [u] + [p] == [u, p];
  }

  /** A rejected prompt strands its rejection on every durable session, with every write succeeding. */
  lemma HookRejectionStrands(s: Session, m: Message, x: TurnScript, fix: seq<Message> -> seq<Message>)
    requires Durable(s) && !s.required && x.entrance == HookRejected(m) && x.a == Appended
    ensures var n := Conclude(s, x, fix); n.messages == s.messages && !n.required && Decode(n.log) == s.messages + [m]
  {
    hide Decode, Lines;
    DecodeLines(s.log, [m]);
  }

  lemma FailedWhenNotOk(t: Turn, a: Appending, b: Snapping, session: bool)
    ensures !FinalWriteOk(t, a, b) ==> Finish(t, a, b, session).failed
  {
    hide Lines;
  }

  function ConcludeAll(s: Session, xs: seq<TurnScript>, fix: seq<Message> -> seq<Message>): (r: Session)
    decreases |xs|
  {
    if xs == [] then s else ConcludeAll(Conclude(s, xs[0], fix), xs[1..], fix)
  }

  /** A turn of an open session is sane, or ends before its query with a snapshot due or nothing written. */
  predicate SaneTurn(s: Session, x: TurnScript, fix: seq<Message> -> seq<Message>) {
    && !x.entrance.Seeded?
    && (if EndsEarly(s, x) then s.required || WritesNothing(x.entrance, x.a) else Ready(s, x.entrance) && Sane(s, x, fix))
  }

  predicate SaneAll(s: Session, xs: seq<TurnScript>, fix: seq<Message> -> seq<Message>)
    decreases |xs|
  {
    xs != [] ==> SaneTurn(s, xs[0], fix) && SaneAll(Conclude(s, xs[0], fix), xs[1..], fix)
  }

  /** Over any number of turns: a snapshot is due, or the log decodes to the messages in memory. */
  lemma {:induction false} SessionDurable(s: Session, xs: seq<TurnScript>, fix: seq<Message> -> seq<Message>)
    requires Durable(s) && SaneAll(s, xs, fix)
    ensures Durable(ConcludeAll(s, xs, fix))
    decreases |xs|
  {
    hide Durable, Sane, Conclude, EndsEarly;
    if xs != [] {
      if EndsEarly(s, xs[0]) { EarlyEndExact(s, xs[0], fix); } else { FinalHistoryDurable(s, xs[0], fix); }
      SessionDurable(Conclude(s, xs[0], fix), xs[1..], fix);
    }
  }

  /** A child engine starts on what the Agent runner stored; from its first turn on the same holds. */
  lemma ChildDurable(history: seq<Message>, added: seq<Message>, x: TurnScript, xs: seq<TurnScript>, fix: seq<Message> -> seq<Message>)
    requires x.entrance == Seeded(added) && Sane(Seed(history, added), x, fix) && SaneAll(Conclude(Seed(history, added), x, fix), xs, fix)
    ensures Durable(ConcludeAll(Conclude(Seed(history, added), x, fix), xs, fix))
  {
    hide Durable, Sane, Conclude, SaneAll, ConcludeAll;
    FinalHistoryDurable(Seed(history, added), x, fix);
    SessionDurable(Conclude(Seed(history, added), x, fix), xs, fix);
  }

  // ---------------------------------------------------------------- where the assumptions are needed

  /** A provider-origin commit that succeeds leaves the log equal to the history unless a compaction snapshot is owed. */
  lemma OriginDurable(t: Turn, staged: bool, a: Appending, b: Snapping, session: bool)
    requires Agrees(t) && !t.compact
    ensures var (n, ok) := CommitOrigin(t, staged, a, b, session); ok ==> Decode(n.log) == n.history.messages
  {
    hide Decode, Lines, HasAssistant;
    var f := t.(history := Flush(t.history));
    assert t.count <= |t.history.messages| ==> f.history.messages[..t.count] == t.history.messages[..t.count];
    CheckpointAgrees(f, false, a, b);
  }

  /** While one is owed, the commit leaves them equal exactly when it wrote a full snapshot or the persisted prefix was right. */
  lemma OriginExact(t: Turn, a: Appending, b: Snapping)
    requires CommitOrigin(t, true, a, b, true).1
    ensures var f := t.(history := Flush(t.history));
      var n := CommitOrigin(t, true, a, b, true).0;
      Decode(n.log) == n.history.messages <==> Full(f, false) || Decode(t.log) == f.history.messages[..t.count]
  {
    hide Decode, Lines, HasAssistant;
    var f := t.(history := Flush(t.history));
    var ms := f.history.messages;
    DecodeSnapshot(t.log, ms);
    if !Full(f, false) {
      DecodeLines(t.log, ms[t.count..]);
      assert ms[..t.count] + ms[t.count..] == ms;
      assert Decode(t.log) + ms[t.count..] == ms ==> |Decode(t.log)| == t.count && Decode(t.log) == ms[..t.count];
    }
  }

  lemma OriginAfterCompaction()
    ensures var u, v, w := Message(User, "u", false), Message(Assistant, "v", false), Message(Assistant, "w", false);
      var t := Turn([Line(u)], History([u], None), 1, false, false, false, false);
      var compacted := Do(t, Saw(Event(CompactBoundary([v, w], None, false), false), Recorded, Appended, Recorded), ms => ms);
      var (n, ok) := CommitOrigin(compacted, true, Appended, Recorded, true);
      Agrees(t) && ok && Decode(n.log) == [u, w] && n.history.messages == [v, w]
  {
    var u, v, w := Message(User, "u", false), Message(Assistant, "v", false), Message(Assistant, "w", false);
    var t := Turn([Line(u)], History([u], None), 1, false, false, false, false);
    var compacted := Do(t, Saw(Event(CompactBoundary([v, w], None, false), false), Recorded, Appended, Recorded), ms => ms);
    assert compacted == Turn([Line(u)], History([v, w], None), 1, false, true, false, false);
    assert [v, w][1..] == [w];
    assert Lines([w]) == [Line(w)] by { assert Lines([]) == []; assert [w][..0] == []; }
    assert Decode([Line(u)]) == [u] by { assert [Line(u)][..0] == []; }
    DecodeLines([Line(u)], [w]);
    assert [v, w][0].role == Assistant;
  }

  /**
   * A media-recovery snapshot that is not recorded ends the query, and memory does not follow it.  If the final write then
   * succeeds, the log decodes to the final history exactly when that write was a snapshot, or the doubtful one did not reach
   * the file, or it held just what was persisted anyway.
   */
  lemma MediaEndExact(t: Turn, ms: seq<Message>, b: Snapping, a: Appending, last: Snapping, session: bool)
    requires Agrees(t) && b != Recorded
    requires FinalWriteOk(CommitMedia(t, ms, b).0, a, last)
    ensures var f := t.(history := Flush(t.history));
      var n := Finish(CommitMedia(t, ms, b).0, a, last, session);
      Decode(n.log) == n.history.messages <==>
        t.compact || Full(f, false) || b != Doubtful(true) || ms == PersistedPrefix(t)
  {
    hide Decode, Lines;
    var f := t.(history := Flush(t.history));
    var all := f.history.messages;
    var log := SnapTo(t.log, ms, b);
    DecodeSnapshot(t.log, ms);
    DecodeSnapshot(log, all);
    if !t.compact && !Full(f, false) {
      DecodeLines(log, all[f.count..]);
      assert all[..f.count] == t.history.messages[..t.count];
      assert all[..f.count] + all[f.count..] == all;
      assert ms + all[f.count..] == all ==> |ms| == f.count && ms == all[..f.count];
    }
  }

  /** The same over a whole turn, whatever came before the failed commit. */
  lemma MediaEndsTurn(s: Session, x: TurnScript, ms: seq<Message>, b: Snapping, fix: seq<Message> -> seq<Message>)
    requires Entered(s, x.entrance) && Sane(s, x, fix) && !EndsEarly(s, x) && b != Recorded
    requires FinalWriteOk(CommitMedia(Queried(s, x, fix), ms, b).0, x.lastAppend, x.lastSnap)
    ensures var t := Queried(s, x, fix);
      var n := Finish(CommitMedia(t, ms, b).0, x.lastAppend, x.lastSnap, x.session);
      Decode(n.log) == n.history.messages <==>
        t.compact || Full(t.(history := Flush(t.history)), false) || b != Doubtful(true) || ms == PersistedPrefix(t)
  {
    hide Decode, Agrees, Do, FinalWriteOk, Start, DoAll, FitsAll, Entered, Finish, CommitMedia;
    StartAgrees(s, x.entrance, x.a, x.b);
    RunAgrees(Start(s, x.entrance, x.a, x.b).0, x.actions, fix);
    MediaEndExact(Queried(s, x, fix), ms, b, x.lastAppend, x.lastSnap, x.session);
  }

  /** So a turn can end with its final write reported as good and a log that decodes to something else. */
  lemma MediaDoubtLosesHistory()
    ensures var u, c := Message(User, "u", false), Message(System, "c", true);
      var t := Turn([Line(u)], History([u], None), 1, false, false, false, false);
      var n := CommitMedia(t, [c], Doubtful(true)).0;
      && Agrees(t) && FinalWriteOk(n, Appended, Recorded)
      && Decode(Finish(n, Appended, Recorded, true).log) == [c] && Finish(n, Appended, Recorded, true).history.messages == [u]
  {
    var u, c := Message(User, "u", false), Message(System, "c", true);
    assert Decode([Line(u)]) == [u] by { assert [Line(u)][..0] == []; }
    DecodeSnapshot([Line(u)], [c]);
    assert [u][1..] == [];
  }

  /** A max-turns event without its marker keeps the invariant exactly when the repair left the persisted prefix alone. */
  lemma MaxTurnsExact(t: Turn, first: Snapping, a: Appending, b: Snapping, fix: seq<Message> -> seq<Message>)
    requires Agrees(t) && !t.compact && !t.needs
    ensures var repaired := fix(Flush(t.history).messages);
      Agrees(OnEvent(t, Event(MaxTurns(None), false), first, a, b, fix)) <==>
        t.count <= |repaired| && repaired[..t.count] == t.history.messages[..t.count]
  {
    hide Decode;
  }
}
