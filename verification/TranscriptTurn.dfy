/** The objects behind one turn's transcript writing, each method proved equal to its step in TranscriptLog. */
module TranscriptTurns {
  import opened Basics
  import opened TranscriptLog

  /** conversationHistory (engine/engine.go). */
  class ConversationHistory {
    var messages: seq<Message>
    var pendingAssistant: Option<Message>

    ghost function View(): (h: History)
      reads this
    {
      History(messages, pendingAssistant)
    }

    constructor (base: seq<Message>)
      ensures View() == History(base, None)
    {
      messages, pendingAssistant := base, None;
    }

    method FlushPendingAssistant()
      modifies this
      ensures View() == Flush(old(View()))
    {
      if pendingAssistant.None? { return; }
      messages := messages + [pendingAssistant.value];
      pendingAssistant := None;
    }

    method Append(m: Option<Message>)
      modifies this
      ensures View() == Add(old(View()), m)
    {
      if m.Some? { messages := messages + [m.value]; }
    }

    method ObserveEvent(e: Event, fix: seq<Message> -> seq<Message>)
      modifies this
      ensures View() == Observe(old(View()), e, fix)
    {
      if e.rejected {
        pendingAssistant := None;
        if e.kind.ToolResult? { return; }
      }
      match e.kind
      case FinalAssistant(m) =>
        FlushPendingAssistant();
        Append(Some(m));
      case Chunk(m) =>
        if m.role == Tool {
          FlushPendingAssistant();
          Append(Some(m));
          return;
        }
        pendingAssistant := Some(Merge(pendingAssistant, m));
      case ToolResult(m) =>
        FlushPendingAssistant();
        Append(m);
      case Attachment(m) =>
        FlushPendingAssistant();
        Append(m);
      case CompactBoundary(ms, marker, _) =>
        FlushPendingAssistant();
        if ms != [] {
          messages := ms;
          return;
        }
        if marker.Some? && marker.value.role == System && marker.value.boundary {
          messages := [marker.value];
          return;
        }
        Append(marker);
      case MaxTurns(info) =>
        FlushPendingAssistant();
        messages := fix(messages);
        Append(info);
      case EmptyAssistant =>
      case StreamStart => FlushPendingAssistant();
      case Tombstone => pendingAssistant := None;
      case UserInterruption => pendingAssistant := None;
      case OtherEvent =>
    }

    method Messages() returns (r: seq<Message>)
      modifies this
      ensures View() == Flush(old(View())) && r == messages
    {
      FlushPendingAssistant();
      return messages;
    }

    method Replace(ms: seq<Message>)
      modifies this
      ensures View() == History(ms, None)
    {
      messages, pendingAssistant := ms, None;
    }
  }

  /** The loader's pass over the file: lines accumulate, a snapshot starts over. */
  method LoadTranscript(log: seq<Entry>) returns (messages: seq<Message>)
    ensures messages == Decode(log)
  {
    messages := [];
    for i := 0 to |log|
      invariant messages == Decode(log[..i])
    {
      assert log[..i + 1][..i] == log[..i];
      match log[i]
      case Line(m) => messages := messages + [m];
      case Snapshot(ms) => messages := ms;
    }
    assert log[..|log|] == log;
  }

  /** The variables that submitMessageWithRuntimeItem shares with its callbacks. */
  class TranscriptTurn {
    const history: ConversationHistory
    var log: seq<Entry>
    var persistedCount: nat
    var needsCheckpoint: bool
    var compactPending: bool
    var repairRequired: bool
    var failed: bool
    var ended: bool

    ghost function View(): (t: Turn)
      reads this, history
    {
      Turn(log, history.View(), persistedCount, needsCheckpoint, compactPending, repairRequired, failed)
    }

    /** The start of a turn; `ended` says that it is over before the query starts. */
    constructor (s: Session, e: Entrance, a: Appending, b: Snapping)
      ensures fresh(history) && (View(), ended) == Start(s, e, a, b)
    {
      history := new ConversationHistory(s.messages + Added(e));
      log, persistedCount, needsCheckpoint := s.log, |s.messages|, s.required;
      compactPending, repairRequired, failed, ended := false, false, false, false;
      new;
      hide Lines;
      var ok := WriteFirst(e, a, b);
      if ok { persistedCount, needsCheckpoint := |history.messages|, false; } else { needsCheckpoint, failed := true, true; }
      if e.HookRejected? || (e.Rich? && !ok) { ended := true; }
      if e.Fresh? && e.delivery.Some? && (!ok || !e.delivery.value) { ended := true; }
    }

    /** Which write a turn starts with depends on how it is entered. */
    method WriteFirst(e: Entrance, a: Appending, b: Snapping) returns (ok: bool)
      modifies this`log
      ensures forall s: Session :: s.log == old(log) && s.required == needsCheckpoint && s.messages + Added(e) == history.messages ==>
        (log, ok) == FirstWrite(s, e, a, b)
    {
      hide Lines;
      if e.HookRejected? {
        ok := RecordMessages([e.rejection], a);
        return;
      }
      if e.Resumed? || e.Seeded? { return true; }
      if e.Rich? {
        ok := RecordMessages([e.prompt], e.record);
        if !ok { return; }
      }
      if needsCheckpoint {
        ok := RecordBoundary(history.messages, b);
      } else {
        ok := RecordMessages(if e.Rich? then e.attachments else e.added, a);
      }
    }

    /** recordTranscriptMessages: one line at a time, stopping at the first error. */
    method RecordMessages(ms: seq<Message>, a: Appending) returns (ok: bool)
      modifies this`log
      ensures (log, ok) == AppendTo(old(log), ms, a)
    {
      if ms == [] { return true; }
      for i := 0 to |ms|
        invariant log == old(log) + Lines(ms[..i])
        invariant a.Broken? ==> i <= a.written
      {
        if a == Broken(i) { return false; }
        assert ms[..i + 1][..i] == ms[..i];
        log := log + [Line(ms[i])];
      }
      assert ms[..|ms|] == ms;
      return a == Appended;
    }

    method RecordBoundary(ms: seq<Message>, b: Snapping) returns (ok: bool)
      modifies this`log
      ensures log == SnapTo(old(log), ms, b) && ok == (b == Recorded)
    {
      if b == Recorded || b == Doubtful(true) { log := log + [Snapshot(ms)]; }
      return b == Recorded;
    }

    method MarkSaved(count: nat)
      modifies this
      ensures View() == old(View()).(count := count, needs := false, failed := false)
    {
      persistedCount, needsCheckpoint, failed := count, false, false;
    }

    method WriteCheckpoint(force: bool, a: Appending, b: Snapping)
      modifies this, history
      ensures View() == Checkpoint(old(View()), force, a, b)
    {
      hide Lines;
      var ms := history.Messages();
      var full := needsCheckpoint || repairRequired || force || |ms| < persistedCount;
      var ok;
      if full { ok := RecordBoundary(ms, b); } else { ok := RecordMessages(ms[persistedCount..], a); }
      if !ok {
        needsCheckpoint, failed := true, true;
        return;
      }
      MarkSaved(|ms|);
      if full { repairRequired := false; }
    }

    method WriteCompactBoundary(b: Snapping)
      modifies this, history
      ensures View() == SettleCompact(old(View()), b)
    {
      var ms := history.Messages();
      var ok := RecordBoundary(ms, b);
      if ok {
        MarkSaved(|ms|);
        repairRequired, compactPending := false, false;
      } else {
        needsCheckpoint, failed := true, true;
        compactPending := b == Rejected;
      }
    }

    method HandleEvent(e: Event, first: Snapping, a: Appending, b: Snapping, fix: seq<Message> -> seq<Message>)
      modifies this, history
      ensures View() == OnEvent(old(View()), e, first, a, b, fix)
    {
      hide Observe, Checkpoint, SettleCompact;
      if compactPending && !e.kind.CompactBoundary? { WriteCompactBoundary(first); }
      history.ObserveEvent(e, fix);
      if e.kind.CompactBoundary? {
        if e.kind.committed {
          var ms := history.Messages();
          compactPending := false;
          MarkSaved(|ms|);
          repairRequired := false;
        } else {
          compactPending := true;
        }
      } else if !compactPending && ShouldCheckpoint(e) {
        WriteCheckpoint(e.kind.MaxTurns?, a, b);
      }
    }

    /** The backward search for the assistant message of the response. */
    static method FindAssistant(ms: seq<Message>) returns (found: bool)
      ensures found == HasAssistant(ms)
    {
      var i := |ms|;
      while i > 0
        invariant 0 <= i <= |ms| && forall j :: i <= j < |ms| ==> ms[j].role != Assistant
      {
        i := i - 1;
        if ms[i].role == Assistant { return true; }
      }
      return false;
    }

    method CommitProviderOrigin(staged: bool, a: Appending, b: Snapping, session: bool) returns (ok: bool)
      modifies this, history
      ensures (View(), ok) == CommitOrigin(old(View()), staged, a, b, session)
    {
      hide HasAssistant, Checkpoint;
      var ms := history.Messages();
      var found := FindAssistant(ms);
      if !found || !staged { return false; }
      WriteCheckpoint(false, a, b);
      if failed { return false; }
      if !session {
        needsCheckpoint, failed := true, true;
        return false;
      }
      return true;
    }

    method CommitMediaBoundary(ms: seq<Message>, b: Snapping) returns (ok: bool)
      modifies this, history
      ensures (View(), ok) == CommitMedia(old(View()), ms, b)
    {
      ok := RecordBoundary(ms, b);
      if !ok { return; }
      history.Replace(ms);
      MarkSaved(|ms|);
      repairRequired := false;
    }

    method FinishTurn(a: Appending, b: Snapping, session: bool) returns (s: Session)
      modifies this, history
      ensures View() == Finish(old(View()), a, b, session) && s == End(View())
    {
      hide Lines;
      var ms := history.Messages();
      var ok;
      if compactPending || needsCheckpoint || repairRequired || |ms| < persistedCount {
        ok := RecordBoundary(ms, b);
      } else {
        ok := RecordMessages(ms[persistedCount..], a);
      }
      failed := !ok || !session;
      return Session(log, ms, failed);
    }
  }

  /** A whole turn: the first write, every action in order, the last write. */
  method RunTurn(s: Session, x: TurnScript, fix: seq<Message> -> seq<Message>) returns (r: Session)
    ensures r == Conclude(s, x, fix)
    ensures EndsEarly(s, x) && Durable(s) ==> (Durable(r) <==> s.required || WritesNothing(x.entrance, x.a))
    ensures !EndsEarly(s, x) && Entered(s, x.entrance) && Sane(s, x, fix) ==> Durable(r)
  {
    hide Start, OnEvent, CommitOrigin, CommitMedia, Finish, Durable, Sane, Entered, WritesNothing;
    var turn := new TranscriptTurn(s, x.entrance, x.a, x.b);
    if turn.ended {
      if Durable(s) { EarlyEndExact(s, x, fix); }
      return Session(turn.log, s.messages, s.required);
    }
    ghost var begun := turn.View();
    for i := 0 to |x.actions|
      invariant DoAll(begun, x.actions, fix) == DoAll(turn.View(), x.actions[i..], fix)
      invariant fresh(turn) && fresh(turn.history)
    {
      ghost var before := turn.View();
      match x.actions[i] {
        case Saw(e, first, a, b) => turn.HandleEvent(e, first, a, b, fix);
        case Origin(staged, a, b, session) => var _ := turn.CommitProviderOrigin(staged, a, b, session);
        case Media(ms, b) => var _ := turn.CommitMediaBoundary(ms, b);
        case FileStateFailed => turn.repairRequired := true;
      }
      assert turn.View() == Do(before, x.actions[i], fix);
      assert x.actions[i..][1..] == x.actions[i + 1..];
    }
    r := turn.FinishTurn(x.lastAppend, x.lastSnap, x.session);
    if Entered(s, x.entrance) && Sane(s, x, fix) { FinalHistoryDurable(s, x, fix); }
  }
}
