/** What the conversation holds, read from the events alone, and what an undisturbed turn leaves in memory and in the log. */
module TranscriptHistory {
  import opened Basics
  import opened TranscriptLog

  // ---------------------------------------------------------------- the story of the events

  /** A fragment of an assistant message still being streamed. */
  predicate IsFragment(e: Event) {
    e.kind.Chunk? && e.kind.chunk.role != Tool
  }

  /** Leaves a message being streamed open. */
  predicate Continues(e: Event) {
    !e.rejected && (IsFragment(e) || e.kind.EmptyAssistant? || e.kind.OtherEvent?)
  }

  /** Throws away the message being streamed. */
  predicate Cuts(e: Event) {
    e.rejected || e.kind.Tombstone? || e.kind.UserInterruption?
  }

  /** The message an event adds of itself. */
  function Brings(e: Event): (r: seq<Message>) {
    match e.kind
    case FinalAssistant(m) => [m]
    case Chunk(m) => if m.role == Tool then [m] else []
    case ToolResult(Some(m)) => if e.rejected then [] else [m]
    case Attachment(Some(m)) => [m]
    case CompactBoundary(_, Some(m), _) => [m]
    case _ => []
  }

  /** Does not replace what is there: a compaction without messages and without a boundary marker only adds its marker. */
  predicate Adds(e: Event) {
    match e.kind
    case MaxTurns(_) => false
    case CompactBoundary(ms, marker, _) => ms == [] && !(marker.Some? && marker.value.role == System && marker.value.boundary)
    case _ => true
  }

  function Fragments(es: seq<Event>): (r: seq<Message>)
    ensures |r| <= |es|
  {
    if es == [] then []
    else
      var front, last := Fragments(es[..|es| - 1]), es[|es| - 1];
      if IsFragment(last) then front + [last.kind.chunk] else front
  }

  function ContentOf(ms: seq<Message>): (r: string) {
    if ms == [] then "" else ContentOf(ms[..|ms| - 1]) + ms[|ms| - 1].content
  }

  /** The last role a fragment names; an assistant's when none does. */
  function RoleOf(ms: seq<Message>): (r: Role) {
    if ms == [] then Assistant else if ms[|ms| - 1].role != NoRole then ms[|ms| - 1].role else RoleOf(ms[..|ms| - 1])
  }

  /** The one message that a group of fragments makes. */
  function Joined(es: seq<Event>): (r: Message) {
    Message(RoleOf(Fragments(es)), ContentOf(Fragments(es)), false)
  }

  /** How far the group that starts with the first event reaches. */
  function GroupEnd(es: seq<Event>, from: nat): (n: nat)
    requires from <= |es|
    ensures from <= n <= |es| && (forall i :: from <= i < n ==> Continues(es[i])) && (n < |es| ==> !Continues(es[n]))
    decreases |es| - from
  {
    if from == |es| || !Continues(es[from]) then from else GroupEnd(es, from + 1)
  }

  /**
   * The messages the events tell, in event order: one per final, tool result and attachment, and one per group of fragments
   * that is not thrown away by the event that ends it.
   */
  function Story(es: seq<Event>): (r: seq<Message>)
    decreases |es|
  {
    if es == [] then []
    else if IsFragment(es[0]) then
      var n := GroupEnd(es, 1);
      (if n < |es| && Cuts(es[n]) then [] else [Joined(es[..n])]) + Story(es[n..])
    else Brings(es[0]) + Story(es[1..])
  }

  // ---------------------------------------------------------------- the history tells it

  function ObserveAll(h: History, es: seq<Event>, fix: seq<Message> -> seq<Message>): (r: History)
    decreases |es|
  {
    if es == [] then h else ObserveAll(Observe(h, es[0], fix), es[1..], fix)
  }

  lemma {:induction false} ObserveMore(h: History, es: seq<Event>, fs: seq<Event>, fix: seq<Message> -> seq<Message>)
    ensures ObserveAll(h, es + fs, fix) == ObserveAll(ObserveAll(h, es, fix), fs, fix)
    decreases |es|
  {
    hide Observe;
    if es == [] { assert es + fs == fs; } else {
      assert (es + fs)[1..] == es[1..] + fs;
      ObserveMore(Observe(h, es[0], fix), es[1..], fs, fix);
    }
  }

  lemma ObserveOne(h: History, e: Event, fix: seq<Message> -> seq<Message>)
    ensures ObserveAll(h, [e], fix) == Observe(h, e, fix)
  {
    hide Observe;
    assert ObserveAll(Observe(h, e, fix), [e][1..], fix) == Observe(h, e, fix);
  }

  /** With no message being streamed, an event that starts none adds what it brings. */
  lemma BringsIt(h: History, e: Event, fix: seq<Message> -> seq<Message>)
    requires h.pending.None? && Adds(e) && !IsFragment(e)
    ensures Observe(h, e, fix) == History(h.messages + Brings(e), None)
  {}

  /** An event that ends a group first keeps its message, or throws it away. */
  lemma EndsIt(h: History, p: Message, e: Event, fix: seq<Message> -> seq<Message>)
    requires h.pending == Some(p) && Adds(e) && !Continues(e)
    ensures Observe(h, e, fix) == Observe(History(if Cuts(e) then h.messages else h.messages + [p], None), e, fix)
  {}

  lemma FragmentsMore(es: seq<Event>, e: Event)
    ensures Fragments(es + [e]) == if IsFragment(e) then Fragments(es) + [e.kind.chunk] else Fragments(es)
  {
    assert (es + [e])[..|es|] == es;
  }

  lemma JoinedMore(es: seq<Event>, e: Event)
    ensures Joined(es + [e]) == if IsFragment(e) then Merge(Some(Joined(es)), e.kind.chunk) else Joined(es)
  {
    hide Fragments;
    FragmentsMore(es, e);
    if IsFragment(e) { assert (Fragments(es) + [e.kind.chunk])[..|Fragments(es)|] == Fragments(es); }
  }

  lemma JoinedOne(e: Event)
    requires IsFragment(e)
    ensures Joined([e]) == Merge(None, e.kind.chunk)
  {
    var m := e.kind.chunk;
    assert [e][..0] == [] && Fragments([]) == [];
    assert Fragments([e]) == [] + [m] == [m];
    assert [m][..0] == [] && ContentOf([]) == "" && RoleOf([]) == Assistant;
    assert ContentOf([m]) == "" + m.content;
  }

  /** A group of fragments is one message being streamed. */
  lemma {:induction false} GroupStreams(h: History, es: seq<Event>, n: nat, fix: seq<Message> -> seq<Message>)
    requires h.pending.None? && 0 < n <= |es| && IsFragment(es[0]) && forall i :: 0 < i < n ==> Continues(es[i])
    ensures ObserveAll(h, es[..n], fix) == History(h.messages, Some(Joined(es[..n])))
    decreases n
  {
    hide Joined;
    if n == 1 {
      assert es[..1] == [es[0]];
      ObserveOne(h, es[0], fix);
      JoinedOne(es[0]);
    } else {
      GroupStreams(h, es, n - 1, fix);
      var e := es[n - 1];
      assert es[..n] == es[..n - 1] + [e];
      ObserveMore(h, es[..n - 1], [e], fix);
      ObserveOne(History(h.messages, Some(Joined(es[..n - 1]))), e, fix);
      JoinedMore(es[..n - 1], e);
    }
  }

  /**
   * Over any events that only add, the flushed history is what was there followed by the story of the events: nothing is lost,
   * repeated or reordered, and only a rejection, a tombstone or an interruption throws a streamed message away.
   */
  lemma {:induction false} HistoryTold(h: History, es: seq<Event>, fix: seq<Message> -> seq<Message>)
    requires h.pending.None? && forall i :: 0 <= i < |es| ==> Adds(es[i])
    ensures Flush(ObserveAll(h, es, fix)).messages == h.messages + Story(es)
    decreases |es|
  {
    hide Observe, Adds, Cuts, Continues, Joined, Brings;
    if es == [] {
      assert h.messages + [] == h.messages;
    } else if IsFragment(es[0]) {
      var n := GroupEnd(es, 1);
      var p := Joined(es[..n]);
      GroupStreams(h, es, n, fix);
      assert es == es[..n] + es[n..];
      ObserveMore(h, es[..n], es[n..], fix);
      var open := History(h.messages, Some(p));
      if n == |es| {
        assert es[n..] == [] && Story(es[n..]) == [];
        assert [p] + [] == [p];
      } else {
        var kept := if Cuts(es[n]) then [] else [p];
        var shut := History(h.messages + kept, None);
        assert h.messages + [] == h.messages;
        EndsIt(open, p, es[n], fix);
        SameRest(open, shut, es[n..], fix);
        HistoryTold(shut, es[n..], fix);
        assert (h.messages + kept) + Story(es[n..]) == h.messages + (kept + Story(es[n..]));
      }
    } else {
      BringsIt(h, es[0], fix);
      var next := Observe(h, es[0], fix);
      HistoryTold(next, es[1..], fix);
      assert (h.messages + Brings(es[0])) + Story(es[1..]) == h.messages + (Brings(es[0]) + Story(es[1..]));
    }
  }

  lemma SameRest(a: History, b: History, es: seq<Event>, fix: seq<Message> -> seq<Message>)
    requires es != [] && Observe(a, es[0], fix) == Observe(b, es[0], fix)
    ensures ObserveAll(a, es, fix) == ObserveAll(b, es, fix)
  {
    hide Observe;
  }

  /** A compaction starts the story over: with its messages, or with its boundary marker alone. */
  lemma CompactionRestarts(h: History, es: seq<Event>, e: Event, fs: seq<Event>, fix: seq<Message> -> seq<Message>)
    requires e.kind.CompactBoundary? && !Adds(e) && forall i :: 0 <= i < |fs| ==> Adds(fs[i])
    ensures Flush(ObserveAll(h, es + [e] + fs, fix)).messages ==
      (if e.kind.messages != [] then e.kind.messages else [e.kind.marker.value]) + Story(fs)
  {
    hide ObserveAll, Story;
    ObserveMore(h, es + [e], fs, fix);
    ObserveMore(h, es, [e], fix);
    ObserveOne(ObserveAll(h, es, fix), e, fix);
    HistoryTold(ObserveAll(h, es + [e], fix), fs, fix);
  }

  /** A max-turns event repairs what has been told so far, adds its marker, and the story goes on. */
  lemma MaxTurnsRepairs(h: History, es: seq<Event>, info: Option<Message>, fs: seq<Event>, fix: seq<Message> -> seq<Message>)
    requires h.pending.None? && (forall i :: 0 <= i < |es| ==> Adds(es[i])) && forall i :: 0 <= i < |fs| ==> Adds(fs[i])
    ensures Flush(ObserveAll(h, es + [Event(MaxTurns(info), false)] + fs, fix)).messages ==
      fix(h.messages + Story(es)) + (if info.Some? then [info.value] else []) + Story(fs)
  {
    hide ObserveAll, Story, Adds;
    var e := Event(MaxTurns(info), false);
    ObserveMore(h, es + [e], fs, fix);
    ObserveMore(h, es, [e], fix);
    ObserveOne(ObserveAll(h, es, fix), e, fix);
    HistoryTold(h, es, fix);
    HistoryTold(ObserveAll(h, es + [e], fix), fs, fix);
    var told := fix(h.messages + Story(es));
    assert told + [] == told;
  }

  // ---------------------------------------------------------------- a whole turn

  /** The events a turn has heard; a provider-origin commit ends the message being streamed, as the start of a stream does. */
  function Heard(xs: seq<Action>): (r: seq<Event>) {
    if xs == [] then []
    else
      (match xs[0]
       case Saw(e, _, _, _) => [e]
       case Origin(_, _, _, _) => [Event(StreamStart, false)]
       case _ => []) + Heard(xs[1..])
  }

  /** An event or a commit of a turn in which nothing replaces the conversation. */
  predicate Ordinary(x: Action) {
    match x
    case Saw(e, _, _, _) => !e.kind.CompactBoundary? && !e.kind.MaxTurns?
    case Media(_, _) => false
    case _ => true
  }

  /** The history after one more ordinary step, and that no compaction is owed. */
  lemma DoHears(t: Turn, x: Action, fix: seq<Message> -> seq<Message>)
    requires !t.compact && Ordinary(x)
    ensures var n := Do(t, x, fix);
      && !n.compact
      && n.history == (match x
           case Saw(e, _, _, _) => Observe(t.history, e, fix)
           case Origin(_, _, _, _) => Flush(t.history)
           case _ => t.history)
  {
    hide AppendTo, SnapTo, HasAssistant;
  }

  lemma {:induction false} RunHears(t: Turn, xs: seq<Action>, fix: seq<Message> -> seq<Message>)
    requires !t.compact && forall i :: 0 <= i < |xs| ==> Ordinary(xs[i])
    ensures !DoAll(t, xs, fix).compact && DoAll(t, xs, fix).history == ObserveAll(t.history, Heard(xs), fix)
    decreases |xs|
  {
    hide Do, Observe, Ordinary;
    if xs != [] {
      DoHears(t, xs[0], fix);
      var n := Do(t, xs[0], fix);
      RunHears(n, xs[1..], fix);
      var first := match xs[0] case Saw(e, _, _, _) => [e] case Origin(_, _, _, _) => [Event(StreamStart, false)] case _ => [];
      ObserveMore(t.history, first, Heard(xs[1..]), fix);
      if first != [] { ObserveOne(t.history, first[0], fix); StartFlushes(t.history, fix); }
    }
  }

  lemma StartFlushes(h: History, fix: seq<Message> -> seq<Message>)
    ensures Observe(h, Event(StreamStart, false), fix) == Flush(h)
  {}

  lemma {:induction false} HeardAdds(xs: seq<Action>)
    requires forall i :: 0 <= i < |xs| ==> Ordinary(xs[i])
    ensures forall i :: 0 <= i < |Heard(xs)| ==> Adds(Heard(xs)[i])
  {
    if xs != [] { HeardAdds(xs[1..]); }
  }

  /** The messages a turn enters with. */
  function Entering(e: Entrance): (r: seq<Message>) {
    match e
    case Fresh(added, _) => added
    case Rich(prompt, attachments, _) => [prompt] + attachments
    case Resumed => []
    case Seeded(added) => added
    case HookRejected(_) => []
  }

  /** An ordinary turn leaves in memory what was there, what it entered with, and the story of its events, whatever writes failed. */
  lemma TurnTold(s: Session, x: TurnScript, fix: seq<Message> -> seq<Message>)
    requires !EndsEarly(s, x) && forall i :: 0 <= i < |x.actions| ==> Ordinary(x.actions[i])
    ensures Conclude(s, x, fix).messages == s.messages + Entering(x.entrance) + Story(Heard(x.actions))
  {
    hide DoAll, FirstWrite, AppendTo, Story, ObserveAll, Ordinary;
    var t := Start(s, x.entrance, x.a, x.b).0;
    RunHears(t, x.actions, fix);
    HeardAdds(x.actions);
    HistoryTold(t.history, Heard(x.actions), fix);
  }

  // ---------------------------------------------------------------- what reaches the log, and when

  /** The events after which the log must hold everything: tool results, finals, attachments and interruptions. */
  predicate Landmark(e: Event) {
    match e.kind
    case ToolResult(_) => !e.rejected
    case FinalAssistant(_) => true
    case Attachment(m) => m.Some?
    case UserInterruption => true
    case _ => false
  }

  /** After a landmark whose write succeeds the log decodes to the whole history, so a crash from then on loses nothing of it. */
  lemma LandmarkDurable(t: Turn, e: Event, first: Snapping, fix: seq<Message> -> seq<Message>)
    requires Agrees(t) && !t.compact && Landmark(e)
    ensures var n := OnEvent(t, e, first, Appended, Recorded, fix);
      Decode(n.log) == n.history.messages && n.history.pending.None? && !n.needs && !n.failed
  {
    hide Decode, Lines;
    var seen := t.(history := Observe(t.history, e, fix));
    ObserveAppends(t.history, e, fix);
    assert t.count <= |t.history.messages| ==> seen.history.messages[..t.count] == t.history.messages[..t.count];
    CheckpointAgrees(seen, false, Appended, Recorded);
  }

  /** Nothing but plain lines has been written since the log was `log` and the messages were `base`. */
  predicate OnlyLines(t: Turn, log: seq<Entry>, base: seq<Message>) {
    && !t.needs && !t.compact && !t.repair && !t.failed
    && |base| <= t.count <= |t.history.messages| && base == t.history.messages[..|base|]
    && t.log == log + Lines(t.history.messages[|base|..t.count])
  }

  /** An ordinary step whose writes succeed. */
  predicate Smooth(x: Action) {
    match x
    case Saw(e, _, a, b) => Ordinary(x) && a == Appended
    case Origin(_, a, _, session) => a == Appended && session
    case _ => false
  }

  lemma {:induction false} LinesMore(a: seq<Message>, b: seq<Message>)
    ensures Lines(a + b) == Lines(a) + Lines(b)
    decreases |b|
  {
    if b == [] {
      assert a + b == a && Lines(a) + [] == Lines(a);
    } else {
      var front, last := b[..|b| - 1], b[|b| - 1];
      LinesMore(a, front);
      var all := a + b;
      assert all[..|all| - 1] == a + front && all[|all| - 1] == last;
      assert (Lines(a) + Lines(front)) + [Line(last)] == Lines(a) + (Lines(front) + [Line(last)]);
    }
  }

  lemma CheckpointLines(t: Turn, b: Snapping, log: seq<Entry>, base: seq<Message>)
    requires OnlyLines(t, log, base)
    ensures var n := Checkpoint(t, false, Appended, b); OnlyLines(n, log, base) && n.count == |n.history.messages|
  {
    hide Lines;
    var ms := Flush(t.history).messages;
    assert ms[|base|..t.count] == t.history.messages[|base|..t.count] && ms[..|base|] == base;
    LinesMore(ms[|base|..t.count], ms[t.count..]);
    assert ms[|base|..t.count] + ms[t.count..] == ms[|base|..];
    assert ms[|base|..|ms|] == ms[|base|..];
    assert (log + Lines(ms[|base|..t.count])) + Lines(ms[t.count..]) == log + (Lines(ms[|base|..t.count]) + Lines(ms[t.count..]));
    if ms[t.count..] == [] { assert ms[|base|..t.count] == ms[|base|..]; }
  }

  lemma SmoothLines(t: Turn, x: Action, fix: seq<Message> -> seq<Message>, log: seq<Entry>, base: seq<Message>)
    requires OnlyLines(t, log, base) && Smooth(x)
    ensures OnlyLines(Do(t, x, fix), log, base)
  {
    hide Lines, Checkpoint, HasAssistant;
    match x
    case Saw(e, _, a, b) =>
      ObserveAppends(t.history, e, fix);
      var seen := t.(history := Observe(t.history, e, fix));
      PrefixLines(t, seen, log, base);
      CheckpointLines(seen, b, log, base);
    case Origin(_, a, b, _) =>
      var f := t.(history := Flush(t.history));
      PrefixLines(t, f, log, base);
      CheckpointLines(f, b, log, base);
      CheckpointLines(t, b, log, base);
  }

  lemma PrefixLines(t: Turn, n: Turn, log: seq<Entry>, base: seq<Message>)
    requires OnlyLines(t, log, base) && n == t.(history := n.history) && t.history.messages <= n.history.messages
    ensures OnlyLines(n, log, base)
  {
    assert n.history.messages[|base|..t.count] == t.history.messages[|base|..t.count];
    assert n.history.messages[..|base|] == t.history.messages[..|base|];
  }

  lemma {:induction false} RunLines(t: Turn, xs: seq<Action>, fix: seq<Message> -> seq<Message>, log: seq<Entry>, base: seq<Message>)
    requires OnlyLines(t, log, base) && forall i :: 0 <= i < |xs| ==> Smooth(xs[i])
    ensures OnlyLines(DoAll(t, xs, fix), log, base)
    decreases |xs|
  {
    hide OnlyLines, Smooth, Do;
    if xs != [] {
      SmoothLines(t, xs[0], fix, log, base);
      RunLines(Do(t, xs[0], fix), xs[1..], fix, log, base);
    }
  }

  /**
   * A turn in which every write succeeds, with no snapshot due before it, writes exactly one line for each message it enters
   * with and each message of its story, in order, no snapshot, and leaves none due.
   */
  lemma TurnAppends(s: Session, x: TurnScript, fix: seq<Message> -> seq<Message>)
    requires !s.required && x.entrance.Fresh? && !EndsEarly(s, x) && x.a == Appended && x.lastAppend == Appended && x.session
    requires forall i :: 0 <= i < |x.actions| ==> Smooth(x.actions[i])
    ensures var n := Conclude(s, x, fix);
      && n.log == s.log + Lines(x.entrance.added + Story(Heard(x.actions)))
      && n.messages == s.messages + (x.entrance.added + Story(Heard(x.actions))) && !n.required
  {
    hide Lines, DoAll, Story, Heard;
    TurnTold(s, x, fix);
    var t := Start(s, x.entrance, x.a, x.b).0;
    StartLines(s, x);
    RunLines(t, x.actions, fix, s.log, s.messages);
    var q := Queried(s, x, fix);
    EndLines(q, x.lastSnap, s.log, s.messages);
    var told := x.entrance.added + Story(Heard(x.actions));
    var all := Conclude(s, x, fix).messages;
    assert all == s.messages + told;
    assert all[|s.messages|..] == told;
  }

  lemma StartLines(s: Session, x: TurnScript)
    requires !s.required && x.entrance.Fresh? && x.a == Appended
    ensures OnlyLines(Start(s, x.entrance, x.a, x.b).0, s.log, s.messages)
  {
    var base := s.messages + x.entrance.added;
    assert base[|s.messages|..|base|] == x.entrance.added;
    assert base[..|s.messages|] == s.messages;
    if x.entrance.added == [] { assert s.log + [] == s.log; }
  }

  lemma EndLines(t: Turn, b: Snapping, log: seq<Entry>, base: seq<Message>)
    requires OnlyLines(t, log, base)
    ensures var n := Finish(t, Appended, b, true); n.log == log + Lines(n.history.messages[|base|..]) && !n.failed
  {
    hide Lines;
    CheckpointLines(t, b, log, base);
    var ms := Flush(t.history).messages;
    assert ms[|base|..|ms|] == ms[|base|..];
  }

  /** A provider-origin commit succeeds exactly when it is staged, an assistant has spoken, and its writes succeed. */
  lemma OriginAccepted(t: Turn, staged: bool, a: Appending, b: Snapping, session: bool)
    requires a == Appended && b == Recorded
    ensures CommitOrigin(t, staged, a, b, session).1 <==>
      staged && session && exists i :: 0 <= i < |Flush(t.history).messages| && Flush(t.history).messages[i].role == Assistant
  {
    hide Lines;
  }

  /** A recorded media snapshot becomes the history, and the log decodes to it. */
  lemma MediaFollows(t: Turn, ms: seq<Message>)
    ensures var (n, ok) := CommitMedia(t, ms, Recorded); ok && n.history == History(ms, None) && Decode(n.log) == ms && !n.needs && !n.failed
  {
    DecodeSnapshot(t.log, ms);
  }
}
