/** A turn that resumes an interrupted graph while a snapshot is due: when it repairs the log, and when it does not. */
module TranscriptResume {
  import opened Basics
  import opened TranscriptLog

  /** The log has a snapshot at or after this place. */
  predicate SnapshotSince(log: seq<Entry>, n: nat) {
    exists i :: n <= i < |log| && log[i].Snapshot?
  }

  predicate Committed(x: Action) {
    x.Saw? && x.event.kind.CompactBoundary? && x.event.kind.committed
  }

  /** Some action reports a compaction as committed. */
  predicate AnyCommitted(xs: seq<Action>) {
    exists i :: 0 <= i < |xs| && Committed(xs[i])
  }

  /**
   * A turn that set out from a log that decoded to `had` while memory held `held`, and has written no snapshot since: one is
   * owed, or the log still has `had` where memory has `held`.
   */
  predicate Astray(t: Turn, had: seq<Message>, held: seq<Message>) {
    || t.compact || t.needs
    || (held <= t.history.messages && |held| <= t.count <= |t.history.messages| && Decode(t.log) == had + t.history.messages[|held|..t.count])
  }

  // ---------------------------------------------------------------- what a step writes

  lemma SnapTakes(log: seq<Entry>, ms: seq<Message>, b: Snapping, n: nat)
    requires n <= |log|
    ensures SnapshotSince(SnapTo(log, ms, b), n) <==> SnapshotSince(log, n) || b == Recorded || b == Doubtful(true)
    ensures log <= SnapTo(log, ms, b)
  {
    var next := SnapTo(log, ms, b);
    if b == Recorded || b == Doubtful(true) { assert next[|log|].Snapshot?; }
    else { assert next == log; }
  }

  lemma {:induction false} LinesOnly(ms: seq<Message>)
    ensures forall i :: 0 <= i < |ms| ==> Lines(ms)[i].Line?
  {
    if ms != [] { LinesOnly(ms[..|ms| - 1]); }
  }

  lemma AppendTakes(log: seq<Entry>, ms: seq<Message>, a: Appending, n: nat)
    requires n <= |log|
    ensures SnapshotSince(AppendTo(log, ms, a).0, n) <==> SnapshotSince(log, n)
    ensures log <= AppendTo(log, ms, a).0
  {
    hide Lines;
    var written := if a.Broken? && a.written < |ms| then ms[..a.written] else ms;
    LinesOnly(written);
    var next := AppendTo(log, ms, a).0;
    assert forall i :: 0 <= i < |log| ==> next[i] == log[i];
    assert ms != [] ==> forall i :: |log| <= i < |next| ==> next[i] == Lines(written)[i - |log|];
  }

  lemma CheckpointTakes(t: Turn, force: bool, a: Appending, b: Snapping, n: nat)
    requires n <= |t.log|
    ensures var c := Checkpoint(t, force, a, b);
      && t.log <= c.log
      && (SnapshotSince(c.log, n) && !SnapshotSince(t.log, n) ==> Agrees(c))
      && (SnapshotSince(t.log, n) ==> SnapshotSince(c.log, n))
  {
    hide Decode, SnapshotSince, AppendTo, SnapTo;
    var f := t.(history := Flush(t.history));
    var ms := f.history.messages;
    SnapTakes(f.log, ms, b, n);
    if f.count <= |ms| { AppendTakes(f.log, ms[f.count..], a, n); }
    TakenDecodes(f.log, ms);
    assert ms[..|ms|] == ms;
  }

  lemma TakenDecodes(log: seq<Entry>, ms: seq<Message>)
    ensures Decode(SnapTo(log, ms, Recorded)) == ms
  {
    DecodeSnapshot(log, ms);
  }

  // ---------------------------------------------------------------- astray while no snapshot is written

  lemma CheckpointAstray(t: Turn, force: bool, a: Appending, b: Snapping, had: seq<Message>, held: seq<Message>)
    requires !t.compact && (force || Astray(t, had, held)) && !SnapshotSince(Checkpoint(t, force, a, b).log, |t.log|)
    ensures Astray(Checkpoint(t, force, a, b), had, held)
  {
    hide Decode, Lines, SnapshotSince;
    var f := t.(history := Flush(t.history));
    var ms := f.history.messages;
    SnapTakes(f.log, ms, b, |t.log|);
    if !Full(f, force) {
      DecodeLines(f.log, ms[f.count..]);
      assert ms[|held|..f.count] == t.history.messages[|held|..t.count];
      assert ms[|held|..f.count] + ms[f.count..] == ms[|held|..|ms|];
      assert (had + ms[|held|..f.count]) + ms[f.count..] == had + ms[|held|..|ms|];
    }
  }

  lemma EventAstray(t: Turn, e: Event, first: Snapping, a: Appending, b: Snapping, fix: seq<Message> -> seq<Message>, had: seq<Message>, held: seq<Message>)
    requires Astray(t, had, held) && Expected(t, e) && !(e.kind.CompactBoundary? && e.kind.committed)
    requires !SnapshotSince(OnEvent(t, e, first, a, b, fix).log, |t.log|)
    ensures Astray(OnEvent(t, e, first, a, b, fix), had, held)
  {
    hide Decode, Checkpoint, SnapshotSince, Observe, SnapTo, Expected;
    if !e.kind.CompactBoundary? {
      var settled := if t.compact then SettleCompact(t, first) else t;
      SnapTakes(t.log, Flush(t.history).messages, first, |t.log|);
      var seen := settled.(history := Observe(settled.history, e, fix));
      CheckpointTakes(seen, e.kind.MaxTurns?, a, b, |t.log|);
      if !e.kind.MaxTurns? {
        ObserveAppends(settled.history, e, fix);
        assert Astray(seen, had, held) by { GrownAstray(settled, seen, had, held); }
      }
      if !seen.compact && ShouldCheckpoint(e) {
        ShorterSince(Checkpoint(seen, e.kind.MaxTurns?, a, b).log, |t.log|, |seen.log|);
        CheckpointAstray(seen, e.kind.MaxTurns?, a, b, had, held);
      } else { MarkerOf(t, e); }
    }
  }

  lemma MarkerOf(t: Turn, e: Event)
    requires Expected(t, e)
    ensures e.kind.MaxTurns? ==> ShouldCheckpoint(e)
  {}

  lemma ShorterSince(log: seq<Entry>, n: nat, m: nat)
    requires !SnapshotSince(log, n) && n <= m
    ensures !SnapshotSince(log, m)
  {}

  /** More history after the persisted part changes nothing. */
  lemma GrownAstray(t: Turn, n: Turn, had: seq<Message>, held: seq<Message>)
    requires Astray(t, had, held) && n == t.(history := n.history) && t.history.messages <= n.history.messages
    ensures Astray(n, had, held)
  {
    hide Decode;
    if t.count <= |t.history.messages| && |held| <= t.count { assert n.history.messages[|held|..t.count] == t.history.messages[|held|..t.count]; }
  }

  lemma StepAstray(t: Turn, x: Action, fix: seq<Message> -> seq<Message>, had: seq<Message>, held: seq<Message>)
    requires Astray(t, had, held) && Fits(t, x) && !Committed(x) && !SnapshotSince(Do(t, x, fix).log, |t.log|)
    ensures Astray(Do(t, x, fix), had, held)
  {
    hide Decode, Checkpoint, SnapshotSince, OnEvent, Expected, HasAssistant;
    match x
    case Saw(e, first, a, b) => EventAstray(t, e, first, a, b, fix, had, held);
    case Origin(_, a, b, _) =>
      var f := t.(history := Flush(t.history));
      GrownAstray(t, f, had, held);
      if !t.compact && !SnapshotSince(Checkpoint(f, false, a, b).log, |t.log|) { CheckpointAstray(f, false, a, b, had, held); }
      if t.compact { StaysCompact(f, a, b); }
    case Media(ms, b) => SnapTakes(t.log, ms, b, |t.log|);
    case FileStateFailed =>
  }

  lemma StaysCompact(t: Turn, a: Appending, b: Snapping)
    ensures Checkpoint(t, false, a, b).compact == t.compact
  {}

  // ---------------------------------------------------------------- a snapshot mends

  /** The turn is in agreement, or it has neither written a snapshot since nor lost count. */
  predicate Mendable(t: Turn, n: nat) {
    n <= |t.log| && (Agrees(t) || (!SnapshotSince(t.log, n) && t.count <= |t.history.messages|))
  }

  lemma EventMends(t: Turn, e: Event, first: Snapping, a: Appending, b: Snapping, fix: seq<Message> -> seq<Message>, n: nat)
    requires Mendable(t, n) && !Agrees(t) && Expected(t, e)
    ensures Mendable(OnEvent(t, e, first, a, b, fix), n)
    ensures e.kind.CompactBoundary? ==> Agrees(OnEvent(t, e, first, a, b, fix))
  {
    hide Decode, Checkpoint, SnapshotSince, SettleCompact;
    if e.kind.CompactBoundary? {
      assert e.kind.messages[..|e.kind.messages|] == e.kind.messages;
    } else {
      var seen := t.(history := Observe(t.history, e, fix));
      if ShouldCheckpoint(e) {
        CheckpointTakes(seen, e.kind.MaxTurns?, a, b, n);
        CheckpointCounts(seen, e.kind.MaxTurns?, a, b);
      }
      if !e.kind.MaxTurns? { ObserveAppends(t.history, e, fix); }
    }
  }

  /** A checkpoint that leaves the log without a snapshot due leaves a count within the history. */
  lemma CheckpointCounts(t: Turn, force: bool, a: Appending, b: Snapping)
    ensures var c := Checkpoint(t, force, a, b); c.needs || c.count <= |c.history.messages|
  {
    hide AppendTo, SnapTo;
  }

  lemma StepMends(t: Turn, x: Action, fix: seq<Message> -> seq<Message>, n: nat)
    requires Mendable(t, n) && Fits(t, x)
    ensures Mendable(Do(t, x, fix), n)
    ensures Agrees(t) || Committed(x) ==> Agrees(Do(t, x, fix))
  {
    hide Decode, Checkpoint, SnapshotSince, OnEvent, CommitOrigin, CommitMedia, Expected, Agrees, Followed;
    DoGrows(t, x, fix);
    if Agrees(t) {
      match x
      case Saw(e, first, a, b) => EventAgrees(t, e, first, a, b, fix);
      case Origin(staged, a, b, session) => OriginAgrees(t, staged, a, b, session);
      case Media(ms, b) => MediaAgrees(t, ms, b);
      case FileStateFailed => RepairAgrees(t);
    } else {
      match x
      case Saw(e, first, a, b) => EventMends(t, e, first, a, b, fix, n);
      case Origin(staged, a, b, session) => OriginMends(t, staged, a, b, session, n);
      case Media(ms, b) => MediaMends(t, ms, b, n);
      case FileStateFailed =>
    }
  }

  lemma OriginMends(t: Turn, staged: bool, a: Appending, b: Snapping, session: bool, n: nat)
    requires Mendable(t, n) && !Agrees(t)
    ensures Mendable(CommitOrigin(t, staged, a, b, session).0, n)
  {
    hide Decode, Checkpoint, SnapshotSince, HasAssistant;
    var f := t.(history := Flush(t.history));
    CheckpointTakes(f, false, a, b, n);
    CheckpointCounts(f, false, a, b);
  }

  lemma MediaMends(t: Turn, ms: seq<Message>, b: Snapping, n: nat)
    requires Mendable(t, n) && !Agrees(t) && Followed(t, ms, b)
    ensures Mendable(CommitMedia(t, ms, b).0, n)
  {
    hide Decode, SnapshotSince;
    SnapTakes(t.log, ms, b, n);
    DecodeSnapshot(t.log, ms);
    assert ms[..|ms|] == ms;
  }

  lemma DoGrows(t: Turn, x: Action, fix: seq<Message> -> seq<Message>)
    ensures t.log <= Do(t, x, fix).log
  {
    hide Decode, Checkpoint, SnapshotSince, Observe, SnapTo, HasAssistant;
    match x
    case Saw(e, first, a, b) =>
      var settled := if t.compact && !e.kind.CompactBoundary? then SettleCompact(t, first) else t;
      SnapTakes(t.log, Flush(t.history).messages, first, 0);
      CheckpointTakes(settled.(history := Observe(settled.history, e, fix)), e.kind.MaxTurns?, a, b, 0);
    case Origin(_, a, b, _) => CheckpointTakes(t.(history := Flush(t.history)), false, a, b, 0);
    case Media(ms, b) => SnapTakes(t.log, ms, b, 0);
    case FileStateFailed =>
  }

  // ---------------------------------------------------------------- the whole turn

  lemma {:induction false} RunMends(t: Turn, xs: seq<Action>, fix: seq<Message> -> seq<Message>, n: nat)
    requires Mendable(t, n) && FitsAll(t, xs, fix)
    ensures Mendable(DoAll(t, xs, fix), n) && t.log <= DoAll(t, xs, fix).log
    ensures Agrees(t) || AnyCommitted(xs) ==> Agrees(DoAll(t, xs, fix))
    decreases |xs|
  {
    hide Mendable, Agrees, Do, Fits, Committed;
    if xs != [] {
      var next := Do(t, xs[0], fix);
      StepMends(t, xs[0], fix, n);
      DoGrows(t, xs[0], fix);
      RunMends(next, xs[1..], fix, n);
      if AnyCommitted(xs) && !Committed(xs[0]) {
        var i :| 0 <= i < |xs| && Committed(xs[i]);
        assert xs[1..][i - 1] == xs[i];
      }
    }
  }

  lemma {:induction false} RunAstray(t: Turn, xs: seq<Action>, fix: seq<Message> -> seq<Message>, had: seq<Message>, held: seq<Message>, n: nat)
    requires Astray(t, had, held) && FitsAll(t, xs, fix) && !AnyCommitted(xs) && n <= |t.log| && !SnapshotSince(DoAll(t, xs, fix).log, n)
    ensures Astray(DoAll(t, xs, fix), had, held)
    decreases |xs|
  {
    hide Astray, Do, Fits, Committed;
    if xs != [] {
      var next := Do(t, xs[0], fix);
      DoGrows(t, xs[0], fix);
      AllGrows(next, xs[1..], fix);
      PrefixSince(next.log, DoAll(t, xs, fix).log, n);
      ShorterSince(next.log, n, |t.log|);
      StepAstray(t, xs[0], fix, had, held);
      forall i | 0 <= i < |xs[1..]| ensures !Committed(xs[1..][i]) { assert xs[1..][i] == xs[i + 1]; }
      RunAstray(next, xs[1..], fix, had, held, n);
    }
  }

  lemma {:induction false} AllGrows(t: Turn, xs: seq<Action>, fix: seq<Message> -> seq<Message>)
    ensures t.log <= DoAll(t, xs, fix).log
    decreases |xs|
  {
    hide Do;
    if xs != [] {
      DoGrows(t, xs[0], fix);
      AllGrows(Do(t, xs[0], fix), xs[1..], fix);
    }
  }

  lemma PrefixSince(log: seq<Entry>, more: seq<Entry>, n: nat)
    requires log <= more && !SnapshotSince(more, n)
    ensures !SnapshotSince(log, n)
  {
    forall i | n <= i < |log| ensures !log[i].Snapshot? { assert log[i] == more[i]; }
  }

  /** The last write of a turn that is astray: a snapshot mends it, an append does not unless nothing was amiss. */
  lemma FinishAstray(t: Turn, a: Appending, b: Snapping, session: bool, had: seq<Message>, held: seq<Message>, n: nat)
    requires Astray(t, had, held) && FinalWriteOk(t, a, b) && n <= |t.log| && !SnapshotSince(Finish(t, a, b, session).log, n)
    ensures var f := Finish(t, a, b, session); Decode(f.log) == f.history.messages ==> had == held
  {
    hide Decode, Lines, SnapshotSince;
    var f := t.(history := Flush(t.history));
    var ms := f.history.messages;
    SnapTakes(f.log, ms, b, n);
    if !(f.compact || Full(f, false)) {
      DecodeLines(f.log, ms[f.count..]);
      assert ms[|held|..f.count] == t.history.messages[|held|..t.count];
      assert (had + ms[|held|..f.count]) + ms[f.count..] == had + ms[|held|..];
      assert ms == held + ms[|held|..];
      if had + ms[|held|..] == ms { SamePrefix(had, held, ms[|held|..]); }
    }
  }

  lemma SamePrefix(a: seq<Message>, b: seq<Message>, rest: seq<Message>)
    requires a + rest == b + rest
    ensures a == b
  {
    assert |a + rest| == |b + rest|;
    assert a == (a + rest)[..|a|] && b == (b + rest)[..|b|];
  }

  lemma FinishMends(t: Turn, a: Appending, b: Snapping, session: bool, n: nat)
    requires FinalWriteOk(t, a, b) && Mendable(t, n) && SnapshotSince(Finish(t, a, b, session).log, n)
    ensures var f := Finish(t, a, b, session); Decode(f.log) == f.history.messages
  {
    hide Decode, SnapshotSince, Agrees, AppendTo, SnapTo;
    var f := t.(history := Flush(t.history));
    var ms := f.history.messages;
    if Agrees(t) { FinishAgrees(t, a, b, session); }
    else {
      TakenDecodes(f.log, ms);
      if !(f.compact || Full(f, false)) { AppendTakes(f.log, ms[f.count..], a, n); }
    }
  }

  /**
   * A resumed turn whose final write succeeds leaves a log that decodes to its history exactly when the log was right before,
   * or the turn itself wrote a snapshot or was told of one.  Nothing in it asks for the snapshot that was due.
   */
  lemma ResumedTurnExact(s: Session, x: TurnScript, fix: seq<Message> -> seq<Message>)
    requires x.entrance == Resumed && Sane(s, x, fix) && FinalWriteOk(Queried(s, x, fix), x.lastAppend, x.lastSnap)
    ensures var n := Conclude(s, x, fix);
      Decode(n.log) == n.messages <==> Decode(s.log) == s.messages || SnapshotSince(n.log, |s.log|) || AnyCommitted(x.actions)
  {
    hide Decode, Agrees, Astray, DoAll, FitsAll, SnapshotSince, AnyCommitted, FinalWriteOk, Finish;
    var begun := Start(s, Resumed, x.a, x.b).0;
    var t := Queried(s, x, fix);
    ResumedStart(s, x.a, x.b);
    RunMends(begun, x.actions, fix, |s.log|);
    if Decode(s.log) == s.messages || AnyCommitted(x.actions) { FinishAgrees(t, x.lastAppend, x.lastSnap, x.session); }
    else if SnapshotSince(Conclude(s, x, fix).log, |s.log|) { FinishMends(t, x.lastAppend, x.lastSnap, x.session, |s.log|); }
    else {
      FinishGrows(t, x.lastAppend, x.lastSnap, x.session);
      PrefixSince(t.log, Conclude(s, x, fix).log, |s.log|);
      RunAstray(begun, x.actions, fix, Decode(s.log), s.messages, |s.log|);
      FinishAstray(t, x.lastAppend, x.lastSnap, x.session, Decode(s.log), s.messages, |s.log|);
    }
  }

  lemma FinishGrows(t: Turn, a: Appending, b: Snapping, session: bool)
    ensures t.log <= Finish(t, a, b, session).log
  {
    hide SnapTo, AppendTo;
    var f := t.(history := Flush(t.history));
    var ms := f.history.messages;
    SnapTakes(f.log, ms, b, 0);
    if f.count <= |ms| { AppendTakes(f.log, ms[f.count..], a, 0); }
  }

  lemma ResumedStart(s: Session, a: Appending, b: Snapping)
    ensures var t := Start(s, Resumed, a, b).0;
      t.log == s.log && Mendable(t, |s.log|) && Astray(t, Decode(s.log), s.messages) && (Decode(s.log) == s.messages ==> Agrees(t))
  {
    hide Decode;
    var t := Start(s, Resumed, a, b).0;
    assert s.messages + [] == s.messages;
    assert s.messages[..|s.messages|] == s.messages;
    assert Decode(s.log) + s.messages[|s.messages|..|s.messages|] == Decode(s.log);
  }

  /**
   * What a caller can ask before resuming: every turn that may follow, if its final write succeeds, leaves log and history
   * equal exactly when the log decodes to the messages now.  A durable session with no snapshot due is such a one.
   */
  lemma ResumeExact(s: Session, fix: seq<Message> -> seq<Message>)
    ensures (forall x: TurnScript :: x.entrance == Resumed && Sane(s, x, fix) && FinalWriteOk(Queried(s, x, fix), x.lastAppend, x.lastSnap) ==>
               Decode(Conclude(s, x, fix).log) == Conclude(s, x, fix).messages)
      <==> Decode(s.log) == s.messages
    ensures Durable(s) && !s.required ==> Decode(s.log) == s.messages
  {
    hide Decode, Sane, FinalWriteOk, Conclude, Queried, SnapshotSince;
    if Decode(s.log) == s.messages {
      forall x: TurnScript | x.entrance == Resumed && Sane(s, x, fix) && FinalWriteOk(Queried(s, x, fix), x.lastAppend, x.lastSnap)
        ensures Decode(Conclude(s, x, fix).log) == Conclude(s, x, fix).messages
      {
        ResumedTurnExact(s, x, fix);
      }
    } else {
      var x := TurnScript(Resumed, Appended, Recorded, [], Appended, Recorded, true);
      EmptyTurn(s, x, fix);
      ResumedTurnExact(s, x, fix);
    }
  }

  lemma EmptyTurn(s: Session, x: TurnScript, fix: seq<Message> -> seq<Message>)
    requires x == TurnScript(Resumed, Appended, Recorded, [], Appended, Recorded, true)
    ensures Sane(s, x, fix) && FinalWriteOk(Queried(s, x, fix), x.lastAppend, x.lastSnap)
    ensures !SnapshotSince(Conclude(s, x, fix).log, |s.log|) && !AnyCommitted(x.actions)
  {
    assert s.messages + [] == s.messages;
    assert s.messages[|s.messages|..] == [];
    assert Conclude(s, x, fix).log == s.log;
  }

  /**
   * Two turns that lose a message: the first cannot write its answer and asks for a snapshot, the second resumes, writes
   * nothing wrong, and leaves a log without the answer and no snapshot due.
   */
  lemma ResumeForgetsSnapshot(fix: seq<Message> -> seq<Message>)
    ensures var u, v := Message(User, "u", false), Message(Assistant, "v", false);
      var first := TurnScript(Fresh([u], None), Appended, Recorded, [Saw(Event(FinalAssistant(v), false), Recorded, Broken(0), Recorded)],
                              Appended, Rejected, true);
      var second := TurnScript(Resumed, Appended, Recorded, [], Appended, Recorded, true);
      var s := Conclude(Session([], [], false), first, fix);
      var n := Conclude(s, second, fix);
      && Durable(s) && s == Session([Line(u)], [u, v], true)
      && FinalWriteOk(Queried(s, second, fix), Appended, Recorded)
      && n.messages == [u, v] && !n.required && Decode(n.log) == [u]
  {
    var u, v := Message(User, "u", false), Message(Assistant, "v", false);
    var saw := Saw(Event(FinalAssistant(v), false), Recorded, Broken(0), Recorded);
    var first := TurnScript(Fresh([u], None), Appended, Recorded, [saw], Appended, Rejected, true);
    var s0 := Session([], [], false);
    assert Lines([u]) == [Line(u)] by { assert [u][..0] == []; }
    assert [] + [u] == [u] && [] + [Line(u)] == [Line(u)];
    var t := Start(s0, first.entrance, Appended, Recorded).0;
    assert t == Turn([Line(u)], History([u], None), 1, false, false, false, false);
    assert [u] + [v] == [u, v];
    assert [u, v][1..][..0] == [] && [Line(u)] + Lines([]) == [Line(u)];
    var t1 := Do(t, saw, fix);
    assert t1 == Turn([Line(u)], History([u, v], None), 1, true, false, false, true);
    assert DoAll(t1, [], fix) == t1 && [saw][1..] == [];
    assert DoAll(t, [saw], fix) == t1;
    var s := Conclude(s0, first, fix);
    assert s == Session([Line(u)], [u, v], true);
    assert [u, v] + [] == [u, v] && [u, v][2..] == [];
    assert Decode([Line(u)]) == [u] by { assert [Line(u)][..0] == []; }
  }
}
