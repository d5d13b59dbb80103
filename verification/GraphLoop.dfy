/**
 * The project graph (engine/graph.go): prepare, model, tool, reconcile and finalize nodes joined by branches, against the
 * plain loop they stand for.  A callback runs at most once per round, so its answers are a function of the round number.
 */
module GraphLoop {
  import opened Basics

  datatype PrepareDecision = NoDecision | ToModel | Again | Stop | BadPrepare
  datatype ModelDecision = Answer | CallTools | BadModel
  datatype ToolDecision = Proceed | Return | Interrupt | BadTool
  datatype ResultKind = Terminal | Returned | Interrupted

  datatype Prepared = Prepared(decision: PrepareDecision, value: string, reason: string)
  datatype ModelRound = ModelRound(decision: ModelDecision, value: string, toolCalls: seq<string>)
  datatype ToolRound = ToolRound(decision: ToolDecision, value: string, reason: string, messages: seq<string>)

  /** `None` is a callback that returns an error. */
  datatype Callbacks = Callbacks(
    prepare: nat -> Option<Prepared>,
    model: nat -> Option<ModelRound>,
    tool: (nat, seq<string>) -> Option<ToolRound>,
    finalize: KernelResult -> bool)

  datatype Node = PrepareNode | ModelNode | ToolNode | ReconcileNode | FinalizeNode

  datatype Calls = Calls(prepare: nat, model: nat, tool: nat)

  datatype KernelResult = KernelResult(kind: ResultKind, value: string, reason: string, messages: seq<string>, trace: seq<Node>, calls: Calls)

  /** projectGraphKernelState. */
  datatype Kernel = Kernel(round: nat, model: ModelRound, tool: ToolRound, trace: seq<Node>, calls: Calls)

  datatype Phase = NoPhase | AfterModel | AfterTool
  datatype Verdict = NoVerdict | ToPrepare | ToTool | ToFinalize

  /** projectGraphStep: what travels along the edges. */
  datatype Baton = Baton(prepared: PrepareDecision, phase: Phase, verdict: Verdict, kind: Option<ResultKind>, value: string, reason: string)

  const NO_MODEL := ModelRound(BadModel, "", [])
  const NO_TOOL := ToolRound(BadTool, "", "", [])
  const COMPLETED := "completed"

  datatype Failure = CallbackFailed(at: Node) | InvalidDecision(at: Node) | NoResultKind

  /** The state after one node: at another node, failed, or done. */
  datatype Progress = At(node: Node, baton: Baton, kernel: Kernel) | Broken(failure: Failure) | Finished(result: KernelResult)

  function Tick(k: Kernel, node: Node): (r: Kernel) {
    k.(trace := k.trace + [node])
  }

  // ---------------------------------------------------------------- the nodes

  function RunPrepare(b: Baton, k: Kernel, c: Callbacks): (r: Progress) {
    var k1 := Tick(k, PrepareNode).(round := k.round + 1, calls := k.calls.(prepare := k.calls.prepare + 1));
    match c.prepare(k1.round)
    case None => Broken(CallbackFailed(PrepareNode))
    case Some(p) =>
      var decision := if p.decision == NoDecision then ToModel else p.decision;
      var next := b.(prepared := decision, phase := NoPhase, verdict := NoVerdict);
      match decision
      case BadPrepare => Broken(InvalidDecision(PrepareNode))
      case Stop =>
        At(FinalizeNode, next.(kind := Some(Terminal), value := p.value, reason := if p.reason == "" then COMPLETED else p.reason), k1)
      case Again => At(PrepareNode, next, k1)
      case _ => At(ModelNode, next, k1)
  }

  function RunModel(b: Baton, k: Kernel, c: Callbacks): (r: Progress) {
    var k1 := Tick(k, ModelNode).(calls := k.calls.(model := k.calls.model + 1));
    match c.model(k1.round)
    case None => Broken(CallbackFailed(ModelNode))
    case Some(m) =>
      if m.decision == BadModel then Broken(InvalidDecision(ModelNode))
      else At(ReconcileNode, b.(prepared := NoDecision, phase := AfterModel, verdict := NoVerdict), k1.(model := m))
  }

  function RunTool(b: Baton, k: Kernel, c: Callbacks): (r: Progress) {
    var k1 := Tick(k, ToolNode).(calls := k.calls.(tool := k.calls.tool + 1));
    match c.tool(k1.round, k1.model.toolCalls)
    case None => Broken(CallbackFailed(ToolNode))
    case Some(t) =>
      if t.decision == BadTool then Broken(InvalidDecision(ToolNode))
      else At(ReconcileNode, b.(phase := AfterTool, verdict := NoVerdict), k1.(tool := t))
  }

  /** reconcileProjectGraphRound: the verdict, and for a final one the result it carries. */
  function Reconcile(phase: Phase, m: ModelRound, t: ToolRound): (r: Option<(Verdict, Option<ResultKind>, string, string)>) {
    match phase
    case NoPhase => None
    case AfterModel =>
      (match m.decision
       case Answer => Some((ToFinalize, Some(Terminal), m.value, ""))
       case CallTools => Some((ToTool, None, "", ""))
       case BadModel => None)
    case AfterTool =>
      match t.decision
      case Proceed => Some((ToPrepare, None, "", t.reason))
      case Return => Some((ToFinalize, Some(Returned), t.value, t.reason))
      case Interrupt => Some((ToFinalize, Some(Interrupted), t.value, t.reason))
      case BadTool => None
  }

  function RunReconcile(b: Baton, k: Kernel): (r: Progress) {
    match Reconcile(b.phase, k.model, k.tool)
    case None => Broken(InvalidDecision(ReconcileNode))
    case Some((verdict, kind, value, reason)) =>
      var next := b.(verdict := verdict);
      match verdict
      case ToPrepare => At(PrepareNode, next, k)
      case ToTool => At(ToolNode, next, k)
      case _ => At(FinalizeNode, next.(kind := kind, value := value, reason := reason), k)
  }

  function RunFinalize(b: Baton, k: Kernel, c: Callbacks): (r: Progress) {
    if b.kind.None? then Broken(NoResultKind)
    else
      var result := KernelResult(b.kind.value, b.value, b.reason, k.tool.messages, k.trace, k.calls);
      if c.finalize(result) then Finished(result) else Broken(CallbackFailed(FinalizeNode))
  }

  function RunNode(p: Progress, c: Callbacks): (r: Progress)
    requires p.At?
  {
    match p.node
    case PrepareNode => RunPrepare(p.baton, p.kernel, c)
    case ModelNode => RunModel(p.baton, p.kernel, c)
    case ToolNode => RunTool(p.baton, p.kernel, c)
    case ReconcileNode => RunReconcile(p.baton, p.kernel)
    case FinalizeNode => RunFinalize(p.baton, p.kernel, c)
  }

  /** The graph for at most `steps` nodes. */
  function RunGraph(p: Progress, c: Callbacks, steps: nat): (r: Progress)
    decreases steps
  {
    if steps == 0 || !p.At? then p else RunGraph(RunNode(p, c), c, steps - 1)
  }

  const FRESH := Kernel(0, NO_MODEL, NO_TOOL, [], Calls(0, 0, 0))
  const NO_BATON := Baton(NoDecision, NoPhase, NoVerdict, None, "", "")

  // ---------------------------------------------------------------- the plain loop

  datatype Outcome = Unfinished | Error(failure: Failure) | Value(result: KernelResult)

  function Close(kind: ResultKind, value: string, reason: string, messages: seq<string>, trace: seq<Node>, calls: Calls, c: Callbacks): (r: Outcome) {
    var result := KernelResult(kind, value, reason, messages, trace, calls);
    if c.finalize(result) then Value(result) else Error(CallbackFailed(FinalizeNode))
  }

  /** Prepare, ask the model, run its tools, repeat: at most `rounds` times.  `messages` are those of the last tool round. */
  function Loop(round: nat, messages: seq<string>, trace: seq<Node>, calls: Calls, c: Callbacks, rounds: nat): (r: Outcome)
    decreases rounds, 0
  {
    if rounds == 0 then Unfinished
    else
      var trace1, calls1 := trace + [PrepareNode], calls.(prepare := calls.prepare + 1);
      match c.prepare(round + 1)
      case None => Error(CallbackFailed(PrepareNode))
      case Some(p) =>
        match p.decision
        case BadPrepare => Error(InvalidDecision(PrepareNode))
        case Stop => Close(Terminal, p.value, if p.reason == "" then COMPLETED else p.reason, messages, trace1, calls1, c)
        case Again => Loop(round + 1, messages, trace1, calls1, c, rounds - 1)
        case _ => Ask(round + 1, messages, trace1, calls1, c, rounds - 1)
  }

  function Ask(round: nat, messages: seq<string>, trace: seq<Node>, calls: Calls, c: Callbacks, rounds: nat): (r: Outcome)
    decreases rounds, 1
  {
    var trace1, calls1 := trace + [ModelNode], calls.(model := calls.model + 1);
    match c.model(round)
    case None => Error(CallbackFailed(ModelNode))
    case Some(m) =>
      match m.decision
      case BadModel => Error(InvalidDecision(ModelNode))
      case Answer => Close(Terminal, m.value, "", messages, trace1, calls1, c)
      case CallTools =>
        var trace2, calls2 := trace1 + [ToolNode], calls1.(tool := calls1.tool + 1);
        match c.tool(round, m.toolCalls)
        case None => Error(CallbackFailed(ToolNode))
        case Some(t) =>
          match t.decision
          case BadTool => Error(InvalidDecision(ToolNode))
          case Return => Close(Returned, t.value, t.reason, t.messages, trace2, calls2, c)
          case Interrupt => Close(Interrupted, t.value, t.reason, t.messages, trace2, calls2, c)
          case Proceed => Loop(round, t.messages, trace2, calls2, c, rounds)
  }

  // ---------------------------------------------------------------- refinement

  function OutcomeOf(p: Progress): (r: Outcome) {
    match p
    case At(_, _, _) => Unfinished
    case Broken(f) => Error(f)
    case Finished(result) => Value(result)
  }

  const NODES_PER_ROUND: nat := 6

  lemma {:induction false} MoreSteps(p: Progress, c: Callbacks, a: nat, b: nat)
    requires !RunGraph(p, c, a).At?
    ensures RunGraph(p, c, a + b) == RunGraph(p, c, a)
    decreases a
  {
    if a > 0 && p.At? { MoreSteps(RunNode(p, c), c, a - 1, b); }
  }

  lemma Steps(p: Progress, c: Callbacks, n: nat)
    requires p.At? && n > 0
    ensures RunGraph(p, c, n) == RunGraph(RunNode(p, c), c, n - 1)
  {}

  lemma ClosesAs(b: Baton, k: Kernel, c: Callbacks, n: nat)
    requires b.kind.Some? && n > 0
    ensures var p := RunGraph(At(FinalizeNode, b, k), c, n);
      !p.At? && OutcomeOf(p) == Close(b.kind.value, b.value, b.reason, k.tool.messages, k.trace, k.calls, c)
  {
    Steps(At(FinalizeNode, b, k), c, n);
  }

  /** The plain loop from a graph state that is about to prepare, and from one that is about to ask the model. */
  function LoopFrom(k: Kernel, c: Callbacks, rounds: nat): (r: Outcome) {
    Loop(k.round, k.tool.messages, k.trace, k.calls, c, rounds)
  }

  function AskFrom(k: Kernel, c: Callbacks, rounds: nat): (r: Outcome) {
    Ask(k.round, k.tool.messages, k.trace, k.calls, c, rounds)
  }

  /** One prepare node, seen from both sides. */
  lemma PrepareAlike(b: Baton, k: Kernel, c: Callbacks, rounds: nat)
    requires rounds > 0
    ensures match RunPrepare(b, k, c)
      case At(node, b1, k1) =>
        && (node == PrepareNode || node == ModelNode || node == FinalizeNode)
        && (node == PrepareNode ==> LoopFrom(k, c, rounds) == LoopFrom(k1, c, rounds - 1))
        && (node == ModelNode ==> LoopFrom(k, c, rounds) == AskFrom(k1, c, rounds - 1))
        && (node == FinalizeNode ==>
              b1.kind.Some? && LoopFrom(k, c, rounds) == Close(b1.kind.value, b1.value, b1.reason, k1.tool.messages, k1.trace, k1.calls, c))
      case Broken(f) => LoopFrom(k, c, rounds) == Error(f)
      case Finished(_) => false
  {
    hide Close, Ask;
  }

  /** The model, tool and reconcile nodes of one round, seen from both sides; an answer without tools needs only two of them. */
  lemma AskAlike(b: Baton, k: Kernel, c: Callbacks, rounds: nat)
    ensures match RunModel(b, k, c)
      case At(node, b1, k1) =>
        (match RunReconcile(b1, k1)
         case At(FinalizeNode, b2, k2) =>
           node == ReconcileNode && b2.kind.Some? &&
           AskFrom(k, c, rounds) == Close(b2.kind.value, b2.value, b2.reason, k2.tool.messages, k2.trace, k2.calls, c)
         case At(ToolNode, b2, k2) =>
           node == ReconcileNode &&
           (match RunTool(b2, k2, c)
            case At(again, b3, k3) =>
              again == ReconcileNode &&
              (match RunReconcile(b3, k3)
               case At(FinalizeNode, b4, k4) =>
                 b4.kind.Some? && AskFrom(k, c, rounds) == Close(b4.kind.value, b4.value, b4.reason, k4.tool.messages, k4.trace, k4.calls, c)
               case At(PrepareNode, b4, k4) => AskFrom(k, c, rounds) == LoopFrom(k4, c, rounds)
               case _ => false)
            case Broken(f) => AskFrom(k, c, rounds) == Error(f)
            case Finished(_) => false)
         case _ => false)
      case Broken(f) => AskFrom(k, c, rounds) == Error(f)
      case Finished(_) => false
  {
    hide Close, Loop;
  }

  lemma {:induction false} GraphFromPrepare(b: Baton, k: Kernel, c: Callbacks, rounds: nat)
    requires LoopFrom(k, c, rounds) != Unfinished
    ensures var p := RunGraph(At(PrepareNode, b, k), c, NODES_PER_ROUND * rounds); !p.At? && OutcomeOf(p) == LoopFrom(k, c, rounds)
    decreases rounds, 0
  {
    hide RunGraph, RunPrepare, Loop, Ask, Close, RunFinalize;
    var p, n := At(PrepareNode, b, k), NODES_PER_ROUND * rounds;
    assert rounds > 0 by { LoopNeedsARound(k, c, rounds); }
    PrepareAlike(b, k, c, rounds);
    Steps(p, c, n);
    var q := RunPrepare(b, k, c);
    match q
    case At(PrepareNode, b1, k1) =>
      GraphFromPrepare(b1, k1, c, rounds - 1);
      MoreSteps(q, c, n - NODES_PER_ROUND, NODES_PER_ROUND - 1);
    case At(ModelNode, b1, k1) => GraphFromModel(b1, k1, c, rounds - 1);
    case At(FinalizeNode, b1, k1) => ClosesAs(b1, k1, c, n - 1);
    case Broken(_) => Stays(q, c, n - 1);
  }

  lemma LoopNeedsARound(k: Kernel, c: Callbacks, rounds: nat)
    requires LoopFrom(k, c, rounds) != Unfinished
    ensures rounds > 0
  {}

  lemma Stays(p: Progress, c: Callbacks, n: nat)
    requires !p.At?
    ensures RunGraph(p, c, n) == p
  {}

  lemma {:induction false} GraphFromModel(b: Baton, k: Kernel, c: Callbacks, rounds: nat)
    requires AskFrom(k, c, rounds) != Unfinished
    ensures var p := RunGraph(At(ModelNode, b, k), c, NODES_PER_ROUND * rounds + 5); !p.At? && OutcomeOf(p) == AskFrom(k, c, rounds)
    decreases rounds, 1
  {
    hide RunGraph, RunModel, RunTool, RunReconcile, Loop, Ask, Close, RunFinalize;
    var n := NODES_PER_ROUND * rounds + 5;
    AskAlike(b, k, c, rounds);
    Steps(At(ModelNode, b, k), c, n);
    var q1 := RunModel(b, k, c);
    if q1.Broken? { Stays(q1, c, n - 1); } else {
      Steps(q1, c, n - 1);
      var q2 := RunReconcile(q1.baton, q1.kernel);
      if q2.node == FinalizeNode { ClosesAs(q2.baton, q2.kernel, c, n - 2); } else {
        Steps(q2, c, n - 2);
        var q3 := RunTool(q2.baton, q2.kernel, c);
        if q3.Broken? { Stays(q3, c, n - 3); } else {
          Steps(q3, c, n - 3);
          var q4 := RunReconcile(q3.baton, q3.kernel);
          if q4.node == FinalizeNode { ClosesAs(q4.baton, q4.kernel, c, n - 4); } else {
            GraphFromPrepare(q4.baton, q4.kernel, c, rounds);
            MoreSteps(q4, c, NODES_PER_ROUND * rounds, 1);
          }
        }
      }
    }
  }

  /** Whenever the plain loop ends within some rounds, the graph ends the same way within six nodes per round. */
  lemma GraphFollowsLoop(c: Callbacks, rounds: nat)
    requires Loop(0, [], [], Calls(0, 0, 0), c, rounds) != Unfinished
    ensures OutcomeOf(RunGraph(At(PrepareNode, NO_BATON, FRESH), c, NODES_PER_ROUND * rounds)) == Loop(0, [], [], Calls(0, 0, 0), c, rounds)
  {
    hide RunGraph, Loop;
    GraphFromPrepare(NO_BATON, FRESH, c, rounds);
  }

  lemma {:induction false} LoopMore(round: nat, messages: seq<string>, trace: seq<Node>, calls: Calls, c: Callbacks, a: nat, b: nat)
    requires Loop(round, messages, trace, calls, c, a) != Unfinished && a <= b
    ensures Loop(round, messages, trace, calls, c, b) == Loop(round, messages, trace, calls, c, a)
    decreases a, 0
  {
    hide Ask, Close;
    if a > 0 && c.prepare(round + 1).Some? {
      var trace1, calls1 := trace + [PrepareNode], calls.(prepare := calls.prepare + 1);
      var decision := c.prepare(round + 1).value.decision;
      if decision == Again { LoopMore(round + 1, messages, trace1, calls1, c, a - 1, b - 1); }
      else if decision == ToModel || decision == NoDecision { AskMore(round + 1, messages, trace1, calls1, c, a - 1, b - 1); }
    }
  }

  lemma {:induction false} AskMore(round: nat, messages: seq<string>, trace: seq<Node>, calls: Calls, c: Callbacks, a: nat, b: nat)
    requires Ask(round, messages, trace, calls, c, a) != Unfinished && a <= b
    ensures Ask(round, messages, trace, calls, c, b) == Ask(round, messages, trace, calls, c, a)
    decreases a, 1
  {
    hide Loop, Close;
    if c.model(round).Some? && c.model(round).value.decision == CallTools {
      var m := c.model(round).value;
      var trace2, calls2 := trace + [ModelNode] + [ToolNode], Calls(calls.prepare, calls.model + 1, calls.tool + 1);
      var t := c.tool(round, m.toolCalls);
      if t.Some? && t.value.decision == Proceed { LoopMore(round, t.value.messages, trace2, calls2, c, a, b); }
    }
  }

  lemma {:induction false} LoopFromPrepare(b: Baton, k: Kernel, c: Callbacks, n: nat)
    requires !RunGraph(At(PrepareNode, b, k), c, n).At?
    ensures LoopFrom(k, c, n) == OutcomeOf(RunGraph(At(PrepareNode, b, k), c, n))
    decreases n
  {
    hide RunGraph, RunPrepare, Loop, Ask, Close, RunFinalize;
    var p := At(PrepareNode, b, k);
    assert n > 0 by { NoSteps(p, c, n); }
    PrepareAlike(b, k, c, n);
    Steps(p, c, n);
    var q := RunPrepare(b, k, c);
    match q
    case At(PrepareNode, b1, k1) => LoopFromPrepare(b1, k1, c, n - 1);
    case At(ModelNode, b1, k1) => LoopFromModel(b1, k1, c, n - 1);
    case At(FinalizeNode, b1, k1) =>
      NoSteps(q, c, n - 1);
      ClosesAs(b1, k1, c, n - 1);
    case Broken(_) => Stays(q, c, n - 1);
  }

  lemma NoSteps(p: Progress, c: Callbacks, n: nat)
    requires p.At? && !RunGraph(p, c, n).At?
    ensures n > 0
  {}

  lemma {:induction false} LoopFromModel(b: Baton, k: Kernel, c: Callbacks, n: nat)
    requires !RunGraph(At(ModelNode, b, k), c, n).At?
    ensures AskFrom(k, c, n) == OutcomeOf(RunGraph(At(ModelNode, b, k), c, n))
    decreases n
  {
    hide RunGraph, RunModel, RunTool, RunReconcile, Loop, Ask, Close, RunFinalize;
    AskAlike(b, k, c, n);
    var p := At(ModelNode, b, k);
    NoSteps(p, c, n);
    Steps(p, c, n);
    var q1 := RunModel(b, k, c);
    if q1.Broken? { Stays(q1, c, n - 1); } else {
      NoSteps(q1, c, n - 1);
      Steps(q1, c, n - 1);
      var q2 := RunReconcile(q1.baton, q1.kernel);
      NoSteps(q2, c, n - 2);
      if q2.node == FinalizeNode { ClosesAs(q2.baton, q2.kernel, c, n - 2); } else {
        Steps(q2, c, n - 2);
        var q3 := RunTool(q2.baton, q2.kernel, c);
        if q3.Broken? { Stays(q3, c, n - 3); } else {
          NoSteps(q3, c, n - 3);
          Steps(q3, c, n - 3);
          var q4 := RunReconcile(q3.baton, q3.kernel);
          NoSteps(q4, c, n - 4);
          if q4.node == FinalizeNode { ClosesAs(q4.baton, q4.kernel, c, n - 4); } else {
            LoopFromPrepare(q4.baton, q4.kernel, c, n - 4);
            var k4 := q4.kernel;
            Ended(q4, c, n - 4);
            LoopMore(k4.round, k4.tool.messages, k4.trace, k4.calls, c, n - 4, n);
          }
        }
      }
    }
  }

  lemma Ended(p: Progress, c: Callbacks, n: nat)
    requires !RunGraph(p, c, n).At?
    ensures OutcomeOf(RunGraph(p, c, n)) != Unfinished
  {}

  /** Whenever the graph ends within some nodes, the plain loop ends the same way within as many rounds. */
  lemma LoopFollowsGraph(c: Callbacks, n: nat)
    requires !RunGraph(At(PrepareNode, NO_BATON, FRESH), c, n).At?
    ensures Loop(0, [], [], Calls(0, 0, 0), c, n) == OutcomeOf(RunGraph(At(PrepareNode, NO_BATON, FRESH), c, n))
  {
    hide RunGraph, Loop;
    LoopFromPrepare(NO_BATON, FRESH, c, n);
  }
}
