/**
 * The routing workflow of lib/agent/ma-test.ts: a router node asks a language model to classify
 * the request into one of three steps, a conditional edge sends the run to the matching agent
 * node, and that agent's last message becomes the output. The language model and the agents are
 * oracles passed in as functions; what is modelled is the dispatch, the state channels and the
 * shape of the graph.
 */
module RouterWorkflow {
  import opened Wrappers

  // ---------------------------------------------------------------------------------------------
  // The router's schema: `z.enum(['general', 'weather', 'news'])`

  datatype Step = General | Weather | News

  /** The label of a step as the schema spells it. */
  function StepLabel(step: Step): string {
    match step
    case General => "general"
    case Weather => "weather"
    case News => "news"
  }

  /** Validation of the router's `step` against the enum: only the three labels pass. */
  function ParseStep(text: string): (step: Option<Step>)
    ensures step.Some? <==> text in {"general", "weather", "news"}
  {
    if text == "general" then Some(General)
    else if text == "weather" then Some(Weather)
    else if text == "news" then Some(News)
    else None
  }

  /** Labels and steps correspond one to one. */
  lemma StepLabelRoundTrip(step: Step, text: string)
    ensures ParseStep(StepLabel(step)) == Some(step)
    ensures ParseStep(text) == Some(step) ==> StepLabel(step) == text
  {
  }

  // ---------------------------------------------------------------------------------------------
  // Graph state: `StateAnnotation`

  /** The kinds of `BaseMessage`; kept only to mirror the source's message type, no node reads it. */
  datatype MessageKind = Human | Ai | SystemPrompt | ToolResult

  /** A message of the agents' conversation (`BaseMessage`). */
  datatype AgentMessage = AgentMessage(kind: MessageKind, content: string)

  /**
   * The four channels. `input`, `decision` and `output` keep the last value written (None until
   * one is); `messages` is combined by its reducer and starts empty.
   */
  datatype State = State(input: Option<string>, decision: Option<string>, output: Option<string>, messages: seq<AgentMessage>)

  /** A node's return value: the channels it writes (`{ decision }`, `{ output }`, or the run's input). */
  datatype Update = Update(input: Option<string>, decision: Option<string>, output: Option<string>, messages: Option<seq<AgentMessage>>)

  /** The state before anything is written: only the `messages` default, `[]`. */
  const EmptyState: State := State(None, None, None, [])

  /** The `messages` reducer `(x, y) => x.concat(y)`. */
  function MessagesReducer(x: seq<AgentMessage>, y: seq<AgentMessage>): (r: seq<AgentMessage>)
    ensures |r| == |x| + |y|
    ensures r[..|x|] == x && r[|x|..] == y
  {
    x + y
  }

  /** Writing an update: last-value channels are overwritten when written, `messages` goes through its reducer. */
  function Apply(s: State, u: Update): State {
    State(
      if u.input.Some? then u.input else s.input,
      if u.decision.Some? then u.decision else s.decision,
      if u.output.Some? then u.output else s.output,
      if u.messages.Some? then MessagesReducer(s.messages, u.messages.value) else s.messages)
  }

  /** Writing updates one after the other. */
  function ApplyAll(s: State, updates: seq<Update>): State
    decreases |updates|
  {
    if updates == [] then s else ApplyAll(Apply(s, updates[0]), updates[1..])
  }

  /** Everything the updates write to `messages`, in order. */
  function MessagesWritten(updates: seq<Update>): seq<AgentMessage>
    decreases |updates|
  {
    if updates == [] then [] else updates[0].messages.GetOr([]) + MessagesWritten(updates[1..])
  }

  /**
   * `messages` is append-only: after any run of updates it is the old list followed by everything
   * written, so the old list is always a prefix and the grouping of updates does not matter.
   */
  lemma {:induction false} ApplyAllMessages(s: State, updates: seq<Update>)
    ensures ApplyAll(s, updates).messages == s.messages + MessagesWritten(updates)
    decreases |updates|
  {
    if updates != [] {
      var s1, rest := Apply(s, updates[0]), updates[1..];
      var written, later := updates[0].messages.GetOr([]), MessagesWritten(rest);
      calc {
        ApplyAll(s, updates).messages;
        ApplyAll(s1, rest).messages;
        { ApplyAllMessages(s1, rest); }
        s1.messages + later;
        { ApplyMessages(s, updates[0]); }
        (s.messages + written) + later;
        s.messages + (written + later);
        s.messages + MessagesWritten(updates);
      }
    }
  }

  /** One update adds what it writes to the end of `messages`. */
  lemma ApplyMessages(s: State, u: Update)
    ensures Apply(s, u).messages == s.messages + u.messages.GetOr([])
  {
  }

  /** Writing `a` and then `b` is writing `a + b`. */
  lemma {:induction false} ApplyAllAppend(s: State, a: seq<Update>, b: seq<Update>)
    ensures ApplyAll(s, a + b) == ApplyAll(ApplyAll(s, a), b)
    decreases |a|
  {
    if a == [] {
      assert a + b == b;
    } else {
      assert (a + b)[0] == a[0];
      assert (a + b)[1..] == a[1..] + b;
      ApplyAllAppend(Apply(s, a[0]), a[1..], b);
    }
  }

  // ---------------------------------------------------------------------------------------------
  // Nodes and the conditional edge

  datatype NodeName = LlmCallRouter | WeatherAgent | NewsAgent | GeneralAgent

  /** Why a run fails: the router's answer is outside the enum, or an agent returned no message. */
  datatype GraphError = InvalidRoute(reply: string) | NoAgentReply(agent: NodeName)

  /**
   * `llmCallRouter`: `reply` is the router model's `step` for the run's input. A value outside the
   * enum fails validation; a valid one is written to `decision` and nothing else.
   */
  function RouterNode(s: State, reply: string): (u: Result<Update, GraphError>)
    ensures u.Ok? <==> ParseStep(reply).Some?
    ensures u.Ok? ==> u.value == Update(None, Some(reply), None, None)
    ensures u.Err? ==> u.error == InvalidRoute(reply)
  {
    match ParseStep(reply)
    case Some(step) => Ok(Update(None, Some(StepLabel(step)), None, None))
    case None => Err(InvalidRoute(reply))
  }

  /**
   * `weatherNode`, `newsNode`, `generalNode`: `reply` is the messages the node's agent returned;
   * the content of the last one is written to `output` and nothing else. With no message there
   * is no last one to read and the node fails.
   */
  function AgentNode(agent: NodeName, reply: seq<AgentMessage>): (u: Result<Update, GraphError>)
    ensures u.Ok? <==> |reply| > 0
    ensures u.Ok? ==> u.value == Update(None, None, Some(reply[|reply| - 1].content), None)
    ensures u.Err? ==> u.error == NoAgentReply(agent)
  {
    if |reply| == 0 then Err(NoAgentReply(agent))
    else Ok(Update(None, None, Some(reply[|reply| - 1].content), None))
  }

  /** The targets declared for the conditional edge out of the router. */
  const RouteTargets: seq<NodeName> := [WeatherAgent, NewsAgent, GeneralAgent]

  /** `routeDecision`: "weather" and "news" go to their agents, anything else (unset included) to the general agent. */
  function RouteDecision(s: State): (next: NodeName)
    ensures next in RouteTargets
    ensures next == WeatherAgent <==> s.decision == Some("weather")
    ensures next == NewsAgent <==> s.decision == Some("news")
    ensures next == GeneralAgent <==> s.decision != Some("weather") && s.decision != Some("news")
  {
    if s.decision == Some("weather") then WeatherAgent
    else if s.decision == Some("news") then NewsAgent
    else GeneralAgent
  }

  /** The agent meant for each step. */
  function AgentFor(step: Step): NodeName {
    match step
    case General => GeneralAgent
    case Weather => WeatherAgent
    case News => NewsAgent
  }

  /** After the router writes a step's label, the conditional edge picks that step's agent. */
  lemma RouteDecisionAgrees(s: State, step: Step)
    ensures RouteDecision(s.(decision := Some(StepLabel(step)))) == AgentFor(step)
  {
  }

  // ---------------------------------------------------------------------------------------------
  // The graph: `new StateGraph(...).addNode(...).addEdge(...).addConditionalEdges(...)`

  datatype Vertex = Start | End | Node(name: NodeName)

  /** A graph under construction: its declared nodes and its edges (conditional edges to every declared target). */
  datatype Graph = Graph(nodes: set<NodeName>, edges: set<(Vertex, Vertex)>)

  function AddNode(g: Graph, n: NodeName): Graph {
    g.(nodes := g.nodes + {n})
  }

  function AddEdge(g: Graph, from: Vertex, to: Vertex): Graph {
    g.(edges := g.edges + {(from, to)})
  }

  function AddConditionalEdges(g: Graph, from: NodeName, targets: seq<NodeName>): Graph {
    g.(edges := g.edges + set t | t in targets :: (Node(from), Node(t)))
  }

  /** Every edge joins START, END or a declared node. */
  predicate Compiles(g: Graph) {
    forall e | e in g.edges ::
      (e.0.Node? ==> e.0.name in g.nodes) && (e.1.Node? ==> e.1.name in g.nodes)
  }

  /**
   * `routerWorkflow`, built in the order of the source: the four nodes are declared, and the edges
   * are exactly START to the router, the router to each agent, and each agent to END.
   */
  function Workflow(): (g: Graph)
    ensures g.nodes == {LlmCallRouter, WeatherAgent, NewsAgent, GeneralAgent}
    ensures Compiles(g)
    ensures g.edges == {
      (Start, Node(LlmCallRouter)),
      (Node(LlmCallRouter), Node(WeatherAgent)), (Node(LlmCallRouter), Node(NewsAgent)), (Node(LlmCallRouter), Node(GeneralAgent)),
      (Node(WeatherAgent), End), (Node(NewsAgent), End), (Node(GeneralAgent), End) }
  {
    var g := Graph({}, {});
    var g := AddNode(g, WeatherAgent);
    var g := AddNode(g, NewsAgent);
    var g := AddNode(g, GeneralAgent);
    var g := AddNode(g, LlmCallRouter);
    var g := AddEdge(g, Start, Node(LlmCallRouter));
    RouterEdges();
    var g := AddConditionalEdges(g, LlmCallRouter, RouteTargets);
    var g := AddEdge(g, Node(WeatherAgent), End);
    var g := AddEdge(g, Node(NewsAgent), End);
    AddEdge(g, Node(GeneralAgent), End)
  }

  /** The conditional edge fans the router out to exactly the three agents. */
  lemma RouterEdges()
    ensures (set t | t in RouteTargets :: (Node(LlmCallRouter), Node(t)))
      == {(Node(LlmCallRouter), Node(WeatherAgent)), (Node(LlmCallRouter), Node(NewsAgent)), (Node(LlmCallRouter), Node(GeneralAgent))}
  {
    var fan := set t | t in RouteTargets :: (Node(LlmCallRouter), Node(t));
    assert RouteTargets[0] == WeatherAgent && RouteTargets[1] == NewsAgent && RouteTargets[2] == GeneralAgent;
    assert (Node(LlmCallRouter), Node(WeatherAgent)) in fan;
    assert (Node(LlmCallRouter), Node(NewsAgent)) in fan;
    assert (Node(LlmCallRouter), Node(GeneralAgent)) in fan;
  }

  /** The stage of a vertex: START 0, router 1, agents 2, END 3. */
  function Rank(v: Vertex): nat {
    match v
    case Start => 0
    case Node(LlmCallRouter) => 1
    case Node(_) => 2
    case End => 3
  }

  /** A walk along the workflow's edges. */
  predicate IsPath(p: seq<Vertex>) {
    |p| >= 1 && forall i :: 0 <= i < |p| - 1 ==> (p[i], p[i + 1]) in Workflow().edges
  }

  /** Every step along a path moves exactly one stage on. */
  lemma PathClimbs(p: seq<Vertex>, i: nat, j: nat)
    requires IsPath(p) && i <= j < |p|
    ensures Rank(p[j]) == Rank(p[i]) + (j - i)
  {
    forall k | 0 <= k < |p| - 1
      ensures Rank(p[k + 1]) == Rank(p[k]) + 1
    {
      EdgeClimbs(p[k], p[k + 1]);
    }
    StepsAddUp(p, i, j);
  }

  /** When each step climbs one stage, `j - i` steps climb `j - i` stages. */
  lemma {:induction false} StepsAddUp(p: seq<Vertex>, i: nat, j: nat)
    requires forall k :: 0 <= k < |p| - 1 ==> Rank(p[k + 1]) == Rank(p[k]) + 1
    requires i <= j < |p|
    ensures Rank(p[j]) == Rank(p[i]) + (j - i)
    decreases j - i
  {
    if i < j {
      StepsAddUp(p, i, j - 1);
    }
  }

  /** Every edge moves exactly one stage on. */
  lemma EdgeClimbs(a: Vertex, b: Vertex)
    requires (a, b) in Workflow().edges
    ensures Rank(b) == Rank(a) + 1
  {
    var e := (a, b);
    assert e == (Start, Node(LlmCallRouter))
      || e == (Node(LlmCallRouter), Node(WeatherAgent)) || e == (Node(LlmCallRouter), Node(NewsAgent))
      || e == (Node(LlmCallRouter), Node(GeneralAgent))
      || e == (Node(WeatherAgent), End) || e == (Node(NewsAgent), End) || e == (Node(GeneralAgent), End);
  }

  /** The graph has no cycle: no vertex occurs twice on a path, and no path has more than four vertices. */
  lemma Acyclic(p: seq<Vertex>, i: nat, j: nat)
    requires IsPath(p) && i < j < |p|
    ensures p[i] != p[j]
    ensures |p| <= 4
  {
    PathClimbs(p, i, j);
    PathClimbs(p, 0, |p| - 1);
  }

  /** Every path from START to END is START, the router, one agent, END: the router cannot be skipped. */
  lemma StartToEnd(p: seq<Vertex>)
    requires IsPath(p) && p[0] == Start && p[|p| - 1] == End
    ensures |p| == 4
    ensures p[1] == Node(LlmCallRouter)
    ensures p[2].Node? && p[2].name in RouteTargets
  {
    PathClimbs(p, 0, |p| - 1);
    PathClimbs(p, 0, 1);
    PathClimbs(p, 0, 2);
  }

  // ---------------------------------------------------------------------------------------------
  // A run: `routerWorkflow.invoke(input)`

  /** A finished run: the vertices visited, in order, and the final state. */
  datatype Run = Run(trace: seq<Vertex>, final: State)

  /**
   * One invocation. `router` gives the router model's answer for the input; `agents` gives the
   * messages an agent returns when invoked on a state. The run writes the input, runs the router,
   * follows `routeDecision` to one agent, runs it and stops at END.
   */
  function Invoke(input: Update, router: Option<string> -> string, agents: (NodeName, State) -> seq<AgentMessage>)
    : (r: Result<Run, GraphError>)
    ensures r.Ok? ==>
      && IsPath(r.value.trace) && |r.value.trace| == 4
      && r.value.trace[0] == Start && r.value.trace[3] == End
      && multiset(r.value.trace)[Node(LlmCallRouter)] == 1
    ensures r.Ok? ==> r.value.final.input == input.input && r.value.final.messages == input.messages.GetOr([])
  {
    var s0 := Apply(EmptyState, input);
    match RouterNode(s0, router(s0.input))
    case Err(e) => Err(e)
    case Ok(routed) =>
      var s1 := Apply(s0, routed);
      var next := RouteDecision(s1);
      match AgentNode(next, agents(next, s1))
      case Err(e) => Err(e)
      case Ok(answered) =>
        RunTraceIsPath(next);
        Ok(Run([Start, Node(LlmCallRouter), Node(next), End], Apply(s1, answered)))
  }

  /** The trace of a run through any declared target is a path of the graph that meets the router once. */
  lemma RunTraceIsPath(next: NodeName)
    requires next in RouteTargets
    ensures IsPath([Start, Node(LlmCallRouter), Node(next), End])
    ensures multiset([Start, Node(LlmCallRouter), Node(next), End])[Node(LlmCallRouter)] == 1
  {
    TargetEdges(next);
    StepsIn([Start, Node(LlmCallRouter), Node(next), End], Workflow().edges);
    RouterOnce(next);
  }

  /** Each step of a four-vertex walk whose three steps are in `edges` is in `edges`. */
  lemma StepsIn(p: seq<Vertex>, edges: set<(Vertex, Vertex)>)
    requires |p| == 4 && (p[0], p[1]) in edges && (p[1], p[2]) in edges && (p[2], p[3]) in edges
    ensures forall i :: 0 <= i < |p| - 1 ==> (p[i], p[i + 1]) in edges
  {
    forall i | 0 <= i < |p| - 1
      ensures (p[i], p[i + 1]) in edges
    {
      assert i == 0 || i == 1 || i == 2;
    }
  }

  /** A declared target is entered from the router and leaves for END. */
  lemma TargetEdges(next: NodeName)
    requires next in RouteTargets
    ensures (Start, Node(LlmCallRouter)) in Workflow().edges
    ensures (Node(LlmCallRouter), Node(next)) in Workflow().edges
    ensures (Node(next), End) in Workflow().edges
  {
    var edges := Workflow().edges;
    match next
    case WeatherAgent =>
      assert (Node(LlmCallRouter), Node(WeatherAgent)) in edges && (Node(WeatherAgent), End) in edges;
    case NewsAgent =>
      assert (Node(LlmCallRouter), Node(NewsAgent)) in edges && (Node(NewsAgent), End) in edges;
    case GeneralAgent =>
      assert (Node(LlmCallRouter), Node(GeneralAgent)) in edges && (Node(GeneralAgent), End) in edges;
  }

  /** A trace through a declared target holds the router exactly once. */
  lemma RouterOnce(next: NodeName)
    requires next in RouteTargets
    ensures multiset([Start, Node(LlmCallRouter), Node(next), End])[Node(LlmCallRouter)] == 1
  {
    assert Node(next) != Node(LlmCallRouter);
    assert multiset([Start, Node(LlmCallRouter), Node(next), End])
      == multiset{Start} + multiset{Node(LlmCallRouter)} + multiset{Node(next)} + multiset{End};
  }

  /**
   * What a run does, case by case: an answer outside the enum fails with InvalidRoute; a valid
   * answer goes to the agent meant for its step, and the run fails with NoAgentReply exactly when
   * that agent returns nothing; otherwise it walks START, router, that agent, END, `decision`
   * holds the step's label, `output` the agent's last message, and nothing else is written.
   */
  lemma InvokeSpec(input: Update, router: Option<string> -> string, agents: (NodeName, State) -> seq<AgentMessage>)
    ensures var s0 := Apply(EmptyState, input);
      var reply := router(s0.input);
      match ParseStep(reply)
      case None => Invoke(input, router, agents) == Err(InvalidRoute(reply))
      case Some(step) =>
        var agent := AgentFor(step);
        var s1 := s0.(decision := Some(StepLabel(step)));
        var answer := agents(agent, s1);
        if |answer| == 0 then
          Invoke(input, router, agents) == Err(NoAgentReply(agent))
        else
          Invoke(input, router, agents)
          == Ok(Run([Start, Node(LlmCallRouter), Node(agent), End], s1.(output := Some(answer[|answer| - 1].content))))
  {
    var s0 := Apply(EmptyState, input);
    var reply := router(s0.input);
    match ParseStep(reply)
    case None =>
    case Some(step) =>
      var routed := Update(None, Some(StepLabel(step)), None, None);
      var s1 := s0.(decision := Some(StepLabel(step)));
      StepLabelRoundTrip(step, reply);
      assert RouterNode(s0, reply) == Ok(routed);
      assert Apply(s0, routed) == s1;
      RouteDecisionAgrees(s0, step);
      assert RouteDecision(s1) == AgentFor(step);
  }

  /** The node written to `output` is the one the router's step names: "news" with a news reply gives the news agent's answer. */
  lemma NewsGoesToNewsAgent(input: Update, router: Option<string> -> string, agents: (NodeName, State) -> seq<AgentMessage>)
    requires router(Apply(EmptyState, input).input) == "news"
    requires |agents(NewsAgent, Apply(EmptyState, input).(decision := Some("news")))| > 0
    ensures Invoke(input, router, agents).Ok?
    ensures Invoke(input, router, agents).value.trace[2] == Node(NewsAgent)
    ensures Invoke(input, router, agents).value.final.decision == Some("news")
  {
    InvokeSpec(input, router, agents);
  }
}
