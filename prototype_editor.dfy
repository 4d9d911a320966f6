/**
 * The flow editor's node list and its client-side run: every agent node of the
 * graph, in node-list order, is sent to a chat-completion backend; each agent's
 * answer becomes the next agent's input, the per-agent step list moves
 * pending -> running -> success | error, and the run stops at the first failure.
 *
 * The backend is an oracle from the request sent to its HTTP outcome; the request
 * log kept by the editor is ghost state that exists only to state what was sent.
 */
module PrototypeEditor {
  import opened Wrappers
  import opened Json
  import opened Http
  import Text

  // ---------------------------------------------------------------------------
  // Graph nodes

  datatype Position = Position(x: real, y: real)

  /** A graph node: `kind` is its registered type ("agent" or "data"), `data` its properties. */
  datatype Node = Node(id: string, kind: string, position: Position, data: map<string, Value>)

  const AgentKind := "agent"

  /** The graph a new editor starts with: one chat agent and one text input. */
  const InitialNodes: seq<Node> := [
    Node("1", "agent", Position(300.0, 100.0),
      map["label" := JStr("Chat Assistant"), "agentType" := JStr("chatbot"), "model" := JStr("GPT-4"),
          "temperature" := JNum(0.7), "instructions" := JStr("Assistente conversacional para suporte ao cliente")]),
    Node("2", "data", Position(100.0, 200.0),
      map["label" := JStr("User Input"), "dataType" := JStr("input"), "format" := JStr("text/plain")])
  ]

  /** `node.data.label`, undefined when the node has none. */
  function LabelOf(node: Node): Option<Value> {
    if "label" in node.data then Some(node.data["label"]) else None
  }

  /** Adding a node from the palette: the new node goes at the end of the list. */
  function AppendNode(nodes: seq<Node>, id: string, kind: string, position: Position, data: map<string, Value>): (r: seq<Node>)
    ensures |r| == |nodes| + 1
    ensures r[..|nodes|] == nodes
    ensures r[|nodes|].id == id && r[|nodes|].kind == kind && r[|nodes|].position == position
    ensures r[|nodes|].data == data
  {
    nodes + [Node(id, kind, position, data)]
  }

  /**
   * One node under a property edit: the node whose id is `nodeId` gets `patch` merged
   * over its data (patched keys overwritten, other keys kept); any other node is untouched.
   */
  function PatchNode(n: Node, nodeId: string, patch: map<string, Value>): (r: Node)
    ensures r.id == n.id && r.kind == n.kind && r.position == n.position
    ensures n.id != nodeId ==> r == n
    ensures n.id == nodeId ==>
      && r.data.Keys == n.data.Keys + patch.Keys
      && (forall k :: k in patch ==> r.data[k] == patch[k])
      && (forall k :: k in n.data && k !in patch ==> r.data[k] == n.data[k])
  {
    if n.id == nodeId then n.(data := n.data + patch) else n
  }

  /** Editing a node's properties: each node is patched in place; the order of the list is kept. */
  function MergeNodeData(nodes: seq<Node>, nodeId: string, patch: map<string, Value>): (r: seq<Node>)
    ensures |r| == |nodes|
    ensures forall i :: 0 <= i < |nodes| ==> r[i] == PatchNode(nodes[i], nodeId, patch)
    ensures forall i :: 0 <= i < |nodes| ==> r[i].id == nodes[i].id && r[i].kind == nodes[i].kind
    ensures forall i :: 0 <= i < |nodes| && nodes[i].id != nodeId ==> r[i] == nodes[i]
  {
    seq(|nodes|, i requires 0 <= i < |nodes| => PatchNode(nodes[i], nodeId, patch))
  }

  /** Merging the same patch a second time changes nothing. */
  lemma PatchNodeIdempotent(n: Node, nodeId: string, patch: map<string, Value>)
    ensures PatchNode(PatchNode(n, nodeId, patch), nodeId, patch) == PatchNode(n, nodeId, patch)
  {
    if n.id == nodeId {
      var d := n.data + patch;
      assert d + patch == d;
    }
  }

  /** Applying the same property edit twice is the same as applying it once. */
  lemma MergeNodeDataIdempotent(nodes: seq<Node>, nodeId: string, patch: map<string, Value>)
    ensures MergeNodeData(MergeNodeData(nodes, nodeId, patch), nodeId, patch) == MergeNodeData(nodes, nodeId, patch)
  {
    forall i | 0 <= i < |nodes|
      ensures PatchNode(PatchNode(nodes[i], nodeId, patch), nodeId, patch) == PatchNode(nodes[i], nodeId, patch)
    {
      PatchNodeIdempotent(nodes[i], nodeId, patch);
    }
  }

  /** The agent nodes of a graph, in node-list order (`nodes.filter(n => n.type === 'agent')`). */
  function AgentNodes(nodes: seq<Node>): (r: seq<Node>)
    ensures |r| <= |nodes|
    ensures forall n :: n in r <==> n in nodes && n.kind == AgentKind
    decreases |nodes|
  {
    if nodes == [] then []
    else if nodes[0].kind == AgentKind then [nodes[0]] + AgentNodes(nodes[1..])
    else AgentNodes(nodes[1..])
  }

  lemma {:induction false} AgentNodesConcat(a: seq<Node>, b: seq<Node>)
    ensures AgentNodes(a + b) == AgentNodes(a) + AgentNodes(b)
    decreases |a|
  {
    if a != [] {
      assert (a + b)[1..] == a[1..] + b;
      AgentNodesConcat(a[1..], b);
    } else {
      assert a + b == b;
    }
  }

  /** Adding an agent node adds one step, at the end, to the next run; adding any other node adds none. */
  lemma AppendNodeAgents(nodes: seq<Node>, id: string, kind: string, position: Position, data: map<string, Value>)
    ensures AgentNodes(AppendNode(nodes, id, kind, position, data))
      == AgentNodes(nodes) + (if kind == AgentKind then [Node(id, kind, position, data)] else [])
  {
    var n := Node(id, kind, position, data);
    AgentNodesConcat(nodes, [n]);
    assert AgentNodes([n]) == (if kind == AgentKind then [n] else []) by {
      assert [n][1..] == [];
    }
  }

  /** Editing a list edits its head and its tail independently. */
  lemma MergeNodeDataCons(n: Node, ns: seq<Node>, nodeId: string, patch: map<string, Value>)
    ensures MergeNodeData([n] + ns, nodeId, patch) == [PatchNode(n, nodeId, patch)] + MergeNodeData(ns, nodeId, patch)
  {
    var l := MergeNodeData([n] + ns, nodeId, patch);
    var r := [PatchNode(n, nodeId, patch)] + MergeNodeData(ns, nodeId, patch);
    assert forall i :: 0 <= i < |l| ==> l[i] == r[i];
  }

  /** Editing node properties commutes with selecting the agent nodes. */
  lemma {:induction false} MergeNodeDataAgents(nodes: seq<Node>, nodeId: string, patch: map<string, Value>)
    ensures AgentNodes(MergeNodeData(nodes, nodeId, patch)) == MergeNodeData(AgentNodes(nodes), nodeId, patch)
    decreases |nodes|
  {
    if nodes != [] {
      var n, ns := nodes[0], nodes[1..];
      assert nodes == [n] + ns;
      MergeNodeDataCons(n, ns, nodeId, patch);
      MergeNodeDataAgents(ns, nodeId, patch);
      var tail := MergeNodeData(ns, nodeId, patch);
      assert ([PatchNode(n, nodeId, patch)] + tail)[1..] == tail;
      if n.kind == AgentKind {
        MergeNodeDataCons(n, AgentNodes(ns), nodeId, patch);
      }
    }
  }

  /** Editing node properties never changes which nodes the run visits, nor their order. */
  lemma MergeNodeDataAgentIds(nodes: seq<Node>, nodeId: string, patch: map<string, Value>)
    ensures Ids(AgentNodes(MergeNodeData(nodes, nodeId, patch))) == Ids(AgentNodes(nodes))
  {
    MergeNodeDataAgents(nodes, nodeId, patch);
  }

  function Ids(nodes: seq<Node>): (r: seq<string>)
    ensures |r| == |nodes|
    ensures forall k :: 0 <= k < |nodes| ==> r[k] == nodes[k].id
  {
    seq(|nodes|, k requires 0 <= k < |nodes| => nodes[k].id)
  }

  // ---------------------------------------------------------------------------
  // Agents, as the run reads them

  /** The first agent's input: the run never reads the input data node. */
  const Seed := "Entrada do usuário"
  const DefaultModel := JStr("gpt-4")
  const DefaultInstructions := JStr("Você é um assistente útil.")
  const DefaultMaxTokens := JNum(500.0)

  /**
   * What the run reads from an agent node: its id, its label, and the request
   * settings, each falling back to its default when the node's value is falsy.
   */
  datatype Agent = Agent(id: string, caption: Option<Value>, model: Value, instructions: Value, maxTokens: Value)

  function AgentOf(node: Node): Agent {
    var d := JObj(node.data);
    Agent(node.id, LabelOf(node),
      Or(Member(d, "model"), DefaultModel), Or(Member(d, "instructions"), DefaultInstructions),
      Or(Member(d, "maxTokens"), DefaultMaxTokens))
  }

  /**
   * `node.data.model || 'gpt-4'` and its siblings: a truthy setting of the node is sent
   * as it is, a missing or falsy one is replaced by its default, so every request
   * carries a truthy model, system message and token limit.
   */
  lemma AgentOfSettings(node: Node)
    ensures var a := AgentOf(node);
      && a.id == node.id && a.caption == LabelOf(node)
      && ("model" in node.data && Truthy(node.data["model"]) ==> a.model == node.data["model"])
      && (!("model" in node.data && Truthy(node.data["model"])) ==> a.model == DefaultModel)
      && ("instructions" in node.data && Truthy(node.data["instructions"]) ==> a.instructions == node.data["instructions"])
      && (!("instructions" in node.data && Truthy(node.data["instructions"])) ==> a.instructions == DefaultInstructions)
      && ("maxTokens" in node.data && Truthy(node.data["maxTokens"]) ==> a.maxTokens == node.data["maxTokens"])
      && (!("maxTokens" in node.data && Truthy(node.data["maxTokens"])) ==> a.maxTokens == DefaultMaxTokens)
      && Truthy(a.model) && Truthy(a.instructions) && Truthy(a.maxTokens)
  {
  }

  /** The agents of a graph, in node-list order. */
  function AgentsOf(nodes: seq<Node>): (r: seq<Agent>)
    ensures |r| == |AgentNodes(nodes)|
    ensures forall k :: 0 <= k < |r| ==> r[k] == AgentOf(AgentNodes(nodes)[k])
  {
    var agents := AgentNodes(nodes);
    seq(|agents|, k requires 0 <= k < |agents| => AgentOf(agents[k]))
  }

  // ---------------------------------------------------------------------------
  // Execution steps

  datatype Status = Pending | Running | Success | Error

  /** One agent's entry in the execution view. */
  datatype Step = Step(id: string, caption: Option<Value>, status: Status, result: Option<string>, error: Option<string>)

  /** What a run does to one step: mark it running, or record its answer, or its error. */
  datatype StepUpdate = MarkRunning | MarkSuccess(output: string) | MarkError(message: string)

  /** `{ ...step, status: ..., result | error }` */
  function Apply(s: Step, u: StepUpdate): Step {
    match u
    case MarkRunning => s.(status := Running)
    case MarkSuccess(t) => s.(status := Success, result := Some(t))
    case MarkError(m) => s.(status := Error, error := Some(m))
  }

  /** `prev.map(step => step.id === id ? apply(step) : step)` */
  function UpdateSteps(steps: seq<Step>, id: string, u: StepUpdate): (r: seq<Step>)
    ensures |r| == |steps|
    ensures forall k :: 0 <= k < |steps| ==> r[k].id == steps[k].id
    ensures forall k :: 0 <= k < |steps| && steps[k].id != id ==> r[k] == steps[k]
    ensures forall k :: 0 <= k < |steps| && steps[k].id == id ==> r[k] == Apply(steps[k], u)
  {
    seq(|steps|, k requires 0 <= k < |steps| => if steps[k].id == id then Apply(steps[k], u) else steps[k])
  }

  /** The step list a run starts with: one pending step per agent, in the agents' order. */
  function InitialSteps(agents: seq<Agent>): (r: seq<Step>)
    ensures |r| == |agents|
  {
    if agents == [] then []
    else [Step(agents[0].id, agents[0].caption, Pending, None, None)] + InitialSteps(agents[1..])
  }

  /** The `k`-th initial step is agent `k`'s: its id and label, `pending`, no result and no error. */
  lemma {:induction false} InitialStepsAt(agents: seq<Agent>, k: nat)
    requires k < |agents|
    ensures InitialSteps(agents)[k] == Step(agents[k].id, agents[k].caption, Pending, None, None)
  {
    if k > 0 {
      InitialStepsAt(agents[1..], k - 1);
    }
  }

  // ---------------------------------------------------------------------------
  // The chat-completion backend

  /** The fields of the chat-completion request the run sends for one agent (temperature aside). */
  datatype ChatRequest = ChatRequest(apiKey: string, model: Value, system: Value, user: string, maxTokens: Value)

  /** The body of a 2xx answer: the first choice's message content, or the exception reading it raised. */
  datatype ChatBody = Content(text: string) | Unreadable(message: string)

  /** What `fetch` produced: an HTTP response, or a thrown error with its message. */
  datatype ChatOutcome = Answered(status: nat, body: ChatBody) | Thrown(message: string)

  /** One agent's result as the run sees it. */
  datatype Reply = Ok(text: string) | Err(message: string)

  const ApiErrorPrefix := "Erro na API: "

  /**
   * The response check of one agent call: a status outside 2xx raises
   * "Erro na API: <status>" before the body is read; a 2xx body gives the content,
   * and any exception gives its message.
   */
  function ReplyOf(o: ChatOutcome): Reply {
    match o
    case Thrown(m) => Err(m)
    case Answered(status, body) =>
      if !IsOkStatus(status) then Err(ApiErrorPrefix + Text.DecimalString(status))
      else
        match body
        case Content(t) => Ok(t)
        case Unreadable(m) => Err(m)
  }

  /**
   * An agent call succeeds exactly when the response is 2xx and its content could be
   * read, and then yields that content; a thrown error or an unreadable body yields its
   * message; any other status yields "Erro na API: " followed by the status, which can
   * be read back from the message.
   */
  lemma ReplyOfOutcome(o: ChatOutcome)
    ensures var r := ReplyOf(o);
      && (r.Ok? <==> o.Answered? && IsOkStatus(o.status) && o.body.Content?)
      && (r.Ok? ==> r.text == o.body.text)
      && (o.Thrown? ==> r == Err(o.message))
      && (o.Answered? && IsOkStatus(o.status) && o.body.Unreadable? ==> r == Err(o.body.message))
      && (o.Answered? && !IsOkStatus(o.status) ==>
            && r.Err? && |r.message| > |ApiErrorPrefix| && r.message[..|ApiErrorPrefix|] == ApiErrorPrefix
            && Text.AllDigits(r.message[|ApiErrorPrefix|..])
            && Text.ParseDecimal(r.message[|ApiErrorPrefix|..]) == o.status)
  {
    if o.Answered? && !IsOkStatus(o.status) {
      var digits := Text.DecimalString(o.status);
      Text.ParseDecimalString(o.status);
      assert (ApiErrorPrefix + digits)[|ApiErrorPrefix|..] == digits;
    }
  }

  /** The request for one agent: its settings, and the threaded input as the user message. */
  function RequestFor(agent: Agent, apiKey: string, input: string): ChatRequest {
    ChatRequest(apiKey, agent.model, agent.instructions, input, agent.maxTokens)
  }

  // ---------------------------------------------------------------------------
  // The run, declaratively

  /** One agent's reply to the request built from `input`. */
  function ReplyFor(agent: Agent, apiKey: string, backend: ChatRequest -> ChatOutcome, input: string): Reply {
    ReplyOf(backend(RequestFor(agent, apiKey, input)))
  }

  /**
   * The replies agents `i`, `i + 1`, ... give, in order, each fed the previous reply's
   * text (agent `i` fed `input`), up to and including the first error.
   */
  function Replies(agents: seq<Agent>, i: nat, apiKey: string, backend: ChatRequest -> ChatOutcome, input: string): (r: seq<Reply>)
    requires i <= |agents|
    ensures |r| <= |agents| - i
    ensures i < |agents| ==> |r| >= 1
    ensures forall k :: 0 <= k < |r| - 1 ==> r[k].Ok?
    ensures |r| < |agents| - i ==> r[|r| - 1].Err?
    decreases |agents| - i
  {
    if i == |agents| then []
    else
      var reply := ReplyFor(agents[i], apiKey, backend, input);
      if reply.Ok? then [reply] + Replies(agents, i + 1, apiKey, backend, reply.text)
      else [reply]
  }

  /**
   * Reply `k` is the backend's reply to agent `i + k`, fed the seed when it is the
   * first and the previous reply's text otherwise.
   */
  lemma {:induction false} RepliesAt(agents: seq<Agent>, i: nat, apiKey: string,
                                     backend: ChatRequest -> ChatOutcome, input: string, k: nat)
    requires i <= |agents| && k < |Replies(agents, i, apiKey, backend, input)|
    ensures var r := Replies(agents, i, apiKey, backend, input);
      && i + k < |agents|
      && r[k] == ReplyFor(agents[i + k], apiKey, backend, InputAt(input, r, k))
    decreases k
  {
    var r := Replies(agents, i, apiKey, backend, input);
    var reply := ReplyFor(agents[i], apiKey, backend, input);
    if k > 0 {
      var rest := Replies(agents, i + 1, apiKey, backend, reply.text);
      assert r == [reply] + rest;
      RepliesAt(agents, i + 1, apiKey, backend, reply.text, k - 1);
      assert r[k] == rest[k - 1];
      assert InputAt(input, r, k) == InputAt(reply.text, rest, k - 1) by {
        if k > 1 {
          assert r[k - 1] == rest[k - 2];
        }
      }
    }
  }

  /** Whether every agent answered. */
  predicate AllAnswered(r: seq<Reply>, count: nat) {
    |r| == count && forall k :: 0 <= k < |r| ==> r[k].Ok?
  }

  /** The input of the `k`-th agent: the seed for the first, the previous agent's answer after that. */
  function InputAt(seed: string, r: seq<Reply>, k: nat): string
    requires k <= |r|
    requires forall j :: 0 <= j < k ==> r[j].Ok?
  {
    if k == 0 then seed else r[k - 1].text
  }

  /** The final state of a step whose agent gave `reply`. */
  function Settle(s: Step, reply: Reply): Step {
    Apply(Apply(s, MarkRunning), if reply.Ok? then MarkSuccess(reply.text) else MarkError(reply.message))
  }

  // ---------------------------------------------------------------------------
  // The run, operationally

  /** One request the run sent: the agent, the request, and the step list at the moment it was sent. */
  datatype Call = Call(agent: Agent, request: ChatRequest, stepsAtCall: seq<Step>)

  /**
   * The effect of running agents from `input` on the step list `steps`:
   * the final step list, the requests sent, and the final text if every agent succeeded.
   */
  datatype Trace = Trace(steps: seq<Step>, calls: seq<Call>, final: Option<string>)

  /**
   * The loop of the run from agent `i` on, one agent at a time, exactly as the editor
   * performs it: it keeps the length of the step list and sends one request per reply.
   */
  function Drive(agents: seq<Agent>, i: nat, apiKey: string, backend: ChatRequest -> ChatOutcome,
                 input: string, steps: seq<Step>): (t: Trace)
    requires i <= |agents|
    ensures |t.steps| == |steps|
    ensures |t.calls| == |Replies(agents, i, apiKey, backend, input)|
    ensures forall k :: 0 <= k < |t.calls| ==> |t.calls[k].stepsAtCall| == |steps|
    decreases |agents| - i
  {
    if i == |agents| then Trace(steps, [], Some(input))
    else
      var agent := agents[i];
      var running := UpdateSteps(steps, agent.id, MarkRunning);
      var request := RequestFor(agent, apiKey, input);
      var call := Call(agent, request, running);
      var reply := ReplyOf(backend(request));
      if reply.Ok? then
        var rest := Drive(agents, i + 1, apiKey, backend, reply.text, UpdateSteps(running, agent.id, MarkSuccess(reply.text)));
        Trace(rest.steps, [call] + rest.calls, rest.final)
      else
        Trace(UpdateSteps(running, agent.id, MarkError(reply.message)), [call], None)
  }

  /** The id of the `k`-th agent. */
  function IdAt(agents: seq<Agent>, k: nat): string
    requires k < |agents|
  {
    agents[k].id
  }

  /** No two agents share an id (React Flow keys nodes by id). */
  predicate DistinctIds(agents: seq<Agent>) {
    forall a, b :: 0 <= a < b < |agents| ==> IdAt(agents, a) != IdAt(agents, b)
  }

  /** Steps aligned with agents: the `k`-th step belongs to the `k`-th agent. */
  predicate Aligned(agents: seq<Agent>, steps: seq<Step>) {
    |steps| == |agents| && forall k {:trigger steps[k]} :: 0 <= k < |agents| ==> steps[k].id == agents[k].id
  }

  /** With distinct ids, an update by the id of agent `i` touches step `i` only. */
  lemma UpdateAligned(agents: seq<Agent>, steps: seq<Step>, i: nat, u: StepUpdate)
    requires DistinctIds(agents) && Aligned(agents, steps) && i < |agents|
    ensures var r := UpdateSteps(steps, agents[i].id, u);
      && Aligned(agents, r)
      && r[i] == Apply(steps[i], u)
      && forall k :: 0 <= k < |steps| && k != i ==> r[k] == steps[k]
  {
    forall k | 0 <= k < |steps|
      ensures UpdateSteps(steps, agents[i].id, u)[k] == if k == i then Apply(steps[k], u) else steps[k]
    {
      assert k != i ==> IdAt(agents, k) != IdAt(agents, i);
    }
  }

  /** A run of the remaining agents, after the calls already made in `before`. */
  function Resume(before: seq<Call>, t: Trace): Trace {
    Trace(t.steps, before + t.calls, t.final)
  }

  /**
   * One turn of the run, seen from the loop: after agent `i` is called and gives
   * `reply`, the steps are `after`, and the run either goes on from agent `i + 1`
   * or stops there.
   */
  lemma DriveTurn(agents: seq<Agent>, i: nat, apiKey: string, backend: ChatRequest -> ChatOutcome,
                  input: string, steps: seq<Step>, before: seq<Call>, call: Call, reply: Reply, after: seq<Step>)
    requires i < |agents|
    requires call == Call(agents[i], RequestFor(agents[i], apiKey, input), UpdateSteps(steps, agents[i].id, MarkRunning))
    requires reply == ReplyFor(agents[i], apiKey, backend, input)
    requires after == UpdateSteps(call.stepsAtCall, agents[i].id, if reply.Ok? then MarkSuccess(reply.text) else MarkError(reply.message))
    ensures reply.Ok? ==>
      Resume(before, Drive(agents, i, apiKey, backend, input, steps))
        == Resume(before + [call], Drive(agents, i + 1, apiKey, backend, reply.text, after))
    ensures reply.Err? ==>
      Resume(before, Drive(agents, i, apiKey, backend, input, steps)) == Trace(after, before + [call], None)
  {
    if reply.Ok? {
      var t' := Drive(agents, i + 1, apiKey, backend, reply.text, after);
      assert before + ([call] + t'.calls) == (before + [call]) + t'.calls;
    }
  }

  /**
   * Running the agents from position `i` on aligned steps settles exactly the steps
   * of the agents that were called (one per reply) and leaves every other step as it
   * was; stated for one step position `k`.
   */
  lemma {:induction false} DriveStepAt(agents: seq<Agent>, i: nat, apiKey: string,
                                       backend: ChatRequest -> ChatOutcome, input: string, steps: seq<Step>, k: nat)
    requires DistinctIds(agents) && Aligned(agents, steps) && i <= |agents| && k < |agents|
    ensures var t := Drive(agents, i, apiKey, backend, input, steps);
      var r := Replies(agents, i, apiKey, backend, input);
      t.steps[k] == if i <= k < i + |r| then Settle(steps[k], r[k - i]) else steps[k]
    decreases |agents| - i, 1
  {
    if i < |agents| {
      var agent := agents[i];
      var reply := ReplyFor(agent, apiKey, backend, input);
      UpdateAligned(agents, steps, i, MarkRunning);
      if reply.Ok? {
        DriveStepAtAnswered(agents, i, apiKey, backend, input, steps, k);
      } else {
        UpdateAligned(agents, UpdateSteps(steps, agent.id, MarkRunning), i, MarkError(reply.message));
      }
    }
  }

  /** `DriveStepAt` when agent `i` answers: its step is settled and the run goes on. */
  lemma {:induction false} DriveStepAtAnswered(agents: seq<Agent>, i: nat, apiKey: string,
                                               backend: ChatRequest -> ChatOutcome, input: string, steps: seq<Step>, k: nat)
    requires DistinctIds(agents) && Aligned(agents, steps) && i < |agents| && k < |agents|
    requires ReplyFor(agents[i], apiKey, backend, input).Ok?
    ensures var t := Drive(agents, i, apiKey, backend, input, steps);
      var r := Replies(agents, i, apiKey, backend, input);
      t.steps[k] == if i <= k < i + |r| then Settle(steps[k], r[k - i]) else steps[k]
    decreases |agents| - i, 0
  {
    var agent := agents[i];
    var text := ReplyFor(agent, apiKey, backend, input).text;
    var running := UpdateSteps(steps, agent.id, MarkRunning);
    UpdateAligned(agents, steps, i, MarkRunning);
    var done := UpdateSteps(running, agent.id, MarkSuccess(text));
    UpdateAligned(agents, running, i, MarkSuccess(text));
    DriveStepAt(agents, i + 1, apiKey, backend, text, done, k);
    var r := Replies(agents, i, apiKey, backend, input);
    var r' := Replies(agents, i + 1, apiKey, backend, text);
    if k > i && k < i + |r| {
      assert r[k - i] == r'[k - (i + 1)];
    }
  }

  /**
   * The `k`-th request of a run from position `i` goes to agent `i + k`, carries the
   * threaded input, and is sent while that agent's step is `running`.
   */
  lemma {:induction false} DriveCallAt(agents: seq<Agent>, i: nat, apiKey: string,
                                       backend: ChatRequest -> ChatOutcome, input: string, steps: seq<Step>, k: nat)
    requires DistinctIds(agents) && Aligned(agents, steps) && i <= |agents|
    requires k < |Replies(agents, i, apiKey, backend, input)|
    ensures var t := Drive(agents, i, apiKey, backend, input, steps);
      var r := Replies(agents, i, apiKey, backend, input);
      && i + k < |agents|
      && t.calls[k].agent == agents[i + k]
      && t.calls[k].request == RequestFor(agents[i + k], apiKey, InputAt(input, r, k))
      && t.calls[k].stepsAtCall[i + k].status == Running
    decreases |agents| - i
  {
    var agent := agents[i];
    var running := UpdateSteps(steps, agent.id, MarkRunning);
    UpdateAligned(agents, steps, i, MarkRunning);
    var reply := ReplyFor(agent, apiKey, backend, input);
    if k > 0 {
      var done := UpdateSteps(running, agent.id, MarkSuccess(reply.text));
      UpdateAligned(agents, running, i, MarkSuccess(reply.text));
      var t := Drive(agents, i, apiKey, backend, input, steps);
      var r := Replies(agents, i, apiKey, backend, input);
      var t' := Drive(agents, i + 1, apiKey, backend, reply.text, done);
      var r' := Replies(agents, i + 1, apiKey, backend, reply.text);
      DriveCallAt(agents, i + 1, apiKey, backend, reply.text, done, k - 1);
      assert t.calls[k] == t'.calls[k - 1];
      assert InputAt(input, r, k) == InputAt(reply.text, r', k - 1);
    }
  }

  /** Prefixing an answer keeps "every agent answered", and shifts the final input by one. */
  lemma AnsweredCons(reply: Reply, rest: seq<Reply>, count: nat, input: string)
    requires reply.Ok?
    ensures AllAnswered([reply] + rest, count + 1) <==> AllAnswered(rest, count)
    ensures AllAnswered(rest, count) ==> InputAt(input, [reply] + rest, |rest| + 1) == InputAt(reply.text, rest, |rest|)
  {
    var r := [reply] + rest;
    assert r[0] == reply;
    assert forall k :: 0 <= k < |rest| ==> rest[k] == r[k + 1];
  }

  /** A run from position `i` ends with a text exactly when every remaining agent answered: the last answer. */
  lemma {:induction false} DriveFinal(agents: seq<Agent>, i: nat, apiKey: string,
                                      backend: ChatRequest -> ChatOutcome, input: string, steps: seq<Step>)
    requires i <= |agents|
    ensures var t := Drive(agents, i, apiKey, backend, input, steps);
      var r := Replies(agents, i, apiKey, backend, input);
      && (t.final.Some? <==> AllAnswered(r, |agents| - i))
      && (t.final.Some? ==> t.final.value == InputAt(input, r, |r|))
    decreases |agents| - i
  {
    if i < |agents| {
      var agent := agents[i];
      var running := UpdateSteps(steps, agent.id, MarkRunning);
      var reply := ReplyFor(agent, apiKey, backend, input);
      if reply.Ok? {
        var done := UpdateSteps(running, agent.id, MarkSuccess(reply.text));
        DriveFinal(agents, i + 1, apiKey, backend, reply.text, done);
        AnsweredCons(reply, Replies(agents, i + 1, apiKey, backend, reply.text), |agents| - i - 1, input);
      } else {
        assert Replies(agents, i, apiKey, backend, input)[0] == reply;
      }
    }
  }

  // ---------------------------------------------------------------------------
  // Properties of a whole run

  /** The run of a graph's agents, from the fixed seed, on the initial step list. */
  function Run(agents: seq<Agent>, apiKey: string, backend: ChatRequest -> ChatOutcome): (t: Trace)
    ensures |t.steps| == |agents|
  {
    Drive(agents, 0, apiKey, backend, Seed, InitialSteps(agents))
  }

  /** The initial step list is aligned with the agents. */
  lemma InitialAligned(agents: seq<Agent>)
    ensures Aligned(agents, InitialSteps(agents))
  {
    forall k | 0 <= k < |agents|
      ensures InitialSteps(agents)[k].id == agents[k].id
    {
      InitialStepsAt(agents, k);
    }
  }

  /** The final state of the step of agent `k` after a whole run. */
  lemma RunStepAt(agents: seq<Agent>, apiKey: string, backend: ChatRequest -> ChatOutcome, k: nat)
    requires DistinctIds(agents) && k < |agents|
    ensures var t := Run(agents, apiKey, backend);
      var r := Replies(agents, 0, apiKey, backend, Seed);
      var s := Step(agents[k].id, agents[k].caption, Pending, None, None);
      t.steps[k] == if k < |r| then Settle(s, r[k]) else s
  {
    InitialAligned(agents);
    InitialStepsAt(agents, k);
    DriveStepAt(agents, 0, apiKey, backend, Seed, InitialSteps(agents), k);
  }

  /** The `k`-th request of a whole run. */
  lemma RunCallAt(agents: seq<Agent>, apiKey: string, backend: ChatRequest -> ChatOutcome, k: nat)
    requires DistinctIds(agents) && k < |Replies(agents, 0, apiKey, backend, Seed)|
    ensures var t := Run(agents, apiKey, backend);
      var r := Replies(agents, 0, apiKey, backend, Seed);
      && t.calls[k].agent == agents[k]
      && t.calls[k].request == RequestFor(agents[k], apiKey, InputAt(Seed, r, k))
      && t.calls[k].stepsAtCall[k].status == Running
      && r[k] == ReplyOf(backend(t.calls[k].request))
  {
    InitialAligned(agents);
    DriveCallAt(agents, 0, apiKey, backend, Seed, InitialSteps(agents), k);
    RepliesAt(agents, 0, apiKey, backend, Seed, k);
  }

  /**
   * Fail-fast: when agent `f` is the first to fail, agents before it end `success`
   * with their answers, agent `f` ends `error` with its message, later agents stay
   * `pending`, exactly `f + 1` requests were sent and there is no final result.
   */
  lemma RunFailsFast(agents: seq<Agent>, apiKey: string, backend: ChatRequest -> ChatOutcome)
    requires DistinctIds(agents)
    requires !AllAnswered(Replies(agents, 0, apiKey, backend, Seed), |agents|)
    ensures var t := Run(agents, apiKey, backend);
      var r := Replies(agents, 0, apiKey, backend, Seed);
      var f := |r| - 1;
      && 0 <= f < |agents| && r[f].Err?
      && |t.calls| == f + 1
      && t.final.None?
      && (forall k :: 0 <= k < f ==> t.steps[k].status == Success && t.steps[k].result == Some(r[k].text))
      && t.steps[f].status == Error && t.steps[f].error == Some(r[f].message) && t.steps[f].result.None?
      && (forall k :: f < k < |agents| ==> t.steps[k].status == Pending && t.steps[k].result.None?)
  {
    var t := Run(agents, apiKey, backend);
    var r := Replies(agents, 0, apiKey, backend, Seed);
    DriveFinal(agents, 0, apiKey, backend, Seed, InitialSteps(agents));
    forall k | 0 <= k < |agents|
      ensures k < |r| - 1 ==> t.steps[k].status == Success && t.steps[k].result == Some(r[k].text)
      ensures k == |r| - 1 ==> t.steps[k].status == Error && t.steps[k].error == Some(r[k].message) && t.steps[k].result.None?
      ensures k >= |r| ==> t.steps[k].status == Pending && t.steps[k].result.None?
    {
      RunStepAt(agents, apiKey, backend, k);
    }
  }

  /** Success: when every agent answers, every step ends `success` and the final result is the last answer. */
  lemma RunSucceeds(agents: seq<Agent>, apiKey: string, backend: ChatRequest -> ChatOutcome)
    requires DistinctIds(agents) && agents != []
    requires AllAnswered(Replies(agents, 0, apiKey, backend, Seed), |agents|)
    ensures var t := Run(agents, apiKey, backend);
      var r := Replies(agents, 0, apiKey, backend, Seed);
      && |t.calls| == |agents|
      && (forall k :: 0 <= k < |agents| ==> t.steps[k].status == Success && t.steps[k].result == Some(r[k].text))
      && t.final == Some(r[|agents| - 1].text)
  {
    var t := Run(agents, apiKey, backend);
    var r := Replies(agents, 0, apiKey, backend, Seed);
    DriveFinal(agents, 0, apiKey, backend, Seed, InitialSteps(agents));
    forall k | 0 <= k < |agents|
      ensures t.steps[k].status == Success && t.steps[k].result == Some(r[k].text)
    {
      RunStepAt(agents, apiKey, backend, k);
    }
  }

  /**
   * Result threading: the first request carries the seed, every later request the
   * previous agent's answer, and each request is sent while its own step is `running`.
   */
  lemma RunThreadsResults(agents: seq<Agent>, apiKey: string, backend: ChatRequest -> ChatOutcome)
    requires DistinctIds(agents)
    ensures var t := Run(agents, apiKey, backend);
      var r := Replies(agents, 0, apiKey, backend, Seed);
      && |t.calls| == |r|
      && (forall k :: 0 <= k < |t.calls| ==> t.calls[k].agent == agents[k] && t.calls[k].stepsAtCall[k].status == Running)
      && (|t.calls| > 0 ==> t.calls[0].request.user == Seed)
      && (forall k :: 0 < k < |t.calls| ==> t.calls[k].request.user == r[k - 1].text)
  {
    var t := Run(agents, apiKey, backend);
    var r := Replies(agents, 0, apiKey, backend, Seed);
    forall k | 0 <= k < |t.calls|
      ensures t.calls[k].agent == agents[k] && t.calls[k].stepsAtCall[k].status == Running
      ensures t.calls[k].request.user == InputAt(Seed, r, k)
    {
      RunCallAt(agents, apiKey, backend, k);
    }
  }

  // ---------------------------------------------------------------------------
  // The editor

  /** The notification the run ends with. */
  datatype Notice = MissingApiKey | NoAgents | AgentFailed(caption: Option<Value>) | Completed

  /** A stored key counts only when it is a non-empty string (`!apiKey` rejects null and ""). */
  predicate HasKey(apiKey: Option<string>) {
    apiKey.Some? && apiKey.value != ""
  }

  class Editor {
    var nodes: seq<Node>
    var executionSteps: seq<Step>
    var finalResult: string
    var showExecution: bool
    /** Every chat-completion request sent so far. */
    ghost var requests: seq<Call>

    constructor ()
      ensures nodes == InitialNodes && executionSteps == [] && finalResult == "" && !showExecution
      ensures requests == []
    {
      nodes := InitialNodes;
      executionSteps := [];
      finalResult := "";
      showExecution := false;
      requests := [];
    }

    /** Adds a palette node; the id and position are supplied by the caller. */
    method AddNode(id: string, kind: string, position: Position, data: map<string, Value>)
      modifies this
      ensures nodes == AppendNode(old(nodes), id, kind, position, data)
      ensures executionSteps == old(executionSteps) && finalResult == old(finalResult)
      ensures showExecution == old(showExecution) && requests == old(requests)
    {
      nodes := AppendNode(nodes, id, kind, position, data);
    }

    /** Merges `patch` into the data of the node(s) with id `nodeId`. */
    method UpdateNodeData(nodeId: string, patch: map<string, Value>)
      modifies this
      ensures nodes == MergeNodeData(old(nodes), nodeId, patch)
      ensures executionSteps == old(executionSteps) && finalResult == old(finalResult)
      ensures showExecution == old(showExecution) && requests == old(requests)
    {
      nodes := MergeNodeData(nodes, nodeId, patch);
    }

    /**
     * Runs the flow: refuses without an API key or without agents (nothing changes and
     * nothing is sent), otherwise performs `Run` on the graph's agents: the step list,
     * the requests sent and the final result are those of `Run`, and the final result
     * stays empty unless every agent answered.
     */
    method ExecuteFlow(apiKey: Option<string>, backend: ChatRequest -> ChatOutcome) returns (notice: Notice)
      modifies this
      ensures nodes == old(nodes)
      ensures !HasKey(apiKey) ==> notice == MissingApiKey
      ensures HasKey(apiKey) && AgentNodes(nodes) == [] ==> notice == NoAgents
      ensures !HasKey(apiKey) || AgentNodes(nodes) == [] ==>
        && executionSteps == old(executionSteps) && finalResult == old(finalResult)
        && showExecution == old(showExecution) && requests == old(requests)
      ensures HasKey(apiKey) && AgentNodes(nodes) != [] ==>
        var t := Run(AgentsOf(nodes), apiKey.value, backend);
        && showExecution
        && executionSteps == t.steps
        && requests == old(requests) + t.calls
        && finalResult == (if t.final.Some? then t.final.value else "")
        && notice == (if t.final.Some? then Completed else AgentFailed(t.calls[|t.calls| - 1].agent.caption))
    {
      if !HasKey(apiKey) {
        return MissingApiKey;
      }
      var key := apiKey.value;
      var agents := AgentsOf(nodes);
      if |agents| == 0 {
        return NoAgents;
      }
      notice := RunAgents(agents, key, backend);
    }

    /**
     * The part of the run after both checks: shows the execution view, lays out one
     * pending step per agent and drives the agents in order, stopping at the first failure.
     */
    method RunAgents(agents: seq<Agent>, key: string, backend: ChatRequest -> ChatOutcome) returns (notice: Notice)
      requires agents != []
      modifies this
      ensures nodes == old(nodes)
      ensures var t := Run(agents, key, backend);
        && showExecution
        && executionSteps == t.steps
        && requests == old(requests) + t.calls
        && finalResult == (if t.final.Some? then t.final.value else "")
        && notice == (if t.final.Some? then Completed else AgentFailed(t.calls[|t.calls| - 1].agent.caption))
    {
      executionSteps := [];
      finalResult := "";
      showExecution := true;
      executionSteps := InitialSteps(agents);
      var result := Seed;
      ghost var sent: seq<Call> := [];
      ghost var whole := Run(agents, key, backend);
      assert [] + whole.calls == whole.calls;
      var i := 0;
      while i < |agents|
        invariant 0 <= i <= |agents|
        invariant nodes == old(nodes) && showExecution && finalResult == ""
        invariant requests == old(requests) + sent
        invariant whole == Resume(sent, Drive(agents, i, key, backend, result, executionSteps))
        decreases |agents| - i
      {
        ghost var call;
        var reply;
        reply, call := Turn(agents, i, key, backend, result, sent, whole);
        sent := sent + [call];
        if reply.Err? {
          return AgentFailed(agents[i].caption);
        }
        result := reply.text;
        i := i + 1;
      }
      finalResult := result;
      notice := Completed;
    }

    /**
     * Agent `i`'s turn inside the loop, with the run it belongs to: after the call, the run
     * either goes on from agent `i + 1` on the new steps, or it has ended with this call.
     */
    method Turn(agents: seq<Agent>, i: nat, key: string, backend: ChatRequest -> ChatOutcome, input: string,
                ghost sent: seq<Call>, ghost whole: Trace) returns (reply: Reply, ghost call: Call)
      requires i < |agents|
      requires whole == Resume(sent, Drive(agents, i, key, backend, input, executionSteps))
      modifies this
      ensures nodes == old(nodes) && showExecution == old(showExecution) && finalResult == old(finalResult)
      ensures requests == old(requests) + [call]
      ensures reply == ReplyFor(agents[i], key, backend, input)
      ensures reply.Ok? ==> whole == Resume(sent + [call], Drive(agents, i + 1, key, backend, reply.text, executionSteps))
      ensures reply.Err? ==> whole == Trace(executionSteps, sent + [call], None) && call.agent == agents[i]
    {
      ghost var steps := executionSteps;
      call := Call(agents[i], RequestFor(agents[i], key, input), UpdateSteps(steps, agents[i].id, MarkRunning));
      reply := CallAgent(agents[i], key, backend, input);
      DriveTurn(agents, i, key, backend, input, steps, sent, call, reply, executionSteps);
    }

    /**
     * One agent's turn: its step is marked running, the chat backend is called with the
     * previous output, and the step is settled with the reply.
     */
    method CallAgent(agent: Agent, key: string, backend: ChatRequest -> ChatOutcome, input: string) returns (reply: Reply)
      modifies this
      ensures nodes == old(nodes) && showExecution == old(showExecution) && finalResult == old(finalResult)
      ensures reply == ReplyFor(agent, key, backend, input)
      ensures var running := UpdateSteps(old(executionSteps), agent.id, MarkRunning);
        && requests == old(requests) + [Call(agent, RequestFor(agent, key, input), running)]
        && executionSteps == UpdateSteps(running, agent.id, if reply.Ok? then MarkSuccess(reply.text) else MarkError(reply.message))
    {
      executionSteps := UpdateSteps(executionSteps, agent.id, MarkRunning);
      var request := RequestFor(agent, key, input);
      requests := requests + [Call(agent, request, executionSteps)];
      reply := ReplyOf(backend(request));
      match reply {
        case Err(m) =>
          executionSteps := UpdateSteps(executionSteps, agent.id, MarkError(m));
        case Ok(text) =>
          executionSteps := UpdateSteps(executionSteps, agent.id, MarkSuccess(text));
      }
    }
  }
}
