# iara-flow-prototyper, the client core in Dafny

This project models the client-side logic of the flow prototyper. The model has four parts.

- **The editor's run** (`PrototypeEditor`).
  - The editor holds a graph of agent and data nodes.
  - It runs every agent node in node-list order against a chat-completion backend.
  - The seed text goes to the first agent. Each agent's answer becomes the next agent's input.
  - A per-agent step list moves `pending -> running -> success | error`.
  - The run stops at the first failure and publishes the last answer when every agent succeeds.
  - The editor also has two node-list edits: adding a node and merging properties into a node.
- **The API client** (`Api`).
  - `request` normalises an HTTP outcome into `{success, data}` or `{success, error}`.
  - The review-agent endpoints are built from the package name.
  - The composite review flow runs collect, analyze and backlog in turn, with fail-fast early returns. It then sends an optional report email whose result is ignored.
- **The registration form** (`RegisterForm`). It runs an ordered chain of checks, calls `register` only when every check passes, and updates its state after submission.
- **The theme toggle** (`ThemeToggle`). It cycles light -> dark -> system, and its icon and tooltip agree with the cycle.

Supporting modules:
- `Json` holds JSON-like values, JavaScript truthiness (`a || b`) and optional chaining (`a?.b`).
- `Text` renders status codes in decimal and reads them back.
- `Wrappers` holds `Option`.

The network is modelled as oracles:
- the chat-completion backend is a function from the request to its outcome;
- the review backend is a function from the HTTP request to its outcome;
- `register` is a function from its arguments to its outcome.

The editor, the API service and the form each keep a ghost log of the requests they sent. That log is how "no request after a failure" and "the email is sent only if ..." are stated.

Each stateful operation is a method of a class whose fields are the component's state: `Editor.ExecuteFlow`, `ApiService.ExecuteReviewFlow` and `Form.HandleSubmit`. Each is proved against a function of its inputs:
- `Run` for the editor; it is defined by `Drive`, a recursive transcription of the loop.
- `ReviewFlow` for the review flow.
- `Validate` and `FailureMessage` for the form.

The properties are proved as lemmas about those functions. Two of them are the index-shifted induction lemmas `DriveStepAt` and `DriveCallAt`, and the declarative `Replies` relates to the operational `Drive`.

What the code does, and so what the model does:
- The first agent always receives the fixed text "Entrada do usuário". No data node is read.
- Agents run in node-list order. Edges are never consulted.
- The code has no branch resolution, no guard against a second concurrent run and no pattern detection over the graph. The run never changes edge animation; every edge is created animated when it is connected.
- The backlog request body is `{days}` only.
- The base URL is the configured `VITE_API_URL` when it is non-empty, and the hard-coded host otherwise.
- Lines 167-246 of `src/services/api.ts` sit outside the class body that closes at line 161, so that file does not compile as written. The model treats them as methods of the service, as they were evidently meant to be.
- `EditorToolbar` declares no `onExecute` or `onConfig` prop (`src/components/editor/EditorToolbar.tsx:15-21`), so the `onExecute={executeFlow}` passed at `src/components/editor/PrototypeEditor.tsx:232` is ignored and the toolbar shown offers no way to start a run. The model treats `executeFlow` as callable.

The run itself and `Editor.ExecuteFlow` are modelled for any node ids. With duplicate ids, `UpdateSteps` updates every step carrying the id and keeps every other step, as the code's `map` does.

## Model

| member | source | states |
|---|---|---|
| PrototypeEditor.AppendNode | src/components/editor/PrototypeEditor.tsx:84-96 | adding a node grows the list by exactly one node at the end, with the given id, type, position and data, and keeps every existing node |
| PrototypeEditor.PatchNode | src/components/editor/PrototypeEditor.tsx:106-110 | for the node with the matching id: its keys become its old keys plus the patch's keys, patched keys take the patch's values, and other keys keep theirs; id, type and position are kept; any other node is returned unchanged |
| PrototypeEditor.MergeNodeData | src/components/editor/PrototypeEditor.tsx:104-112 | a property edit keeps the list's length and order: the node at each position is that node under PatchNode, so the node with the edited id gets the patch merged over its data and every other node comes back unchanged |
| PrototypeEditor.PatchNodeIdempotent | src/components/editor/PrototypeEditor.tsx:106-110 | merging the same patch into a node twice equals merging it once |
| PrototypeEditor.MergeNodeDataIdempotent | src/components/editor/PrototypeEditor.tsx:104-112 | applying the same property edit twice equals applying it once |
| PrototypeEditor.AgentNodes | src/components/editor/PrototypeEditor.tsx:131 | the agent filter is no longer than the node list and holds exactly the nodes whose type is "agent" |
| PrototypeEditor.AgentNodesConcat | src/components/editor/PrototypeEditor.tsx:131 | filtering a concatenation concatenates the filtered parts |
| PrototypeEditor.AppendNodeAgents | src/components/editor/PrototypeEditor.tsx:84-96 | adding an agent node adds exactly that node at the end of the run's agents; adding any other node leaves them unchanged |
| PrototypeEditor.MergeNodeDataAgents | src/components/editor/PrototypeEditor.tsx:104-112 | a property edit commutes with selecting agent nodes (an edit never changes a node's type) |
| PrototypeEditor.MergeNodeDataAgentIds | src/components/editor/PrototypeEditor.tsx:104-112 | a property edit never changes which agents a run visits, nor their order |
| PrototypeEditor.AgentOfSettings | src/components/editor/PrototypeEditor.tsx:166-179 | each request setting (model, system message, token limit) is the node's value when present and truthy and the default otherwise, so each sent setting is truthy |
| PrototypeEditor.AgentsOf | src/components/editor/PrototypeEditor.tsx:131 | one agent per agent node, in node-list order, read from that node |
| PrototypeEditor.InitialSteps | src/components/editor/PrototypeEditor.tsx:145-150 | one step per agent |
| PrototypeEditor.InitialStepsAt | src/components/editor/PrototypeEditor.tsx:145-150 | step k holds agent k's id and label, is pending, and has no result or error |
| PrototypeEditor.UpdateSteps | src/components/editor/PrototypeEditor.tsx:155-157 | an update by id keeps the step list's length and every step's id, updates every step carrying the id (duplicates included) and leaves every other step unchanged |
| PrototypeEditor.UpdateAligned | src/components/editor/PrototypeEditor.tsx:155-196 | with distinct ids, updating by agent i's id changes step i alone, and every other step is untouched |
| PrototypeEditor.ReplyOfOutcome | src/components/editor/PrototypeEditor.tsx:183-196 | a call succeeds iff the status is 2xx and the content is readable, and then yields the content; a thrown or unreadable response yields its message; a non-2xx status yields "Erro na API: " followed by digits that read back as the status |
| PrototypeEditor.Replies | src/components/editor/PrototypeEditor.tsx:154-204 | the replies of the remaining agents: at most one per agent, at least one if any agent remains, every reply but the last is a success, and a shorter list ends in a failure |
| PrototypeEditor.RepliesAt | src/components/editor/PrototypeEditor.tsx:154-204 | reply k is the backend's reply to the request built for agent i+k, fed the seed when k is 0 and reply k-1's text otherwise |
| PrototypeEditor.Drive | src/components/editor/PrototypeEditor.tsx:154-206 | the loop keeps the step list's length and sends exactly one request per reply, each while the step list has that length |
| PrototypeEditor.DriveStepAt | src/components/editor/PrototypeEditor.tsx:154-204 | from any position, the steps of the agents that were called are settled with their replies, and every other step is left as it was |
| PrototypeEditor.DriveCallAt | src/components/editor/PrototypeEditor.tsx:154-181 | the k-th request goes to the next agent in order, carries the threaded input and is sent while that agent's step is running |
| PrototypeEditor.DriveFinal | src/components/editor/PrototypeEditor.tsx:154-206 | the loop ends with a text iff every remaining agent answered, and the text is then the last answer |
| PrototypeEditor.Run | src/components/editor/PrototypeEditor.tsx:145-150 | a run keeps exactly one step per agent |
| PrototypeEditor.RunStepAt | src/components/editor/PrototypeEditor.tsx:145-196 | after a run, agent k's step is its pending step settled with its reply if it was called, and still pending if not |
| PrototypeEditor.RunCallAt | src/components/editor/PrototypeEditor.tsx:154-196 | the k-th request goes to agent k with its settings and the threaded input, while its step is running, and reply k of the run is the backend's answer to exactly that request |
| PrototypeEditor.RunFailsFast | src/components/editor/PrototypeEditor.tsx:193-203 | when agent f is the first to fail: earlier steps are success with their answers, step f is error with the message and no result, later steps stay pending, exactly f + 1 requests were sent, and there is no final result |
| PrototypeEditor.RunSucceeds | src/components/editor/PrototypeEditor.tsx:190-206 | when every agent answers: one request per agent, every step is success with its answer, and the final result is the last answer |
| PrototypeEditor.RunThreadsResults | src/components/editor/PrototypeEditor.tsx:152-188 | the first request carries the seed "Entrada do usuário", each later one the previous answer, and each is sent while its step is running |
| PrototypeEditor.Editor.constructor | src/components/editor/PrototypeEditor.tsx:61-69 | the editor starts with the two initial nodes, no steps, an empty final result, the execution view hidden and nothing sent |
| PrototypeEditor.Editor.AddNode | src/components/editor/PrototypeEditor.tsx:84-96 | the node list becomes AppendNode of the old one, and nothing else changes |
| PrototypeEditor.Editor.UpdateNodeData | src/components/editor/PrototypeEditor.tsx:104-112 | the node list becomes MergeNodeData of the old one, and nothing else changes |
| PrototypeEditor.Editor.ExecuteFlow | src/components/editor/PrototypeEditor.tsx:120-211 | without a key or without agents it returns with nothing changed and nothing sent; otherwise the steps, the requests sent, the final result ('' unless every agent answered) and the failing agent's label are those of Run |
| PrototypeEditor.Editor.RunAgents | src/components/editor/PrototypeEditor.tsx:141-211 | after both checks, the view is shown and the state and request log become those of Run |
| PrototypeEditor.Editor.Turn | src/components/editor/PrototypeEditor.tsx:154-204 | one iteration of the loop takes the run one agent further, or ends it with this agent's request |
| PrototypeEditor.Editor.CallAgent | src/components/editor/PrototypeEditor.tsx:155-196 | one agent's turn: its step is marked running, one request with the current input is logged, and its step is settled with the reply |
| Json.Or | src/components/editor/PrototypeEditor.tsx:167 | `a \|\| b` is one of its operands, the left one whenever it is truthy, and it is truthy exactly when either operand is |
| Json.Path | src/services/api.ts:219 | optional chaining yields undefined as soon as a step is undefined, and a step from `null` is undefined |
| Text.DecimalString | src/components/editor/PrototypeEditor.tsx:184 | a status renders as a non-empty string of digits without a leading zero |
| Text.ParseDecimalString | src/components/editor/PrototypeEditor.tsx:184 | reading a rendered status back gives the status |
| Api.StatusMessage | src/services/api.ts:56 | the fallback error starts with "HTTP " and ends with the status text |
| Api.Normalize | src/services/api.ts:39-69 | success iff a response arrived, its body parsed and its status is 2xx, with the parsed body as data; a failed fetch or an unparseable body fails with the error's message or "Erro desconhecido" |
| Api.NormalizeHttpError | src/services/api.ts:53-58 | a non-2xx response fails with the body's error field when truthy, else "HTTP <status>: <statusText>"; a null body fails with the TypeError raised by reading its field |
| Api.StatusMessageInjective | src/services/api.ts:56 | the fallback error determines the status and the status text |
| Api.ReviewPathInjective | src/services/api.ts:167-185 | distinct packages or stages never share a review endpoint |
| Api.ReportEmails | src/services/api.ts:219-228 | the report email is sent iff a non-empty manager email is given and the negative count is positive |
| Api.ReviewFlow | src/services/api.ts:198-246 | a review flow sends between one and four requests |
| Api.ReviewFlowOrder | src/services/api.ts:201-216 | collect, analyze and backlog are sent in that order, as far as the flow gets; the flow succeeds iff it reaches the backlog and the backlog succeeds |
| Api.ReviewFlowBacklogDefault | src/services/api.ts:180-184 | the flow's backlog request, when sent, is a POST whose body is `{days: 7}`: only `days`, at its default |
| Api.ReviewFlowFailsFast | src/services/api.ts:201-216 | when stage k fails first, its response is returned unchanged and only the first k + 1 stage requests were sent |
| Api.ReviewFlowSucceeds | src/services/api.ts:228-239 | when all three stages succeed, the flow succeeds with their data and the fixed message, whatever the email call returns |
| Api.ReviewFlowEmail | src/services/api.ts:219-228 | the email is sent iff all stages succeed, an email is given and the negative count is positive; it goes last, to that address, with the package name and the count |
| Api.ReviewFlowIgnoresEmail | src/services/api.ts:228-239 | the email argument never changes the flow's response or the stage requests |
| Api.ApiService.constructor | src/services/api.ts:2 | the base URL is the configured one if non-empty, else the default host |
| Api.ApiService.Request | src/services/api.ts:39-69 | one request to base URL + endpoint is logged, and its outcome normalised |
| Api.ApiService.CollectReviews | src/services/api.ts:168-172 | POST to `/review-agent/apps/{package}/collect` without a body |
| Api.ApiService.AnalyzeReviews | src/services/api.ts:174-178 | POST to `/review-agent/apps/{package}/analyze` without a body |
| Api.ApiService.GenerateBacklog | src/services/api.ts:180-185 | POST to `/review-agent/apps/{package}/backlog` with `{days}` |
| Api.ApiService.SendReportEmail | src/services/api.ts:187-195 | POST to `/review-agent/send-report-email` with the recipient and the report |
| Api.ApiService.SendReportIfDue | src/services/api.ts:219-229 | sends the report exactly when it is due |
| Api.ApiService.ExecuteReviewFlow | src/services/api.ts:198-246 | the response and the requests sent are those of ReviewFlow |
| RegisterForm.Validate | src/components/auth/RegisterForm.tsx:31-47 | the fields pass iff all four are filled, the passwords match and the password has at least 6 characters |
| RegisterForm.ValidateFirstFailure | src/components/auth/RegisterForm.tsx:31-47 | each message is reported iff its check fails and every earlier check passes |
| RegisterForm.ValidateAccepts | src/components/auth/RegisterForm.tsx:31-49 | accepted fields have equal passwords of at least 6 characters and a non-empty username and email |
| RegisterForm.FailureMessage | src/components/auth/RegisterForm.tsx:60-64 | a failed registration shows result.error when present and non-empty, else "Erro no registro"; a thrown one shows "Erro de conexão"; the shown error is never empty |
| RegisterForm.Form.constructor | src/components/auth/RegisterForm.tsx:16-22 | the form starts with empty fields and messages, not loading |
| RegisterForm.Form.HandleSubmit | src/components/auth/RegisterForm.tsx:25-68 | a failing check shows its message, keeps the fields and does not call register; otherwise register is called once with (username, password, email): success clears the fields and shows the success message, failure keeps them and shows FailureMessage; loading is off on every exit |
| ThemeToggle.Toggle | src/components/ThemeToggle.tsx:8-16 | a click always changes the theme: light goes to dark and dark to system (iff), and any other theme goes to light |
| ThemeToggle.ToggleCycle | src/components/ThemeToggle.tsx:8-16 | three clicks return to the start, and two never do |
| ThemeToggle.ToggleBijective | src/components/ThemeToggle.tsx:8-16 | every theme is reached by a click from exactly one theme |
| ThemeToggle.IconOf | src/components/ThemeToggle.tsx:18-22 | the icon is the moon iff the theme is dark |
| ThemeToggle.ModeNameInjective | src/components/ThemeToggle.tsx:24-28 | the three texts the tooltip can show are pairwise distinct, so each names one theme |
| ThemeToggle.Tooltip | src/components/ThemeToggle.tsx:24-28 | the tooltip is the name of the theme the next click selects |
| ThemeToggle.TooltipNeverCurrent | src/components/ThemeToggle.tsx:24-28 | the tooltip never names the current theme |

## Left out

- Toasts, the welcome and configuration dialogs, node selection, edges (`onConnect`), rendering, and the `setTimeout(onSuccess, 2000)` after registration are user-interface effects with no bearing on the modelled state.
- `fetch`, headers (`Authorization`, `Content-Type`), JSON serialisation and the `async` scheduling are replaced by the oracles. There is no concurrency in the modelled code.
- `localStorage.getItem('openai_api_key')` is a parameter of `Editor.ExecuteFlow`, and `Date.now`/`Math.random` in `addNode` are parameters of `Editor.AddNode`.
- PrototypeEditor.ChatRequest: the `temperature` field (`node.data.temperature || 0.7`) is floating point and is left out of the request.
- PrototypeEditor.ReplyOf: the body is modelled as readable content (a string) or an exception. A content that is present but not a string (null, a number) is not modelled, nor is a missing content: there `data.choices[0].message.content` is `undefined`, the step succeeds with an undefined result, and `undefined` becomes the next agent's input and possibly the final result.
- PrototypeEditor.Step: the label is the node's `data.label` as a value, or undefined. The failure toast's text is not modelled; `AgentFailed` carries the same label.
- Api.Normalize: the TypeError text for a null error body is V8's wording; other engines word it differently.
- Api.IsPositive: `count > 0` is modelled for undefined, null, booleans and numbers. A string or array count (JavaScript coerces those to numbers) counts as not positive.
- Api.BacklogBody: a NaN or infinite `days` (serialised as null) is not modelled.
- Api.ApiService.ExecuteReviewFlow: the outer `catch` and its "Erro no fluxo de review" fallback are unreachable: `request` never throws and the email guard only reads the count through optional chaining. So they are not modelled.
- Api.ApiService: the review backend is a function of the request. Two identical requests therefore get the same outcome. One flow never repeats a request, so this does not restrict a single flow.
- PrototypeEditor.DistinctIds: the lemmas about a whole run (UpdateAligned, DriveStepAt, DriveCallAt, RunStepAt, RunCallAt, RunFailsFast, RunSucceeds, RunThreadsResults) assume that agent ids are distinct, as React Flow requires of node ids. Ids made from `${Date.now()}` (`src/components/editor/PrototypeEditor.tsx:86`) can collide when two nodes are added within one millisecond; for such a graph these lemmas promise nothing.
- PrototypeEditor.ReplyFor: the chat backend is a function of the request. Two identical requests in one run therefore get the same answer; that happens when a later agent with the same settings receives the same input as an earlier one. No proved property depends on it.
- The other endpoints of `ApiService` (flows, executions, validation, connection test) are not part of this model. Neither are `gemini-api.ts`, `authService.ts` and `AuthContext.tsx`. `register` is an oracle.
- RegisterForm.LongEnough: `password.length` counts UTF-16 code units; the model counts characters.
- ThemeToggle.Theme: the theme provider is not part of this model. The stored theme is taken to be one of its three values, so "any other value goes to light" is stated for `System` only.
