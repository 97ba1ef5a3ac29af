/** The chat agent: the tool wrappers, the `agent` node (system prompt,
    prepend rule, one model reply per step), the `tools` node, the
    `should_continue` router and the graph `agent -> tools -> agent`. The
    language model and the tool executions are function parameters. */
module Agent {
  import opened Common
  import Tools

  // ---------------------------------------------------------------------
  // Messages
  // ---------------------------------------------------------------------

  datatype ToolCall = ToolCall(id: string, name: string, args: string)

  datatype Message =
    | SystemMsg(content: string)
    | HumanMsg(content: string)
    | AiMsg(content: string, toolCalls: seq<ToolCall>)
    | ToolMsg(content: string, toolCallId: string)

  /** What the model call yields for a list of input messages: a reply, or
      the error it raises (a missing key when the client is built, a failed
      request when it is invoked). */
  datatype Reply =
    | Reply(content: string, toolCalls: seq<ToolCall>)
    | ModelRaised(error: string)

  function Last(s: seq<Message>): Message
    requires s != []
  {
    s[|s| - 1]
  }

  /** The number of system messages in a history. */
  function SystemCount(s: seq<Message>): nat {
    if s == [] then 0 else (if s[0].SystemMsg? then 1 else 0) + SystemCount(s[1..])
  }

  lemma {:induction false} SystemCountAppend(a: seq<Message>, b: seq<Message>)
    ensures SystemCount(a + b) == SystemCount(a) + SystemCount(b)
  {
    if a != [] {
      assert (a + b)[1..] == a[1..] + b;
      SystemCountAppend(a[1..], b);
    } else {
      assert a + b == b;
    }
  }

  // ---------------------------------------------------------------------
  // Tool wrappers
  // ---------------------------------------------------------------------

  /** The four tools bound to the model. */
  datatype Wrapper = QuerySql | VectorSearch | BudgetCheck | Diagnostics
  {
    function Name(): string {
      match this
      case QuerySql => "query_sql_tool"
      case VectorSearch => "vector_search_tool"
      case BudgetCheck => "budget_tool"
      case Diagnostics => "diagnostics_tool"
    }
  }

  const SqlArityError: string := "run_sql_query() takes 1 positional argument but 2 were given"
  const BudgetArityError: string := "check_budget_status() takes 0 positional arguments but 1 was given"

  /** Python's message for awaiting a value of type `typeName`. */
  function NotAwaitable(typeName: string): string {
    "object " + typeName + " can't be used in 'await' expression"
  }

  /** Running a wrapper. The SQL wrapper passes `user_id` to a one-argument
      function and the budget wrapper passes it to a function without
      arguments, so both raise a `TypeError` before any work. The search
      wrapper calls the synchronous search (with `user_id` as `n_results`)
      and then awaits its plain result, a list on success and a string on
      failure, which raises too. The diagnostics target is not part of this
      model; its outcome is the parameter `diagnostics`. */
  function RunWrapper(w: Wrapper, searchFailed: bool, diagnostics: Result<string>): (r: Result<string>)
    ensures w != Diagnostics ==> r.Raised?
    ensures w == QuerySql ==> r.error == SqlArityError
    ensures w == BudgetCheck ==> r.error == BudgetArityError
    ensures w == VectorSearch ==> r.error == NotAwaitable(if searchFailed then "str" else "list")
    ensures w == Diagnostics ==> r == diagnostics
  {
    match w
    case QuerySql => Raised(SqlArityError)
    case BudgetCheck => Raised(BudgetArityError)
    case VectorSearch => Raised(NotAwaitable(if searchFailed then "str" else "list"))
    case Diagnostics => diagnostics
  }

  // ---------------------------------------------------------------------
  // The system prompt
  // ---------------------------------------------------------------------

  /** `f"{user_id}"`: the context variable defaults to `None`. */
  function UserIdText(userId: Option<nat>): (t: string)
    ensures userId.None? ==> t == "None"
    ensures userId.Some? ==> t == NatToString(userId.value)
  {
    match userId
    case None => "None"
    case Some(n) => NatToString(n)
  }

  const RoleText: string :=
    "\n    You are a Financial Advisor. You have access to a SQL Database, Vector Store, and Diagnostic Tools.\n    \n    "
  const UserIdLabel: string := "CURRENT USER ID: "
  const SchemaLabel: string := "\n    \n    DATABASE SCHEMA:\n    "
  const FilterRule: string :=
    "\n    \n    GUIDELINES:\n"
    + "    1. For aggregation (Total spent, Count, Average), write a SQL query and use 'query_sql_tool'.\n"
    + "       CRITICAL: You MUST filter all SQL queries by 'user_id = "
  const PassRule: string :=
    "'.\n"
    + "    2. For searching specific items (Where did I eat?, Shopping), use 'vector_search_tool'.\n"
    + "    3. For budget checks, use 'budget_tool'.\n"
    + "    4. For ADVICE, SAVING TIPS, or SPENDING PATTERNS, use 'diagnostics_tool'.\n"
    + "    5. Always answer in a helpful, concise manner.\n"
    + "    6. IMPORTANT: You MUST pass user_id="
  const PromptEnd: string := " to EVERY tool call.\n    "

  /** The system prompt: the f-string of `agent_node`, which embeds the
      user id three times and the schema once. */
  function SystemPrompt(userId: Option<nat>, schema: string): (p: string)
    ensures Contains(p, UserIdLabel + UserIdText(userId))
    ensures Contains(p, schema)
    ensures Contains(p, "user_id = " + UserIdText(userId))
  {
    var u := UserIdText(userId);
    FilterRuleNamesColumn(u);
    PromptLayout(RoleText, UserIdLabel + u, SchemaLabel, schema, FilterRule + u, PassRule + u + PromptEnd, "user_id = " + u);
    RoleText + (UserIdLabel + u) + (SchemaLabel + schema) + (FilterRule + u) + (PassRule + u + PromptEnd)
  }

  /** Where the pieces of the prompt sit in the whole. */
  lemma PromptLayout(role: string, idLine: string, heading: string, schema: string, rule: string, tail: string, filter: string)
    requires Contains(rule, filter)
    ensures var p := role + idLine + (heading + schema) + rule + tail;
            Contains(p, idLine) && Contains(p, schema) && Contains(p, filter)
  {
    var p := role + idLine + (heading + schema) + rule + tail;
    ContainsSelf(idLine);
    ContainsInContext(role, idLine, (heading + schema) + rule + tail, idLine);
    assert role + idLine + ((heading + schema) + rule + tail) == p;
    ContainsSelf(schema);
    ContainsInContext(role + idLine + heading, schema, rule + tail, schema);
    assert role + idLine + heading + schema + (rule + tail) == p;
    ContainsInContext(role + idLine + (heading + schema), rule, tail, filter);
  }

  lemma ContainsSelf(s: string)
    ensures Contains(s, s)
  {
    assert OccursAt(s, s, 0);
  }

  lemma FilterRuleNamesColumn(u: string)
    ensures Contains(FilterRule + u, "user_id = " + u)
  {
    var i := |FilterRule| - 10;
    assert FilterRule[i..] == "user_id = ";
    assert (FilterRule + u)[i..i + 10 + |u|] == "user_id = " + u;
    assert OccursAt(FilterRule + u, "user_id = " + u, i);
  }

  lemma ContainsPrefixOf(s: string, a: string, b: string)
    requires Contains(s, a + b)
    ensures Contains(s, a)
  {
    var i :| 0 <= i <= |s| && OccursAt(s, a + b, i);
    assert s[i..i + |a|] == (a + b)[..|a|] == a;
    assert OccursAt(s, a, i);
  }

  /** The prompt asks for a `user_id` filter, but the schema it shows the
      model has no such column. */
  lemma PromptFilterNotInSchema(userId: Option<nat>)
    ensures Contains(SystemPrompt(userId, Tools.DbSchema()), "user_id = ")
    ensures !Contains(Tools.DbSchema(), "user_id")
  {
    var p := SystemPrompt(userId, Tools.DbSchema());
    ContainsPrefixOf(p, "user_id = ", UserIdText(userId));
    Tools.SchemaOmitsOwnerColumns();
  }

  // ---------------------------------------------------------------------
  // The agent node
  // ---------------------------------------------------------------------

  /** The messages sent to the model: the history, with the system message
      in front unless the history already starts with one. */
  function ModelInput(state: seq<Message>, prompt: string): (input: seq<Message>)
    requires state != []
    ensures |state| <= |input| <= |state| + 1
    ensures input[0].SystemMsg?
    ensures !state[0].SystemMsg? ==> input[0] == SystemMsg(prompt)
    ensures input[|input| - |state|..] == state
    ensures input == state <==> state[0].SystemMsg?
  {
    if state[0].SystemMsg? then state else [SystemMsg(prompt)] + state
  }

  /** The prepend rule is idempotent: a second pass adds nothing. */
  lemma ModelInputIdempotent(state: seq<Message>, prompt: string, other: string)
    requires state != []
    ensures ModelInput(ModelInput(state, prompt), other) == ModelInput(state, prompt)
  {
  }

  /** The prompt `agent_node` builds from the user id in the request
      context and the schema tool's text. */
  function AgentPrompt(userId: Option<nat>): (p: string)
    ensures Contains(p, UserIdLabel + UserIdText(userId))
    ensures Contains(p, Tools.DbSchema())
  {
    SystemPrompt(userId, Tools.DbSchema())
  }

  /** `agent_node` with its prompt `prompt`: the update it returns, a single
      model reply. Reading the first message of an empty history raises;
      after that, `llm` is the model call on the prepared input, including
      building the client, which raises for a missing key or a failed
      request. */
  function AgentNode(state: seq<Message>, prompt: string, llm: seq<Message> -> Reply): (r: Result<Message>)
    ensures r.Raised? <==> state == [] || llm(ModelInput(state, prompt)).ModelRaised?
    ensures state == [] ==> r == Raised("list index out of range")
    ensures state != [] && llm(ModelInput(state, prompt)).ModelRaised? ==> r == Raised(llm(ModelInput(state, prompt)).error)
    ensures r.Ok? ==> r.value.AiMsg?
    ensures r.Ok? ==>
              && state != []
              && var reply := llm(ModelInput(state, prompt));
                 reply.Reply? && r.value.content == reply.content && r.value.toolCalls == reply.toolCalls
  {
    if state == [] then Raised("list index out of range")
    else
      match llm(ModelInput(state, prompt))
      case ModelRaised(e) => Raised(e)
      case Reply(content, calls) => Ok(AiMsg(content, calls))
  }

  /** The `add_messages` reducer, for messages with fresh ids: append. */
  function AddMessages(state: seq<Message>, update: seq<Message>): (s: seq<Message>)
    ensures |s| == |state| + |update| && s[..|state|] == state && s[|state|..] == update
  {
    state + update
  }

  /** One agent step on the graph state: the history grows by exactly the
      model's reply; the system message is sent but not stored. */
  function AgentStep(state: seq<Message>, prompt: string, llm: seq<Message> -> Reply): (r: Result<seq<Message>>)
    ensures r.Raised? <==> state == [] || llm(ModelInput(state, prompt)).ModelRaised?
    ensures state == [] ==> r == Raised("list index out of range")
    ensures r.Ok? ==> |r.value| == |state| + 1 && r.value[..|state|] == state && Last(r.value).AiMsg?
    ensures r.Ok? ==> SystemCount(r.value) == SystemCount(state)
    ensures r.Ok? ==>
              && state != [] && llm(ModelInput(state, prompt)).Reply?
              && Last(r.value).toolCalls == llm(ModelInput(state, prompt)).toolCalls
  {
    match AgentNode(state, prompt, llm)
    case Raised(e) => Raised(e)
    case Ok(m) =>
      SystemCountAppend(state, [m]);
      assert SystemCount([m]) == 0;
      Ok(AddMessages(state, [m]))
  }

  // ---------------------------------------------------------------------
  // Routing and the tools node
  // ---------------------------------------------------------------------

  datatype Route = ToTools | ToEnd

  /** `should_continue`: tools when the last message carries tool calls,
      the end otherwise. Only model replies have `tool_calls`; any other
      last message, or none, raises. */
  function ShouldContinue(state: seq<Message>): (r: Result<Route>)
    ensures r == Ok(ToTools) <==> state != [] && Last(state).AiMsg? && Last(state).toolCalls != []
    ensures r == Ok(ToEnd) <==> state != [] && Last(state).AiMsg? && Last(state).toolCalls == []
    ensures r.Raised? <==> state == [] || !Last(state).AiMsg?
  {
    if state == [] then Raised("list index out of range")
    else match Last(state)
      case AiMsg(_, calls) => if calls != [] then Ok(ToTools) else Ok(ToEnd)
      case _ => Raised("object has no attribute 'tool_calls'")
  }

  /** The prebuilt tools node: one tool message per call of the last model
      reply, in call order, each carrying its call's id. `exec` is the
      library's execution of a call, including how it turns a raised error
      into message text. */
  function ToolsNode(state: seq<Message>, exec: ToolCall -> string): (r: Result<seq<Message>>)
    ensures r.Raised? <==> state == [] || !Last(state).AiMsg?
    ensures r.Ok? ==>
              var calls := Last(state).toolCalls;
              && |r.value| == |calls|
              && forall i :: 0 <= i < |calls| ==>
                   r.value[i].ToolMsg? && r.value[i].toolCallId == calls[i].id && r.value[i].content == exec(calls[i])
  {
    if state == [] || !Last(state).AiMsg? then Raised("No AIMessage found in input")
    else Ok(ToolReplies(Last(state).toolCalls, exec))
  }

  /** One tool message per call, in call order. */
  function ToolReplies(calls: seq<ToolCall>, exec: ToolCall -> string): (ms: seq<Message>)
    ensures |ms| == |calls|
    ensures forall i :: 0 <= i < |calls| ==>
              ms[i].ToolMsg? && ms[i].toolCallId == calls[i].id && ms[i].content == exec(calls[i])
  {
    if calls == [] then []
    else [ToolMsg(exec(calls[0]), calls[0].id)] + ToolReplies(calls[1..], exec)
  }

  // ---------------------------------------------------------------------
  // The graph
  // ---------------------------------------------------------------------

  datatype Node = AgentN | ToolsN | EndN

  const Entry: Node := AgentN

  /** The edges: the router's two targets from `agent`, and the fixed edge
      from `tools` back to `agent`. */
  predicate Edge(a: Node, b: Node) {
    (a == AgentN && (b == ToolsN || b == EndN)) || (a == ToolsN && b == AgentN)
  }

  datatype Outcome =
    | Finished(messages: seq<Message>)
    | Crashed(error: string)
    | OutOfFuel(messages: seq<Message>)

  /** An execution: its outcome and the nodes visited, in order. */
  datatype Execution = Execution(outcome: Outcome, trace: seq<Node>)

  /** One pass through the graph from `agent`: it crashes (with the nodes
      it visited), reaches the end with the model's final answer, or runs
      the tools and returns to `agent` with the extended history. */
  datatype Round =
    | RoundCrashed(error: string, visited: seq<Node>)
    | RoundEnded(messages: seq<Message>)
    | RoundLooped(messages: seq<Message>)

  function OneRound(state: seq<Message>, prompt: string, llm: seq<Message> -> Reply,
                    exec: ToolCall -> string): (r: Round)
    ensures r.RoundCrashed? ==> r.visited == [AgentN] || r.visited == [AgentN, ToolsN]
    ensures state == [] ==> r == RoundCrashed("list index out of range", [AgentN])
    ensures !r.RoundCrashed? ==>
              && |r.messages| > |state| && r.messages[..|state|] == state
              && SystemCount(r.messages) == SystemCount(state)
    ensures r.RoundEnded? ==> Last(r.messages).AiMsg? && Last(r.messages).toolCalls == []
  {
    match AgentStep(state, prompt, llm)
    case Raised(e) => RoundCrashed(e, [AgentN])
    case Ok(s1) =>
      var r := AfterAgent(s1, exec);
      assert !r.RoundCrashed? ==> r.messages[..|state|] == r.messages[..|s1|][..|state|];
      r
  }

  /** The rest of a round once the agent step has stored its reply: the
      router, then possibly the tools node. */
  function AfterAgent(s1: seq<Message>, exec: ToolCall -> string): (r: Round)
    ensures r.RoundCrashed? ==> r.visited == [AgentN] || r.visited == [AgentN, ToolsN]
    ensures r.RoundCrashed? <==> s1 == [] || !Last(s1).AiMsg?
    ensures r.RoundEnded? <==> s1 != [] && Last(s1).AiMsg? && Last(s1).toolCalls == []
    ensures r.RoundEnded? ==> r.messages == s1
    ensures r.RoundLooped? ==>
              && s1 != [] && Last(s1).AiMsg?
              && |r.messages| >= |s1| + |Last(s1).toolCalls| && r.messages[..|s1|] == s1
              && SystemCount(r.messages) == SystemCount(s1)
  {
    match ShouldContinue(s1)
    case Raised(e) => RoundCrashed(e, [AgentN])
    case Ok(ToEnd) => RoundEnded(s1)
    case Ok(ToTools) =>
      match ToolsNode(s1, exec)
      case Raised(e) => RoundCrashed(e, [AgentN, ToolsN])
      case Ok(update) =>
        NoSystemCount(update);
        SystemCountAppend(s1, update);
        RoundLooped(AddMessages(s1, update))
  }

  /** How a round turns out, decided by the model's answer to the prepared
      input: a round crashes iff the history is empty or the model call
      raises, ends iff the answer asks for no tool, and otherwise adds at
      least one tool reply per requested call. */
  lemma OneRoundOutcome(state: seq<Message>, prompt: string, llm: seq<Message> -> Reply,
                        exec: ToolCall -> string)
    ensures var r := OneRound(state, prompt, llm, exec);
            r.RoundCrashed? <==> state == [] || llm(ModelInput(state, prompt)).ModelRaised?
    ensures var r := OneRound(state, prompt, llm, exec);
            r.RoundEnded? <==>
              state != [] && llm(ModelInput(state, prompt)).Reply? && llm(ModelInput(state, prompt)).toolCalls == []
    ensures var r := OneRound(state, prompt, llm, exec);
            r.RoundLooped? ==>
              && state != [] && llm(ModelInput(state, prompt)).Reply?
              && |r.messages| >= |state| + 1 + |llm(ModelInput(state, prompt)).toolCalls|
  {
  }

  /** What any round leaves behind: a crash after `agent` or after
      `tools`, or a longer history with no new system message, ending in a
      reply without tool calls when the round reached the end. */
  ghost predicate RoundShaped(s: seq<Message>, r: Round) {
    && (r.RoundCrashed? ==> r.visited == [AgentN] || r.visited == [AgentN, ToolsN])
    && (!r.RoundCrashed? ==> Extends(r.messages, s) && SystemCount(r.messages) == SystemCount(s))
    && (r.RoundEnded? ==> Last(r.messages).AiMsg? && Last(r.messages).toolCalls == [])
  }

  /** The compiled graph's loop for a round function `round`: rounds repeat
      from `agent` until one crashes or ends. The code sets no bound on the
      number of rounds; `fuel` only makes the definition total, and a run
      that exhausts it is `OutOfFuel`, not an outcome of the program. */
  function Loop(state: seq<Message>, round: seq<Message> -> Round, fuel: nat): (r: Execution)
    requires forall s :: RoundShaped(s, round(s))
    ensures round(state).RoundCrashed? ==> r == Execution(Crashed(round(state).error), round(state).visited)
    // the run walks the graph's edges from the entry, and only a finished
    // run reaches the end node, as its last step
    ensures GraphWalk(r.trace, r.outcome.Finished?)
    // the history is only appended to, never with a system message
    ensures !r.outcome.Crashed? ==>
              Extends(r.outcome.messages, state) && SystemCount(r.outcome.messages) == SystemCount(state)
    // a finished run ends with a model reply that asks for no tool
    ensures r.outcome.Finished? ==>
              Last(r.outcome.messages).AiMsg? && Last(r.outcome.messages).toolCalls == []
    decreases fuel
  {
    assert RoundShaped(state, round(state));
    match round(state)
    case RoundCrashed(e, visited) =>
      ShortWalks();
      Execution(Crashed(e), visited)
    case RoundEnded(s1) =>
      ShortWalks();
      Execution(Finished(s1), [AgentN, EndN])
    case RoundLooped(s2) =>
      if fuel == 0 then
        ShortWalks();
        Execution(OutOfFuel(s2), [AgentN, ToolsN])
      else
        var rest := Loop(s2, round, fuel - 1);
        OneRoundThenWalk(rest.trace, rest.outcome.Finished?);
        if rest.outcome.Crashed? then Execution(rest.outcome, [AgentN, ToolsN] + rest.trace)
        else
          ExtendsTransitive(rest.outcome.messages, s2, state);
          Execution(rest.outcome, [AgentN, ToolsN] + rest.trace)
  }

  /** The round of this graph, as a function of the history. */
  function GraphRound(prompt: string, llm: seq<Message> -> Reply, exec: ToolCall -> string)
    : (round: seq<Message> -> Round)
    ensures forall s :: round(s) == OneRound(s, prompt, llm, exec)
    ensures forall s :: RoundShaped(s, round(s))
  {
    s => OneRound(s, prompt, llm, exec)
  }

  /** Running the graph from `agent` on the history `state`. */
  function Run(state: seq<Message>, prompt: string, llm: seq<Message> -> Reply,
               exec: ToolCall -> string, fuel: nat): (r: Execution)
    ensures state == [] ==> r == Execution(Crashed("list index out of range"), [AgentN])
    ensures GraphWalk(r.trace, r.outcome.Finished?)
    ensures !r.outcome.Crashed? ==>
              Extends(r.outcome.messages, state) && SystemCount(r.outcome.messages) == SystemCount(state)
    ensures r.outcome.Finished? ==>
              Last(r.outcome.messages).AiMsg? && Last(r.outcome.messages).toolCalls == []
  {
    Loop(state, GraphRound(prompt, llm, exec), fuel)
  }

  /** A model call that raises ends the run in the first `agent` step with
      that error; nothing catches it between the node and the caller. */
  lemma ModelErrorCrashesRun(state: seq<Message>, prompt: string, llm: seq<Message> -> Reply,
                             exec: ToolCall -> string, fuel: nat)
    requires state != [] && llm(ModelInput(state, prompt)).ModelRaised?
    ensures Run(state, prompt, llm, exec, fuel) == Execution(Crashed(llm(ModelInput(state, prompt)).error), [AgentN])
  {
  }

  ghost predicate FollowsGraph(trace: seq<Node>) {
    && trace != []
    && trace[0] == Entry
    && (forall i, j :: 0 <= i < j < |trace| && j == i + 1 ==> Edge(trace[i], trace[j]))
  }

  /** A walk from the entry along the edges that visits `end` at most as
      its last node, and does so exactly when the run finished. */
  ghost predicate GraphWalk(trace: seq<Node>, finished: bool) {
    && FollowsGraph(trace)
    && (finished <==> trace[|trace| - 1] == EndN)
    && forall i :: 0 <= i < |trace| - 1 ==> trace[i] != EndN
  }

  /** The walks a single round can leave behind. */
  lemma ShortWalks()
    ensures GraphWalk([AgentN], false)
    ensures GraphWalk([AgentN, ToolsN], false)
    ensures GraphWalk([AgentN, EndN], true)
  {
  }

  /** A round `agent -> tools` followed by a walk from the entry is a walk
      from the entry that ends the same way. */
  lemma OneRoundThenWalk(rest: seq<Node>, finished: bool)
    requires GraphWalk(rest, finished)
    ensures GraphWalk([AgentN, ToolsN] + rest, finished)
  {
    var t := [AgentN, ToolsN] + rest;
    assert t[|t| - 1] == rest[|rest| - 1];
    forall i, j | 0 <= i < j < |t| && j == i + 1 ensures Edge(t[i], t[j]) {
      if i >= 2 {
        assert t[i] == rest[i - 2] && t[j] == rest[j - 2];
      }
    }
    forall i | 0 <= i < |t| - 1 ensures t[i] != EndN {
      if i >= 2 {
        assert t[i] == rest[i - 2];
      }
    }
  }

  /** `longer` is `shorter` followed by at least one more message. */
  predicate Extends(longer: seq<Message>, shorter: seq<Message>) {
    |longer| > |shorter| && longer[..|shorter|] == shorter
  }

  lemma ExtendsTransitive(a: seq<Message>, b: seq<Message>, c: seq<Message>)
    ensures Extends(a, b) && Extends(b, c) ==> Extends(a, c)
  {
    if Extends(a, b) && Extends(b, c) {
      assert a[..|c|] == a[..|b|][..|c|];
    }
  }

  /** Tool replies are never system messages. */
  lemma ToolsAddNoSystem(state: seq<Message>, exec: ToolCall -> string)
    requires ToolsNode(state, exec).Ok?
    ensures SystemCount(ToolsNode(state, exec).value) == 0
  {
    var u := ToolsNode(state, exec).value;
    NoSystemCount(u);
  }

  lemma {:induction false} NoSystemCount(s: seq<Message>)
    requires forall i :: 0 <= i < |s| ==> !s[i].SystemMsg?
    ensures SystemCount(s) == 0
  {
    if s != [] {
      NoSystemCount(s[1..]);
    }
  }

  /** More fuel never changes a finished run, whatever the round function
      (so in particular for `Run`): the fuel is not a bound of the program,
      only of the definition. */
  lemma {:induction false} FuelIrrelevant(state: seq<Message>, round: seq<Message> -> Round, fuel: nat)
    requires forall s :: RoundShaped(s, round(s))
    requires Loop(state, round, fuel).outcome.Finished?
    ensures Loop(state, round, fuel + 1) == Loop(state, round, fuel)
    decreases fuel
  {
    if round(state).RoundLooped? {
      FuelIrrelevant(round(state).messages, round, fuel - 1);
    }
  }

  /** A round function that always loops on a non-empty history, adding at
      least two messages, never lets the loop finish. */
  lemma {:induction false} LoopNeverEnds(state: seq<Message>, round: seq<Message> -> Round, fuel: nat)
    requires forall s :: RoundShaped(s, round(s))
    requires forall s :: s != [] ==> round(s).RoundLooped? && |round(s).messages| >= |s| + 2
    requires state != []
    ensures var o := Loop(state, round, fuel).outcome;
            o.OutOfFuel? && |o.messages| >= |state| + 2 * (fuel + 1)
    decreases fuel
  {
    if fuel > 0 {
      LoopNeverEnds(round(state).messages, round, fuel - 1);
    }
  }

  /** There is no cap on rounds: a model that always asks for a tool keeps
      the graph looping for any amount of fuel, adding at least two
      messages per round. */
  lemma NoRoundCap(state: seq<Message>, prompt: string, llm: seq<Message> -> Reply,
                   exec: ToolCall -> string, fuel: nat)
    requires state != []
    requires forall input :: llm(input).Reply? && llm(input).toolCalls != []
    ensures var o := Run(state, prompt, llm, exec, fuel).outcome;
            o.OutOfFuel? && |o.messages| >= |state| + 2 * (fuel + 1)
  {
    var round := GraphRound(prompt, llm, exec);
    forall s | s != [] ensures round(s).RoundLooped? && |round(s).messages| >= |s| + 2 {
      OneRoundOutcome(s, prompt, llm, exec);
      assert llm(ModelInput(s, prompt)).toolCalls != [];
    }
    LoopNeverEnds(state, round, fuel);
  }
}
