/** The agent that ties the subsystems together: it keeps the conversation,
    consults the memory before answering, asks the completion service with a
    prompt assembled from the system prompt, the recent conversation and what
    the memory found, records its reasoning, and runs tools on request.

    The completion service, the similarity indexes and the tools are outside
    the model; each is a function parameter standing for what it answers. */
module Agent {
  import opened Util
  import opened Reasoning
  import opened MemoryStore
  import opened Tools

  // ---------------------------------------------------------------- messages

  datatype Role = System | User | Assistant

  datatype Message = Message(role: Role, content: string)

  /** What is sent to the completion service. */
  datatype CompletionRequest = CompletionRequest(model: string, messages: seq<Message>,
                                                 temperature: real, maxTokens: nat)

  /** What comes back: the reply text, or the exception the call raised. */
  datatype Completion = Completed(text: string) | CompletionFailed(message: string)

  const ModelName: string := "gpt-3.5-turbo"
  const Temperature: real := 0.7
  const MaxTokens: nat := 2000

  /** How many past messages go into a prompt. */
  const HistoryWindow: nat := 10
  /** How many search hits per kind go into the memory context, and how long each may be. */
  const SnippetCount: nat := 2
  const SnippetLength: nat := 200
  /** How many hits each search asks the memory for. */
  const SearchResults: nat := 3
  /** How many steps the agent asks the planner for. */
  const PlannedSteps: nat := 5
  /** The confidence given to a reply that came back. */
  const ReplyQuality: real := 0.8

  // ---------------------------------------------------------------- system prompt

  function LanguageName(language: string): string
  {
    if language == "ar" then "العربية" else "الإنجليزية"
  }

  function ToolLine(t: ToolListing): string
  {
    "- " + t.name + ": " + t.description
  }

  /** Python's `"\n".join(lines)`. */
  function JoinLines(lines: seq<string>): string
  {
    if lines == [] then ""
    else if |lines| == 1 then lines[0]
    else JoinLines(lines[..|lines| - 1]) + "\n" + lines[|lines| - 1]
  }

  function ToolLines(tools: seq<ToolListing>): string
  {
    JoinLines(seq(|tools|, i requires 0 <= i < |tools| => ToolLine(tools[i])))
  }

  /** The fixed prose of the system prompt: the missions before the tool lines, the instructions after them. */
  const PromptMissions: string := "\n\nالمهام الرئيسية:\n1. فهم طلبات المستخدم بشكل عميق\n2. تقسيم المهام المعقدة إلى خطوات منطقية\n3. استخدام الأدوات المتاحة لتنفيذ المهام\n4. التعلم من التجارب السابقة\n5. تقديم حلول عملية وفعالة\n\nالأدوات المتاحة:\n"
  const PromptInstructions: string := "\n\nالتعليمات:\n- فكر بشكل منطقي قبل اتخاذ أي إجراء\n- اشرح خطواتك بوضوح\n- استخدم الأدوات عند الحاجة\n- تعلم من الأخطاء والنجاحات\n- قدم ملخصاً نهائياً للنتائج\n\nتذكر: أنت وكيل مستقل وذكي، لديك الحرية في اتخاذ القرارات والتصرف بناءً على الحكم والمنطق."

  /** The opening of the system prompt: the agent's name and its language. */
  function PromptHead(agentName: string, language: string): string
  {
    "أنت " + agentName + "، وكيل ذكي متقدم يتمتع باستقلالية عالية.\n\nاللغة: " + LanguageName(language)
  }

  /** The system prompt: who the agent is, its language, its missions, one
      line per registered tool, and its instructions. */
  function SystemPrompt(agentName: string, language: string, tools: seq<ToolListing>): string
  {
    PromptHead(agentName, language) + PromptMissions + ToolLines(tools) + PromptInstructions
  }

  /** An occurrence inside `a` is still one inside `x + a + y`. */
  lemma ContainsInside(x: string, a: string, y: string, p: string)
    requires Contains(a, p)
    ensures Contains(x + a + y, p)
  {
    var i :| 0 <= i <= |a| - |p| && OccursAt(a, p, i);
    var t := x + a + y;
    assert t[|x| + i..|x| + i + |p|] == a[i..i + |p|];
    assert OccursAt(t, p, |x| + i);
  }

  /** Every joined line occurs in the joined text. */
  lemma {:induction false} JoinedLineOccurs(lines: seq<string>, k: nat)
    requires k < |lines|
    ensures Contains(JoinLines(lines), lines[k])
    decreases |lines|
  {
    if |lines| == 1 {
      assert OccursAt(JoinLines(lines), lines[k], 0);
    } else {
      var init := lines[..|lines| - 1];
      if k < |lines| - 1 {
        JoinedLineOccurs(init, k);
        assert init[k] == lines[k];
        ContainsInside("", JoinLines(init), "\n" + lines[|lines| - 1], lines[k]);
        assert "" + JoinLines(init) + ("\n" + lines[|lines| - 1]) == JoinLines(lines);
      } else {
        var j := JoinLines(lines);
        assert OccursAt(j, lines[k], |j| - |lines[k]|);
      }
    }
  }

  /** Every registered tool is announced to the model on a line of its own
      form `- name: description`. */
  lemma SystemPromptListsTools(agentName: string, language: string, tools: seq<ToolListing>, k: nat)
    requires k < |tools|
    ensures Contains(SystemPrompt(agentName, language, tools), ToolLine(tools[k]))
  {
    var lines := seq(|tools|, i requires 0 <= i < |tools| => ToolLine(tools[i]));
    JoinedLineOccurs(lines, k);
    var head := PromptHead(agentName, language) + PromptMissions;
    ContainsInside(head, ToolLines(tools), PromptInstructions, ToolLine(tools[k]));
  }

  // ---------------------------------------------------------------- memory context and prompt

  const SimilarHeader: string := "\n### تفاعلات سابقة مشابهة:\n"
  const LessonsHeader: string := "\n### دروس مستفادة:\n"
  const ContextLead: string := "السياق من الذاكرة:"

  /** The texts of the first two hits, each cut to its first 200 characters. */
  function Snippets(hits: seq<Hit>): (r: seq<string>)
    ensures |r| == Min(SnippetCount, |hits|)
    ensures forall i :: 0 <= i < |r| ==>
              |r[i]| == Min(SnippetLength, |hits[i].document|) && r[i] == hits[i].document[..|r[i]|]
  {
    seq(Min(SnippetCount, |hits|), i requires 0 <= i < Min(SnippetCount, |hits|) => Prefix(hits[i].document, SnippetLength))
  }

  /** One `- item` line per item. */
  function Bullets(items: seq<string>): string
  {
    if items == [] then "" else Bullets(items[..|items| - 1]) + "- " + items[|items| - 1] + "\n"
  }

  /** A section of the memory context: its header and the hit snippets, or
      nothing at all when the search found nothing. */
  function Section(header: string, hits: seq<Hit>): string
  {
    if hits == [] then "" else header + Bullets(Snippets(hits))
  }

  /** The memory context: similar interactions first, then lessons. */
  function ContextText(similar: seq<Hit>, lessons: seq<Hit>): string
  {
    Section(SimilarHeader, similar) + Section(LessonsHeader, lessons)
  }

  /** The context is empty exactly when both searches found nothing. */
  lemma ContextEmptyIff(similar: seq<Hit>, lessons: seq<Hit>)
    ensures ContextText(similar, lessons) == "" <==> similar == [] && lessons == []
  {
    if similar != [] {
      assert |ContextText(similar, lessons)| >= |SimilarHeader|;
    } else if lessons != [] {
      assert |ContextText(similar, lessons)| >= |LessonsHeader|;
    }
  }

  /** Each snippet line is announced as `- snippet`. */
  lemma {:induction false} BulletsListItems(items: seq<string>, k: nat)
    requires k < |items|
    ensures Contains(Bullets(items), "- " + items[k] + "\n")
    decreases |items|
  {
    var init := items[..|items| - 1];
    var line := "- " + items[|items| - 1] + "\n";
    assert Bullets(items) == Bullets(init) + line;
    if k < |items| - 1 {
      BulletsListItems(init, k);
      assert init[k] == items[k];
      ContainsInside("", Bullets(init), line, "- " + items[k] + "\n");
      assert "" + Bullets(init) + line == Bullets(items);
    } else {
      assert OccursAt(Bullets(items), line, |Bullets(init)|);
    }
  }

  /** The messages sent for one request: the system prompt, the last ten
      messages of the conversation, and the memory context when there is one. */
  function Prompt(systemPrompt: string, history: seq<Message>, context: string): seq<Message>
  {
    [Message(System, systemPrompt)] + PySuffix(history, HistoryWindow)
    + (if context != "" then [Message(System, ContextLead + context)] else [])
  }

  /** The prompt opens with the system prompt, carries the most recent
      messages in order (the latest last), and closes with the memory context
      exactly when there is one; it never has more than twelve messages. */
  lemma PromptShape(systemPrompt: string, history: seq<Message>, context: string)
    ensures var p := Prompt(systemPrompt, history, context);
            var w := Min(HistoryWindow, |history|);
            && |p| == 1 + w + (if context != "" then 1 else 0) <= 12
            && p[0] == Message(System, systemPrompt)
            && (forall j :: 1 <= j <= w ==> p[j] == history[|history| - w + j - 1])
            && p[|p| - 1] == (if context != "" then Message(System, ContextLead + context)
                              else if history != [] then history[|history| - 1]
                              else Message(System, systemPrompt))
  {
    PySuffixLast(history, HistoryWindow);
  }

  // ---------------------------------------------------------------- request outcome

  /** The analysis thoughts for what the two memory searches found. */
  function SearchThoughts(similar: seq<Hit>, lessons: seq<Hit>): seq<Thought>
  {
    (if similar != [] then [Thought(FoundInteractions(|similar|), Analysis, MemorySearch, DefaultConfidence)] else [])
    + (if lessons != [] then [Thought(FoundLessons(|lessons|), Analysis, UsingExperience, DefaultConfidence)] else [])
  }

  const ErrorLead: string := "خطأ في معالجة الطلب: "

  /** The thought that closes a request: an evaluation of the reply at 0.8,
      or an evaluation at 0.0 recording the error. */
  function ClosingThought(c: Completion): Thought
  {
    match c
    case Completed(text) => Thought(Evaluated(text), Evaluation, QualityPercent(ReplyQuality), ReplyQuality)
    case CompletionFailed(m) => Thought(RequestError(ErrorLead + m), Evaluation, ProcessingError, 0.0)
  }

  /** How a request ends: as the completion came back, except that a reply
      whose storage in the index raised ends the request with the index's error. */
  function RequestOutcome(c: Completion, store: IndexAdd): (o: Completion)
    ensures o.Completed? <==> c.Completed? && store.Stored?
    ensures o.Completed? ==> o == c
    ensures c.CompletionFailed? ==> o == c
    ensures c.Completed? && store.AddRaised? ==> o == CompletionFailed(store.message)
  {
    if c.Completed? && store.AddRaised? then CompletionFailed(store.message) else c
  }

  /** The whole trace one request leaves in the reasoning engine. */
  function RequestTrace(userInput: string, similar: seq<Hit>, lessons: seq<Hit>, c: Completion): seq<Thought>
  {
    [Thought(TaskStarted(userInput), Analysis, TaskAnalysis, DefaultConfidence)]
    + SearchThoughts(similar, lessons)
    + [Thought(PlanningFor(PlannedSteps), Planning, Decomposition, DefaultConfidence), ClosingThought(c)]
  }

  /** A request's trace: between three and five thoughts, one analysis per
      search that found something on top of the opening one, exactly one
      plan, and one evaluation, which comes last and carries 0.8 exactly when
      the reply came back; every confidence is between 0 and 1, and so is the
      average the summary reports. */
  lemma {:induction false} RequestTraceShape(userInput: string, similar: seq<Hit>, lessons: seq<Hit>, c: Completion)
    ensures var ts := RequestTrace(userInput, similar, lessons, c);
            && 3 <= |ts| <= 5
            && CountKind(ts, Analysis) == 1 + (if similar != [] then 1 else 0) + (if lessons != [] then 1 else 0)
            && CountKind(ts, Planning) == 1
            && CountKind(ts, Evaluation) == 1
            && CountKind(ts, Execution) == 0 && CountKind(ts, Learning) == 0
            && ts[|ts| - 1].kind == Evaluation
            && (ts[|ts| - 1].confidence == ReplyQuality <==> c.Completed?)
            && (forall i :: 0 <= i < |ts| ==> 0.0 <= ts[i].confidence <= 1.0)
            && 0.0 <= Summarize(Some(userInput), ts, PlaceholderSteps).averageConfidence <= 1.0
  {
    var start := [Thought(TaskStarted(userInput), Analysis, TaskAnalysis, DefaultConfidence)];
    var s := SearchThoughts(similar, lessons);
    var plan := Thought(PlanningFor(PlannedSteps), Planning, Decomposition, DefaultConfidence);
    var ts := RequestTrace(userInput, similar, lessons, c);
    var pre := start + s;
    var mid := pre + [plan];
    assert ts == mid + [ClosingThought(c)];
    assert ts[..|ts| - 1] == mid;
    assert mid[..|mid| - 1] == pre;
    forall k: ThoughtKind
      ensures CountKind(ts, k) == (if k == Analysis then |pre| else 0) + (if k == Planning then 1 else 0)
                                  + (if k == Evaluation then 1 else 0)
    {
      AllOneKind(pre, Analysis, k);
    }
    forall i | 0 <= i < |ts| ensures 0.0 <= ts[i].confidence <= 1.0 {
      if i < |pre| {
        assert ts[i] == pre[i];
      }
    }
    ConfidenceSumBounds(ts);
    AverageConfidenceBounds(Some(userInput), ts, PlaceholderSteps);
  }

  /** A trace made of one kind only counts all its thoughts for that kind. */
  lemma {:induction false} AllOneKind(ts: seq<Thought>, kind: ThoughtKind, k: ThoughtKind)
    requires forall i :: 0 <= i < |ts| ==> ts[i].kind == kind
    ensures CountKind(ts, k) == (if k == kind then |ts| else 0)
    decreases |ts|
  {
    if ts != [] {
      AllOneKind(ts[..|ts| - 1], kind, k);
    }
  }

  /** What a request returns: the reply with the trace, its summary and the
      plan, or the error with the trace. */
  datatype RequestResult =
    | Responded(response: string, thoughtProcess: seq<ThoughtRecord>, summary: Summary,
                steps: seq<string>, timestamp: int)
    | RequestFailed(error: string, thoughtProcess: seq<ThoughtRecord>, timestamp: int)

  datatype SessionSummary = SessionSummary(sessionId: int, agentName: string, language: string,
                                           conversationTurns: nat, reasoning: Summary,
                                           memory: MemoryStats, timestamp: int)

  /** The two thoughts a tool use leaves: the invocation, then its outcome
      at 0.9, or at 0.1 with the error (a fixed text when there is none). */
  function ToolThoughts(name: string, arguments: map<string, string>, r: ToolResult): seq<Thought>
  {
    [Thought(ToolInvoked(name), Execution, ToolArguments(arguments), DefaultConfidence),
     if Succeeded(r) then Thought(ToolSucceeded(name), Execution, ResultsObtained, 0.9)
     else Thought(ToolFailed(name), Execution, FailureReason(ErrorText(r).GetOr("خطأ غير معروف")), 0.1)]
  }

  /** Asking for a tool that is not registered leaves a failure thought that
      names the missing tool. */
  lemma UnknownToolThought(box: ToolBox, name: string, arguments: map<string, string>, run: Tool -> Invocation)
    requires name !in box.tools
    ensures var ts := ToolThoughts(name, arguments, box.ExecuteTool(name, run));
            |ts| == 2 && ts[1].confidence == 0.1
            && ts[1].reasoning == FailureReason(ErrorMessage(ToolNotFound(name)))
  {
  }

  // ---------------------------------------------------------------- the agent

  class SmartAgent {
    const agentName: string
    const language: string
    const memory: Memory
    const engine: ReasoningEngine
    const toolbox: ToolBox
    const systemPrompt: string
    var history: seq<Message>
    var sessionId: int

    /** The tool registry is sound and the system prompt lists its tools. */
    ghost predicate Valid()
      reads toolbox
    {
      toolbox.Valid() && systemPrompt == SystemPrompt(agentName, language, toolbox.ListTools())
    }

    constructor (agentName: string, language: string, now: int, loaded: Option<Snapshot>)
      ensures Valid()
      ensures this.agentName == agentName && this.language == language
      ensures history == [] && sessionId == now
      ensures fresh(memory) && fresh(engine) && fresh(toolbox)
      ensures engine.thoughts == [] && engine.currentTask == None && engine.taskSteps == []
      ensures loaded.None? ==> memory.interactions == [] && memory.lessons == []
      ensures loaded.Some? ==> memory.interactions == loaded.value.interactions && memory.lessons == loaded.value.lessons
      ensures memory.interactionIndex == [] && memory.lessonIndex == []
      ensures toolbox.order == Names(DefaultTools)
      ensures forall i :: 0 <= i < |DefaultTools| ==> toolbox.tools[DefaultTools[i].name] == DefaultTools[i]
    {
      this.agentName := agentName;
      this.language := language;
      memory := new Memory(loaded);
      engine := new ReasoningEngine();
      var box := new ToolBox();
      toolbox := box;
      systemPrompt := SystemPrompt(agentName, language, box.ListTools());
      history := [];
      sessionId := now;
    }

    /** Creation refuses to go on without a non-empty API key. */
    static method Create(agentName: string, language: string, apiKey: Option<string>, now: int,
                         loaded: Option<Snapshot>) returns (r: Option<SmartAgent>)
      ensures r.None? <==> apiKey.None? || apiKey.value == ""
      ensures r.Some? ==> fresh(r.value) && r.value.Valid() && r.value.history == [] && r.value.sessionId == now
      ensures r.Some? ==> r.value.agentName == agentName && r.value.language == language
      ensures r.Some? ==> fresh(r.value.memory) && fresh(r.value.engine) && fresh(r.value.toolbox)
      ensures r.Some? ==> r.value.engine.thoughts == [] && r.value.engine.currentTask == None
                          && r.value.engine.taskSteps == []
      ensures r.Some? && loaded.None? ==> r.value.memory.interactions == [] && r.value.memory.lessons == []
      ensures r.Some? && loaded.Some? ==> r.value.memory.interactions == loaded.value.interactions
                                          && r.value.memory.lessons == loaded.value.lessons
      ensures r.Some? ==> r.value.memory.interactionIndex == [] && r.value.memory.lessonIndex == []
      ensures r.Some? ==> r.value.toolbox.order == Names(DefaultTools)
      ensures r.Some? ==> forall i :: 0 <= i < |DefaultTools| ==>
                            r.value.toolbox.tools[DefaultTools[i].name] == DefaultTools[i]
    {
      if apiKey.None? || apiKey.value == "" {
        return None;
      }
      var agent := new SmartAgent(agentName, language, now, loaded);
      return Some(agent);
    }

    /** Builds the memory context in two passes, one per search. */
    static method BuildContext(similar: seq<Hit>, lessons: seq<Hit>) returns (context: string)
      ensures context == ContextText(similar, lessons)
    {
      context := "";
      context := AppendSection(context, SimilarHeader, similar);
      context := AppendSection(context, LessonsHeader, lessons);
    }

    static method AppendSection(context: string, header: string, hits: seq<Hit>) returns (r: string)
      ensures r == context + Section(header, hits)
    {
      r := context;
      if hits == [] {
        return;
      }
      r := r + header;
      var snippets := Snippets(hits);
      var i := 0;
      while i < Min(SnippetCount, |hits|)
        invariant 0 <= i <= |snippets|
        invariant r == context + header + Bullets(snippets[..i])
      {
        assert snippets[..i + 1][..i] == snippets[..i];
        r := r + "- " + Prefix(hits[i].document, SnippetLength) + "\n";
        i := i + 1;
      }
      assert snippets[..i] == snippets;
    }

    /** One call to the completion service with the assembled prompt. */
    method CallCompletion(similar: seq<Hit>, lessons: seq<Hit>, complete: CompletionRequest -> Completion)
      returns (c: Completion)
      ensures c == complete(CompletionRequest(ModelName, Prompt(systemPrompt, history, ContextText(similar, lessons)),
                                              Temperature, MaxTokens))
    {
      var context := BuildContext(similar, lessons);
      var messages := [Message(System, systemPrompt)];
      messages := messages + PySuffix(history, HistoryWindow);
      if context != "" {
        messages := messages + [Message(System, ContextLead + context)];
      }
      assert messages == Prompt(systemPrompt, history, context);
      c := complete(CompletionRequest(ModelName, messages, Temperature, MaxTokens));
    }

    /** Handles one user request: records the turn, consults both memories,
        plans, asks the completion service, and on a reply records it in the
        conversation and in memory. A failed call leaves only the user's turn
        and an error evaluation behind; a reply whose index entry could not be
        stored stays in the conversation and the snapshot, but the request
        still ends with the error evaluation. */
    method ProcessRequest(userInput: string, now: int, askInteractions: IndexQuery, askLessons: IndexQuery,
                          complete: CompletionRequest -> Completion, store: IndexAdd) returns (r: RequestResult)
      modifies this, engine, memory
      ensures var turn := old(history) + [Message(User, userInput)];
              var similar := HitsOf(askInteractions(userInput, SearchResults));
              var lessons := HitsOf(askLessons(userInput, SearchResults));
              var c := complete(CompletionRequest(ModelName, Prompt(systemPrompt, turn, ContextText(similar, lessons)),
                                                  Temperature, MaxTokens));
              var o := RequestOutcome(c, store);
              && history == turn + (if c.Completed? then [Message(Assistant, c.text)] else [])
              && engine.thoughts == RequestTrace(userInput, similar, lessons, o)
              && engine.currentTask == Some(userInput) && engine.taskSteps == PlaceholderSteps
              && memory.interactions == old(memory.interactions)
                   + (if c.Completed?
                      then [Interaction(InteractionId(|old(memory.interactions)| + 1), now, userInput, c.text, map[])]
                      else [])
              && memory.interactionIndex == old(memory.interactionIndex)
                   + (if o.Completed?
                      then [IndexEntry(InteractionId(|old(memory.interactions)| + 1), userInput + " " + o.text,
                                       InteractionMetadata(now, userInput))]
                      else [])
              && r == (if o.Completed?
                       then Responded(o.text, Records(engine.thoughts),
                                      Summarize(Some(userInput), engine.thoughts, PlaceholderSteps), PlaceholderSteps, now)
                       else RequestFailed(ErrorLead + o.message, Records(engine.thoughts), now))
      ensures memory.lessons == old(memory.lessons) && memory.lessonIndex == old(memory.lessonIndex)
      ensures old(memory.WellNumbered()) ==> memory.WellNumbered()
      ensures old(memory.InLockstep()) && store.Stored? ==> memory.InLockstep()
      ensures sessionId == old(sessionId)
    {
      engine.StartTask(userInput);
      history := history + [Message(User, userInput)];
      var similar, lessons := Consult(userInput, askInteractions, askLessons);
      var steps := engine.PlanSteps(userInput, PlannedSteps);
      ghost var planned := engine.thoughts;
      var c := CallCompletion(similar, lessons, complete);
      r := Conclude(userInput, steps, c, now, store);
      assert engine.thoughts == planned + [ClosingThought(RequestOutcome(c, store))]
                             == RequestTrace(userInput, similar, lessons, RequestOutcome(c, store));
    }

    /** Acts on the completion: a reply goes through Respond, a failure is recorded. */
    method Conclude(userInput: string, steps: seq<string>, c: Completion, now: int, store: IndexAdd)
      returns (r: RequestResult)
      modifies this, engine, memory
      ensures var o := RequestOutcome(c, store);
              && history == old(history) + (if c.Completed? then [Message(Assistant, c.text)] else [])
              && engine.thoughts == old(engine.thoughts) + [ClosingThought(o)]
              && memory.interactions == old(memory.interactions)
                   + (if c.Completed?
                      then [Interaction(InteractionId(|old(memory.interactions)| + 1), now, userInput, c.text, map[])]
                      else [])
              && memory.interactionIndex == old(memory.interactionIndex)
                   + (if o.Completed?
                      then [IndexEntry(InteractionId(|old(memory.interactions)| + 1), userInput + " " + o.text,
                                       InteractionMetadata(now, userInput))]
                      else [])
              && r == (if o.Completed?
                       then Responded(o.text, Records(engine.thoughts),
                                      Summarize(engine.currentTask, engine.thoughts, engine.taskSteps), steps, now)
                       else RequestFailed(ErrorLead + o.message, Records(engine.thoughts), now))
      ensures engine.currentTask == old(engine.currentTask) && engine.taskSteps == old(engine.taskSteps)
      ensures memory.lessons == old(memory.lessons) && memory.lessonIndex == old(memory.lessonIndex)
      ensures old(memory.WellNumbered()) ==> memory.WellNumbered()
      ensures old(memory.InLockstep()) && store.Stored? ==> memory.InLockstep()
      ensures sessionId == old(sessionId)
    {
      match c {
        case Completed(response) =>
          r := Respond(userInput, steps, response, now, store);
        case CompletionFailed(message) =>
          r := RecordFailure(message, now);
      }
    }

    /** The two memory searches, each noted in the trace when it found something. */
    method Consult(userInput: string, askInteractions: IndexQuery, askLessons: IndexQuery)
      returns (similar: seq<Hit>, lessons: seq<Hit>)
      modifies engine
      ensures similar == HitsOf(askInteractions(userInput, SearchResults))
      ensures lessons == HitsOf(askLessons(userInput, SearchResults))
      ensures engine.thoughts == old(engine.thoughts) + SearchThoughts(similar, lessons)
      ensures engine.currentTask == old(engine.currentTask) && engine.taskSteps == old(engine.taskSteps)
    {
      similar := memory.SearchInteractions(userInput, SearchResults, askInteractions);
      if similar != [] {
        var _ := engine.AddThought(FoundInteractions(|similar|), Analysis, MemorySearch, DefaultConfidence);
      }
      lessons := memory.SearchLessons(userInput, SearchResults, askLessons);
      if lessons != [] {
        var _ := engine.AddThought(FoundLessons(|lessons|), Analysis, UsingExperience, DefaultConfidence);
      }
    }

    /** A reply joins the conversation and the memory snapshot; once its
        index entry is stored it is evaluated at 0.8, and when the index
        raises the request is recorded as failed with the index's error. */
    method Respond(userInput: string, steps: seq<string>, response: string, now: int, store: IndexAdd)
      returns (r: RequestResult)
      modifies this, engine, memory
      ensures history == old(history) + [Message(Assistant, response)]
      ensures engine.thoughts == old(engine.thoughts) + [ClosingThought(RequestOutcome(Completed(response), store))]
      ensures engine.currentTask == old(engine.currentTask) && engine.taskSteps == old(engine.taskSteps)
      ensures memory.interactions == old(memory.interactions)
                + [Interaction(InteractionId(|old(memory.interactions)| + 1), now, userInput, response, map[])]
      ensures memory.interactionIndex == old(memory.interactionIndex)
                + (if store.Stored?
                   then [IndexEntry(InteractionId(|old(memory.interactions)| + 1), userInput + " " + response,
                                    InteractionMetadata(now, userInput))]
                   else [])
      ensures memory.lessons == old(memory.lessons) && memory.lessonIndex == old(memory.lessonIndex)
      ensures old(memory.WellNumbered()) ==> memory.WellNumbered()
      ensures old(memory.InLockstep()) && store.Stored? ==> memory.InLockstep()
      ensures sessionId == old(sessionId)
      ensures r == (if store.Stored?
                    then Responded(response, Records(engine.thoughts),
                                   Summarize(engine.currentTask, engine.thoughts, engine.taskSteps), steps, now)
                    else RequestFailed(ErrorLead + store.message, Records(engine.thoughts), now))
    {
      history := history + [Message(Assistant, response)];
      var added := memory.AddInteraction(userInput, response, None, now, store);
      r := CloseReply(response, steps, now, added);
    }

    /** Closes a reply once its storage is known: stored, it is evaluated at
        0.8 and returned with the summary; not stored, the request fails. */
    method CloseReply(response: string, steps: seq<string>, now: int, added: AddOutcome)
      returns (r: RequestResult)
      modifies engine
      ensures engine.thoughts == old(engine.thoughts)
                + [ClosingThought(if added.Added? then Completed(response) else CompletionFailed(added.message))]
      ensures engine.currentTask == old(engine.currentTask) && engine.taskSteps == old(engine.taskSteps)
      ensures r == (if added.Added?
                    then Responded(response, Records(engine.thoughts),
                                   Summarize(engine.currentTask, engine.thoughts, engine.taskSteps), steps, now)
                    else RequestFailed(ErrorLead + added.message, Records(engine.thoughts), now))
    {
      match added {
        case Added(_) =>
          engine.EvaluateResult(response, ReplyQuality);
          var summary := engine.GetSummary();
          var records := engine.ThoughtProcess();
          r := Responded(response, records, summary, steps, now);
        case AddFailed(message) =>
          r := RecordFailure(message, now);
      }
    }

    /** A failed call is recorded as an evaluation at 0.0 carrying the error. */
    method RecordFailure(message: string, now: int) returns (r: RequestResult)
      modifies engine
      ensures engine.thoughts == old(engine.thoughts) + [ClosingThought(CompletionFailed(message))]
      ensures engine.currentTask == old(engine.currentTask) && engine.taskSteps == old(engine.taskSteps)
      ensures r == RequestFailed(ErrorLead + message, Records(engine.thoughts), now)
    {
      var error := ErrorLead + message;
      var _ := engine.AddThought(RequestError(error), Evaluation, ProcessingError, 0.0);
      var records := engine.ThoughtProcess();
      r := RequestFailed(error, records, now);
    }

    /** Runs a registered tool, recording the invocation and its outcome, and
        hands back the registry's result unchanged. */
    method UseTool(name: string, arguments: map<string, string>, run: Tool -> Invocation) returns (r: ToolResult)
      modifies engine
      ensures r == toolbox.ExecuteTool(name, run)
      ensures engine.thoughts == old(engine.thoughts) + ToolThoughts(name, arguments, r)
      ensures engine.currentTask == old(engine.currentTask) && engine.taskSteps == old(engine.taskSteps)
    {
      var _ := engine.AddThought(ToolInvoked(name), Execution, ToolArguments(arguments), DefaultConfidence);
      r := toolbox.ExecuteTool(name, run);
      if Succeeded(r) {
        var _ := engine.AddThought(ToolSucceeded(name), Execution, ResultsObtained, 0.9);
      } else {
        var _ := engine.AddThought(ToolFailed(name), Execution, FailureReason(ErrorText(r).GetOr("خطأ غير معروف")), 0.1);
      }
    }

    /** Stores a lesson in memory and, once the index has it, records it as a
        learning thought; an index failure is passed on before any thought. */
    method LearnLesson(lesson: string, category: string, importance: int, now: int, store: IndexAdd)
      returns (r: AddOutcome)
      modifies memory, engine
      ensures var id := LessonId(|old(memory.lessons)| + 1);
              && r == (if store.Stored? then Added(id) else AddFailed(store.message))
              && memory.lessons == old(memory.lessons) + [Lesson(id, now, lesson, Some(category), Some(importance))]
              && memory.lessonIndex == old(memory.lessonIndex)
                   + (if store.Stored? then [IndexEntry(id, lesson, LessonMetadata(now, category, importance))] else [])
      ensures memory.interactions == old(memory.interactions)
      ensures memory.interactionIndex == old(memory.interactionIndex)
      ensures engine.thoughts == old(engine.thoughts)
                + (if store.Stored?
                   then [Thought(Learned(lesson), Learning, ImportanceOutOfTen(importance), DefaultConfidence)]
                   else [])
      ensures engine.currentTask == old(engine.currentTask) && engine.taskSteps == old(engine.taskSteps)
      ensures old(memory.WellNumbered()) ==> memory.WellNumbered()
      ensures old(memory.InLockstep()) ==> (memory.InLockstep() <==> store.Stored?)
    {
      r := memory.AddLesson(lesson, category, importance, now, store);
      if r.Added? {
        engine.LearnFromExperience(lesson, importance);
      }
    }

    /** A turn is two messages; a lone trailing message does not count. */
    function ConversationTurns(): (n: nat)
      reads this
      ensures 2 * n <= |history| < 2 * n + 2
    {
      |history| / 2
    }

    /** The session at a glance. */
    method GetSessionSummary(now: int) returns (s: SessionSummary)
      ensures s.sessionId == sessionId && s.agentName == agentName && s.language == language
      ensures s.conversationTurns == ConversationTurns()
      ensures s.reasoning == Summarize(engine.currentTask, engine.thoughts, engine.taskSteps)
      ensures s.memory == memory.Stats() && s.timestamp == now
    {
      var reasoning := engine.GetSummary();
      s := SessionSummary(sessionId, agentName, language, ConversationTurns(), reasoning, memory.Stats(), now);
    }

    /** Starts a new session: the conversation and the trace are emptied; the
        memory and the tools stay as they are. */
    method ResetSession(now: int)
      modifies this, engine
      ensures history == [] && sessionId == now
      ensures engine.thoughts == [] && engine.currentTask == None && engine.taskSteps == []
    {
      history := [];
      engine.Reset();
      sessionId := now;
    }
  }
}
