/** The reasoning trace: an append-only log of typed thoughts for one task,
    the task description and its planned steps, with a summary; and a chain,
    an ordered registry of named traces. */
module Reasoning {
  import opened Util

  datatype ThoughtKind = Analysis | Planning | Execution | Evaluation | Learning

  const AllKinds: set<ThoughtKind> := {Analysis, Planning, Execution, Evaluation, Learning}

  /** The label a kind carries in a thought record (the enum's value). */
  function KindLabel(k: ThoughtKind): string
  {
    match k
    case Analysis => "تحليل"
    case Planning => "تخطيط"
    case Execution => "تنفيذ"
    case Evaluation => "تقييم"
    case Learning => "تعلم"
  }

  /** The text of a thought's content or justification. Each constructor
      stands for one message template of the agent, with the values it
      interpolates. */
  datatype Note =
    | TaskStarted(task: string)
    | TaskAnalysis
    | PlanningFor(numSteps: int)
    | Decomposition
    | StepExecuted(step: int, result: string)
    | StepOutcome(success: bool)
    | Evaluated(result: string)
    | QualityPercent(quality: real)
    | Learned(lesson: string)
    | ImportanceOutOfTen(importance: int)
    | FoundInteractions(count: nat)
    | MemorySearch
    | FoundLessons(count: nat)
    | UsingExperience
    | RequestError(message: string)
    | ProcessingError
    | ToolInvoked(tool: string)
    | ToolArguments(arguments: map<string, string>)
    | ToolSucceeded(tool: string)
    | ResultsObtained
    | ToolFailed(tool: string)
    | FailureReason(error: string)

  /** One recorded thought; the creation time is not modelled. */
  datatype Thought = Thought(content: Note, kind: ThoughtKind, reasoning: Note, confidence: real)

  /** The plain record a thought is exported as. */
  datatype ThoughtRecord = ThoughtRecord(content: Note, kindLabel: string, reasoning: Note, confidence: real)

  const DefaultConfidence: real := 0.5

  /** The placeholder plan: five fixed steps, whatever was asked for. */
  const PlaceholderSteps: seq<string> := [
    "1. فهم المهمة بشكل كامل",
    "2. جمع المعلومات اللازمة",
    "3. تحليل البيانات والمعلومات",
    "4. تطوير الحل",
    "5. التحقق والتقييم"
  ]

  function ToRecord(t: Thought): ThoughtRecord
  {
    ThoughtRecord(t.content, KindLabel(t.kind), t.reasoning, t.confidence)
  }

  /** The records of a trace, as the engine exports them. */
  function Records(ts: seq<Thought>): (r: seq<ThoughtRecord>)
    ensures |r| == |ts|
    ensures forall i :: 0 <= i < |r| ==> r[i] == ToRecord(ts[i])
  {
    seq(|ts|, i requires 0 <= i < |ts| => ToRecord(ts[i]))
  }

  /** Different kinds get different labels, so a record determines its thought. */
  lemma RecordDeterminesThought(t: Thought, u: Thought)
    ensures ToRecord(t) == ToRecord(u) <==> t == u
  {
    if ToRecord(t) == ToRecord(u) {
      assert KindLabel(t.kind) == KindLabel(u.kind);
      assert KindLabel(t.kind)[0] == KindLabel(u.kind)[0];
      assert KindLabel(t.kind)[1] == KindLabel(u.kind)[1];
    }
  }

  /** How many thoughts of kind `k` occur in `ts`. */
  function CountKind(ts: seq<Thought>, k: ThoughtKind): nat
  {
    if ts == [] then 0
    else CountKind(ts[..|ts| - 1], k) + (if ts[|ts| - 1].kind == k then 1 else 0)
  }

  /** Sum of the confidences of `ts`. */
  function ConfidenceSum(ts: seq<Thought>): real
  {
    if ts == [] then 0.0 else ConfidenceSum(ts[..|ts| - 1]) + ts[|ts| - 1].confidence
  }

  /** The kind -> count table of the summary: only kinds that occur are keys. */
  function KindHistogram(ts: seq<Thought>): map<ThoughtKind, nat>
  {
    map k | k in AllKinds && CountKind(ts, k) > 0 :: CountKind(ts, k)
  }

  /** The total of a kind -> count table. */
  function HistogramTotal(h: map<ThoughtKind, nat>): nat
  {
    (if Analysis in h then h[Analysis] else 0)
    + (if Planning in h then h[Planning] else 0)
    + (if Execution in h then h[Execution] else 0)
    + (if Evaluation in h then h[Evaluation] else 0)
    + (if Learning in h then h[Learning] else 0)
  }

  datatype Summary =
    | NoThoughts
    | TraceSummary(currentTask: Option<string>, totalThoughts: nat,
                   kindCounts: map<ThoughtKind, nat>, averageConfidence: real,
                   taskSteps: seq<string>, firstThought: ThoughtRecord, lastThought: ThoughtRecord)

  /** The summary of a trace, as a value. */
  function Summarize(task: Option<string>, ts: seq<Thought>, steps: seq<string>): Summary
  {
    if ts == [] then NoThoughts
    else TraceSummary(task, |ts|, KindHistogram(ts), ConfidenceSum(ts) / (|ts| as real),
                      steps, ToRecord(ts[0]), ToRecord(ts[|ts| - 1]))
  }

  /** Every thought has exactly one kind, so the five kind counts add up to the length. */
  lemma {:induction false} KindCountsSum(ts: seq<Thought>)
    ensures CountKind(ts, Analysis) + CountKind(ts, Planning) + CountKind(ts, Execution)
            + CountKind(ts, Evaluation) + CountKind(ts, Learning) == |ts|
  {
    if ts != [] {
      KindCountsSum(ts[..|ts| - 1]);
    }
  }

  /** A non-empty summary counts every thought, and its table adds up to that count;
      an empty trace gives only the marker. */
  lemma SummaryCounts(task: Option<string>, ts: seq<Thought>, steps: seq<string>)
    ensures Summarize(task, ts, steps).NoThoughts? <==> ts == []
    ensures ts != [] ==> Summarize(task, ts, steps).totalThoughts == |ts|
    ensures ts != [] ==> HistogramTotal(Summarize(task, ts, steps).kindCounts) == |ts|
  {
    KindCountsSum(ts);
  }

  /** The table lists exactly the kinds that occur, each with its number of occurrences. */
  lemma {:induction false} HistogramCounts(ts: seq<Thought>, k: ThoughtKind)
    ensures k in KindHistogram(ts) <==> exists i :: 0 <= i < |ts| && ts[i].kind == k
    ensures k in KindHistogram(ts) ==> KindHistogram(ts)[k] == CountKind(ts, k)
  {
    CountKindPositive(ts, k);
  }

  lemma {:induction false} CountKindPositive(ts: seq<Thought>, k: ThoughtKind)
    ensures CountKind(ts, k) > 0 <==> exists i :: 0 <= i < |ts| && ts[i].kind == k
  {
    if ts != [] {
      var init := ts[..|ts| - 1];
      CountKindPositive(init, k);
      if exists i :: 0 <= i < |init| && init[i].kind == k {
        var i :| 0 <= i < |init| && init[i].kind == k;
        assert ts[i].kind == k;
      }
      if exists i :: 0 <= i < |ts| && ts[i].kind == k {
        var i :| 0 <= i < |ts| && ts[i].kind == k;
        if i < |ts| - 1 {
          assert init[i].kind == k;
        }
      }
    }
  }

  /** If every confidence lies in [0, 1], so does their sum divided by the count. */
  lemma {:induction false} ConfidenceSumBounds(ts: seq<Thought>)
    requires forall i :: 0 <= i < |ts| ==> 0.0 <= ts[i].confidence <= 1.0
    ensures 0.0 <= ConfidenceSum(ts) <= |ts| as real
  {
    if ts != [] {
      ConfidenceSumBounds(ts[..|ts| - 1]);
    }
  }

  lemma AverageConfidenceBounds(task: Option<string>, ts: seq<Thought>, steps: seq<string>)
    requires ts != []
    requires forall i :: 0 <= i < |ts| ==> 0.0 <= ts[i].confidence <= 1.0
    ensures 0.0 <= Summarize(task, ts, steps).averageConfidence <= 1.0
  {
    ConfidenceSumBounds(ts);
    var n := |ts| as real;
    var s := ConfidenceSum(ts);
    assert s / n <= 1.0 by {
      assert s <= n;
    }
  }

  class ReasoningEngine {
    var thoughts: seq<Thought>
    var currentTask: Option<string>
    var taskSteps: seq<string>

    constructor ()
      ensures thoughts == [] && currentTask == None && taskSteps == []
    {
      thoughts := [];
      currentTask := None;
      taskSteps := [];
    }

    /** Starts a task: whatever came before, the trace holds exactly the
        start-of-task analysis thought and no steps. */
    method StartTask(task: string)
      modifies this
      ensures currentTask == Some(task)
      ensures taskSteps == []
      ensures thoughts == [Thought(TaskStarted(task), Analysis, TaskAnalysis, DefaultConfidence)]
    {
      currentTask := Some(task);
      thoughts := [];
      taskSteps := [];
      var _ := AddThought(TaskStarted(task), Analysis, TaskAnalysis, DefaultConfidence);
    }

    /** Appends one thought at the end and returns it; nothing else changes. */
    method AddThought(content: Note, kind: ThoughtKind, reasoning: Note, confidence: real)
      returns (t: Thought)
      modifies this
      ensures t == Thought(content, kind, reasoning, confidence)
      ensures thoughts == old(thoughts) + [t]
      ensures currentTask == old(currentTask) && taskSteps == old(taskSteps)
    {
      t := Thought(content, kind, reasoning, confidence);
      thoughts := thoughts + [t];
    }

    /** Records a planning thought and installs the fixed placeholder plan,
        whatever `numSteps` asks for. */
    method PlanSteps(task: string, numSteps: int) returns (steps: seq<string>)
      modifies this
      ensures steps == PlaceholderSteps && |steps| == 5
      ensures taskSteps == steps
      ensures thoughts == old(thoughts) + [Thought(PlanningFor(numSteps), Planning, Decomposition, DefaultConfidence)]
      ensures currentTask == old(currentTask)
    {
      var _ := AddThought(PlanningFor(numSteps), Planning, Decomposition, DefaultConfidence);
      steps := PlaceholderSteps;
      taskSteps := steps;
    }

    /** Records an executed step: confidence 0.9 on success, 0.3 on failure. */
    method ExecuteStep(stepNumber: int, result: string, success: bool)
      modifies this
      ensures thoughts == old(thoughts) + [Thought(StepExecuted(stepNumber, result), Execution,
                                                   StepOutcome(success), if success then 0.9 else 0.3)]
      ensures currentTask == old(currentTask) && taskSteps == old(taskSteps)
    {
      var _ := AddThought(StepExecuted(stepNumber, result), Execution, StepOutcome(success),
                          if success then 0.9 else 0.3);
    }

    /** Records an evaluation whose confidence is the given quality. */
    method EvaluateResult(result: string, quality: real)
      modifies this
      ensures thoughts == old(thoughts) + [Thought(Evaluated(result), Evaluation, QualityPercent(quality), quality)]
      ensures currentTask == old(currentTask) && taskSteps == old(taskSteps)
    {
      var _ := AddThought(Evaluated(result), Evaluation, QualityPercent(quality), quality);
    }

    /** Records a lesson as a learning thought with the default confidence;
        the lesson is not stored anywhere else. */
    method LearnFromExperience(lesson: string, importance: int)
      modifies this
      ensures thoughts == old(thoughts) + [Thought(Learned(lesson), Learning, ImportanceOutOfTen(importance), DefaultConfidence)]
      ensures currentTask == old(currentTask) && taskSteps == old(taskSteps)
    {
      var _ := AddThought(Learned(lesson), Learning, ImportanceOutOfTen(importance), DefaultConfidence);
    }

    /** The trace as plain records, same length and order as the thoughts. */
    function ThoughtProcess(): (r: seq<ThoughtRecord>)
      reads this
      ensures |r| == |thoughts|
      ensures forall i :: 0 <= i < |r| ==>
                (r[i].kindLabel == KindLabel(thoughts[i].kind) && r[i].confidence == thoughts[i].confidence
                 && r[i].content == thoughts[i].content && r[i].reasoning == thoughts[i].reasoning)
    {
      Records(thoughts)
    }

    /** Counts the kinds in one pass over the trace. */
    method GetSummary() returns (s: Summary)
      ensures s == Summarize(currentTask, thoughts, taskSteps)
    {
      if thoughts == [] {
        return NoThoughts;
      }
      var counts: map<ThoughtKind, nat> := map[];
      var i := 0;
      while i < |thoughts|
        invariant 0 <= i <= |thoughts|
        invariant counts == KindHistogram(thoughts[..i])
      {
        var k := thoughts[i].kind;
        HistogramStep(thoughts, i);
        counts := counts[k := (if k in counts then counts[k] else 0) + 1];
        i := i + 1;
      }
      assert thoughts[..|thoughts|] == thoughts;
      var average := ConfidenceSum(thoughts) / (|thoughts| as real);
      s := TraceSummary(currentTask, |thoughts|, counts, average, taskSteps,
                        ToRecord(thoughts[0]), ToRecord(thoughts[|thoughts| - 1]));
    }

    /** Back to the freshly constructed state. */
    method Reset()
      modifies this
      ensures thoughts == [] && currentTask == None && taskSteps == []
    {
      thoughts := [];
      currentTask := None;
      taskSteps := [];
    }
  }

  /** One step of the counting loop: extending the prefix by one thought adds
      one to that thought's kind and leaves the other entries alone. */
  lemma HistogramStep(ts: seq<Thought>, i: nat)
    requires i < |ts|
    ensures KindHistogram(ts[..i + 1]) ==
            KindHistogram(ts[..i])[ts[i].kind := (if ts[i].kind in KindHistogram(ts[..i]) then KindHistogram(ts[..i])[ts[i].kind] else 0) + 1]
  {
    assert ts[..i + 1][..i] == ts[..i];
  }

  /** The summaries a chain reports, keyed by engine name. */
  datatype ChainSummary = ChainSummary(totalEngines: nat, executionOrder: seq<string>,
                                       enginesSummary: map<string, Summary>)

  class ReasoningChain {
    var engines: map<string, ReasoningEngine>
    var executionOrder: seq<string>

    /** Every name in the order is registered and every registered name is in the order. */
    ghost predicate Valid()
      reads this
    {
      forall name :: name in executionOrder <==> name in engines
    }

    constructor ()
      ensures Valid() && engines == map[] && executionOrder == []
    {
      engines := map[];
      executionOrder := [];
    }

    /** Registers (or replaces) an engine and appends its name to the order,
        even when the name is already there. */
    method AddEngine(name: string, engine: ReasoningEngine)
      requires Valid()
      modifies this
      ensures Valid()
      ensures engines == old(engines)[name := engine]
      ensures executionOrder == old(executionOrder) + [name]
    {
      engines := engines[name := engine];
      executionOrder := executionOrder + [name];
    }

    /** Summarises every engine named in the order. */
    method ExecuteChain() returns (results: map<string, Summary>)
      requires Valid()
      ensures results.Keys == engines.Keys
      ensures forall name :: name in results ==>
                results[name] == Summarize(engines[name].currentTask, engines[name].thoughts, engines[name].taskSteps)
    {
      results := map[];
      var i := 0;
      while i < |executionOrder|
        invariant 0 <= i <= |executionOrder|
        invariant results.Keys == set j | 0 <= j < i :: executionOrder[j]
        invariant forall name :: name in results ==>
                    (name in engines &&
                     results[name] == Summarize(engines[name].currentTask, engines[name].thoughts, engines[name].taskSteps))
      {
        var name := executionOrder[i];
        var summary := engines[name].GetSummary();
        results := results[name := summary];
        i := i + 1;
      }
      assert forall name :: name in engines ==> name in results by {
        forall name | name in engines ensures name in results {
          assert name in executionOrder;
          var j :| 0 <= j < |executionOrder| && executionOrder[j] == name;
        }
      }
    }

    function GetChainSummary(): (s: ChainSummary)
      reads this, engines.Values
      requires Valid()
      ensures s.totalEngines == |engines| && s.executionOrder == executionOrder
      ensures s.enginesSummary.Keys == engines.Keys
      ensures forall name :: name in s.enginesSummary ==>
                s.enginesSummary[name] == Summarize(engines[name].currentTask, engines[name].thoughts, engines[name].taskSteps)
    {
      ChainSummary(|engines|, executionOrder,
                   map name | name in engines ::
                     Summarize(engines[name].currentTask, engines[name].thoughts, engines[name].taskSteps))
    }
  }

  /** The number of registered engines is the number of distinct names in the
      order, which never exceeds the length of the order. */
  lemma {:induction false} DistinctNamesBound(order: seq<string>)
    ensures |set name | name in order| <= |order|
  {
    if order != [] {
      var init := order[..|order| - 1];
      DistinctNamesBound(init);
      assert (set name | name in order) == (set name | name in init) + {order[|order| - 1]} by {
        forall name ensures name in order <==> name in init || name == order[|order| - 1] {
          assert order == init + [order[|order| - 1]];
        }
      }
    }
  }

  /** Re-adding a name that is already registered lengthens the order but
      leaves the engine count unchanged. */
  lemma DuplicateAddKeepsCount(engines: map<string, ReasoningEngine>, name: string, engine: ReasoningEngine)
    requires name in engines
    ensures |engines[name := engine]| == |engines|
  {
    assert engines[name := engine].Keys == engines.Keys;
  }

  /** A chain's engine count is the number of distinct names in its order,
      which is at most the order's length (longer once a name was re-added). */
  lemma ChainCountsDistinctNames(c: ReasoningChain)
    requires c.Valid()
    ensures |c.engines| == |set name | name in c.executionOrder| <= |c.executionOrder|
  {
    assert c.engines.Keys == set name | name in c.executionOrder;
    DistinctNamesBound(c.executionOrder);
  }
}
