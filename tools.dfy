/** The tool registry and the decision logic of the built-in tools. Every
    tool answers with a result record that says whether it succeeded; the
    process, the file system and the spreadsheet loader a tool drives are
    passed in as values. */
module Tools {
  import opened Util

  datatype Tool = Tool(name: string, description: string)

  const PythonExecutorTool: Tool := Tool("Python Code Executor", "تنفيذ كود Python مباشرة")
  const WebScraperTool: Tool := Tool("Web Scraper", "تصفح وجمع البيانات من المواقع")
  const DataAnalyzerTool: Tool := Tool("Data Analyzer", "تحليل البيانات والملفات")
  const FileManagerTool: Tool := Tool("File Manager", "إدارة وقراءة الملفات")

  const DefaultTools: seq<Tool> := [PythonExecutorTool, WebScraperTool, DataAnalyzerTool, FileManagerTool]

  /** The names of some tools, in order. */
  function Names(ts: seq<Tool>): (r: seq<string>)
    ensures |r| == |ts| && forall i :: 0 <= i < |ts| ==> r[i] == ts[i].name
  {
    seq(|ts|, i requires 0 <= i < |ts| => ts[i].name)
  }

  datatype ToolError =
    | ToolNotFound(tool: string)
    | Raised(message: string)
    | ForbiddenKeyword(keyword: string)
    | TimeoutExpired(seconds: int)
    | Stderr(text: string)
    | UnknownAction(action: string)
    | UnsupportedFormat
    | NoSuchPath(path: string)
    | IsADirectory(path: string)
    | NotADirectory(path: string)

  /** The text of an error as the result record carries it. */
  function ErrorMessage(e: ToolError): string
  {
    match e
    case ToolNotFound(t) => "الأداة '" + t + "' غير موجودة"
    case Raised(m) => m
    case ForbiddenKeyword(k) => "الكلمة المحظورة '" + k + "' موجودة في الكود"
    case TimeoutExpired(s) => "انتهت مهلة التنفيذ (" + IntToString(s) + "s)"
    case Stderr(t) => t
    case UnknownAction(a) => "العملية '" + a + "' غير معروفة"
    case UnsupportedFormat => "صيغة الملف غير مدعومة"
    case NoSuchPath(p) => "[Errno 2] No such file or directory: '" + p + "'"
    case IsADirectory(p) => "[Errno 21] Is a directory: '" + p + "'"
    case NotADirectory(p) => "[Errno 20] Not a directory: '" + p + "'"
  }

  /** First rows and shape of a loaded table; per-column statistics are not modelled. */
  datatype TableAnalysis = TableAnalysis(rowCount: nat, columnCount: nat, columns: seq<string>,
                                         preview: seq<seq<string>>)

  /** A tool's answer. `OtherResult` is the answer of a tool whose own logic is
      not part of this model (the web fetcher, tools registered by callers). */
  datatype ToolResult =
    | Failure(error: ToolError)
    | CodeRun(success: bool, output: string, error: ToolError, returnCode: int)
    | FileRead(path: string, content: string)
    | FileWritten(path: string)
    | DirListing(directory: string, files: seq<string>)
    | FileDeleted(path: string)
    | FileFailure(action: string, path: string, error: ToolError)
    | Analyzed(path: string, analysis: TableAnalysis)
    | AnalysisFailure(path: string, error: ToolError)
    | OtherResult(success: bool, message: Option<string>)

  /** The record's `success` field. */
  predicate Succeeded(r: ToolResult)
  {
    match r
    case Failure(_) => false
    case CodeRun(success, _, _, _) => success
    case FileRead(_, _) => true
    case FileWritten(_) => true
    case DirListing(_, _) => true
    case FileDeleted(_) => true
    case FileFailure(_, _, _) => false
    case Analyzed(_, _) => true
    case AnalysisFailure(_, _) => false
    case OtherResult(success, _) => success
  }

  /** The record's `error` field, when it has one. */
  function ErrorText(r: ToolResult): Option<string>
  {
    match r
    case Failure(e) => Some(ErrorMessage(e))
    case CodeRun(_, _, e, _) => Some(ErrorMessage(e))
    case FileFailure(_, _, e) => Some(ErrorMessage(e))
    case AnalysisFailure(_, e) => Some(ErrorMessage(e))
    case OtherResult(_, m) => m
    case _ => None
  }

  /** What calling a tool's execute did: it returned a record or raised. */
  datatype Invocation = Returned(result: ToolResult) | Threw(message: string)

  // ---------------------------------------------------------------- code executor

  /** How the child interpreter ended: it exited, it ran past the timeout, or
      it could not be started. */
  datatype ProcessOutcome =
    | Exited(returnCode: int, stdout: string, stderr: string)
    | TimedOut
    | SpawnRaised(message: string)

  const DefaultTimeout: int := 30

  /** The executor's result for a finished, timed-out or failed process. */
  function RunResult(outcome: ProcessOutcome, timeout: int): (r: ToolResult)
    ensures r.CodeRun?
    ensures Succeeded(r) <==> outcome.Exited? && outcome.returnCode == 0
    ensures outcome.Exited? ==> r.output == outcome.stdout && r.returnCode == outcome.returnCode
                                && r.error == Stderr(outcome.stderr)
    ensures !outcome.Exited? ==> r.output == "" && r.returnCode == -1
    ensures outcome.TimedOut? ==> r.error == TimeoutExpired(timeout)
    ensures outcome.SpawnRaised? ==> r.error == Raised(outcome.message)
  {
    match outcome
    case Exited(code, out, err) => CodeRun(code == 0, out, Stderr(err), code)
    case TimedOut => CodeRun(false, "", TimeoutExpired(timeout), -1)
    case SpawnRaised(m) => CodeRun(false, "", Raised(m), -1)
  }

  const ForbiddenKeywords: seq<string> :=
    ["exec", "eval", "compile", "__import__", "open", "input", "raw_input", "file"]

  /** The rejection record for code containing a forbidden keyword. */
  function Rejected(keyword: string): ToolResult
  {
    CodeRun(false, "", ForbiddenKeyword(keyword), -1)
  }

  /** Scans the denylist in order and rejects the code on the first keyword
      that occurs in it as a substring; runs it only when none does. */
  method SafeExecute(code: string, outcome: ProcessOutcome) returns (r: ToolResult)
    ensures (forall i :: 0 <= i < |ForbiddenKeywords| ==> !Contains(code, ForbiddenKeywords[i])) ==>
              r == RunResult(outcome, DefaultTimeout)
    ensures (exists i :: 0 <= i < |ForbiddenKeywords| && Contains(code, ForbiddenKeywords[i])) ==>
              exists i :: 0 <= i < |ForbiddenKeywords| && Contains(code, ForbiddenKeywords[i]) &&
                (forall j :: 0 <= j < i ==> !Contains(code, ForbiddenKeywords[j])) &&
                r == Rejected(ForbiddenKeywords[i])
  {
    var i := 0;
    while i < |ForbiddenKeywords|
      invariant 0 <= i <= |ForbiddenKeywords|
      invariant forall j :: 0 <= j < i ==> !Contains(code, ForbiddenKeywords[j])
    {
      if Contains(code, ForbiddenKeywords[i]) {
        return Rejected(ForbiddenKeywords[i]);
      }
      i := i + 1;
    }
    r := RunResult(outcome, DefaultTimeout);
  }

  /** What a caller sees of a rejection: a failure with no output, return code
      -1 and the forbidden-keyword text. A process that exits with -1, prints
      nothing and writes that same text to stderr is seen exactly the same way. */
  lemma RejectionAsSeen(keyword: string)
    ensures var r := Rejected(keyword);
            !Succeeded(r) && r.output == "" && r.returnCode == -1
            && ErrorText(r) == Some(ErrorMessage(ForbiddenKeyword(keyword)))
    ensures var run := RunResult(Exited(-1, "", ErrorMessage(ForbiddenKeyword(keyword))), DefaultTimeout);
            var r := Rejected(keyword);
            Succeeded(run) == Succeeded(r) && run.output == r.output && run.returnCode == r.returnCode
            && ErrorText(run) == ErrorText(r)
  {
  }

  /** The denylist is textual: an identifier that merely contains a keyword is rejected too. */
  lemma DenylistIsTextual()
    ensures Contains("profile = 1", "file")
  {
    assert OccursAt("profile = 1", "file", 3);
  }

  // ---------------------------------------------------------------- file manager

  /** The file system as the file manager sees it: file contents, and the
      entries of each directory. */
  datatype FileSystem = FileSystem(files: map<string, string>, dirs: map<string, seq<string>>)

  datatype FileStep = FileStep(result: ToolResult, fs: FileSystem)

  const ReadLimit: nat := 5000
  const ListLimit: nat := 20

  /** Text-mode reading with universal newlines: every "\r\n" and every lone
      '\r' in the stored text reads back as a single '\n'. */
  function UniversalNewlines(s: string): (r: string)
    ensures '\r' !in r
    ensures '\r' !in s ==> r == s
    ensures |r| <= |s|
    ensures forall c :: c in r && c != '\n' ==> c in s
  {
    if s == [] then []
    else if s[0] == '\r' then "\n" + UniversalNewlines(if |s| > 1 && s[1] == '\n' then s[2..] else s[1..])
    else [s[0]] + UniversalNewlines(s[1..])
  }

  /** Dispatches on the action tag; read and list results are truncated. */
  function FileManagerExecute(action: string, path: string, content: Option<string>, fs: FileSystem): (s: FileStep)
    ensures action != "read" && action != "write" && action != "list" && action != "delete" ==>
              s == FileStep(Failure(UnknownAction(action)), fs)
    ensures s.result.FileRead? ==> |s.result.content| <= ReadLimit
    ensures s.result.DirListing? ==> |s.result.files| <= ListLimit
    ensures action != "write" && action != "delete" ==> s.fs == fs
    ensures Succeeded(s.result) ==> action in {"read", "write", "list", "delete"}
    ensures action == "read" && path in fs.files ==>
              s.result.FileRead? && s.result.path == path &&
              |s.result.content| == Min(ReadLimit, |UniversalNewlines(fs.files[path])|) &&
              s.result.content == UniversalNewlines(fs.files[path])[..|s.result.content|]
    ensures action == "list" && path in fs.dirs ==>
              s.result.DirListing? && s.result.directory == path &&
              |s.result.files| == Min(ListLimit, |fs.dirs[path]|) &&
              s.result.files == fs.dirs[path][..|s.result.files|]
    ensures action == "write" && path !in fs.dirs ==>
              s.result == FileWritten(path) && s.fs.dirs == fs.dirs &&
              s.fs.files == fs.files[path := content.GetOr("")]
    ensures action == "delete" && path in fs.files ==>
              s.result == FileDeleted(path) && s.fs.dirs == fs.dirs &&
              s.fs.files.Keys == fs.files.Keys - {path} &&
              forall other :: other in s.fs.files ==> s.fs.files[other] == fs.files[other]
    ensures action in {"read", "write", "list", "delete"} && !Succeeded(s.result) ==>
              s.fs == fs && s.result.FileFailure? && s.result.action == action && s.result.path == path
  {
    if action == "read" then
      if path in fs.files then FileStep(FileRead(path, Prefix(UniversalNewlines(fs.files[path]), ReadLimit)), fs)
      else if path in fs.dirs then FileStep(FileFailure(action, path, IsADirectory(path)), fs)
      else FileStep(FileFailure(action, path, NoSuchPath(path)), fs)
    else if action == "write" then
      if path in fs.dirs then FileStep(FileFailure(action, path, IsADirectory(path)), fs)
      else FileStep(FileWritten(path), fs.(files := fs.files[path := content.GetOr("")]))
    else if action == "list" then
      if path in fs.dirs then FileStep(DirListing(path, Prefix(fs.dirs[path], ListLimit)), fs)
      else if path in fs.files then FileStep(FileFailure(action, path, NotADirectory(path)), fs)
      else FileStep(FileFailure(action, path, NoSuchPath(path)), fs)
    else if action == "delete" then
      if path in fs.files then FileStep(FileDeleted(path), fs.(files := fs.files - {path}))
      else if path in fs.dirs then FileStep(FileFailure(action, path, IsADirectory(path)), fs)
      else FileStep(FileFailure(action, path, NoSuchPath(path)), fs)
    else FileStep(Failure(UnknownAction(action)), fs)
  }

  /** Reading back a file just written yields the first 5000 characters of what was
      written, with its line endings read as universal newlines; text without a
      carriage return comes back unchanged. */
  lemma WriteThenRead(path: string, content: string, fs: FileSystem)
    requires path !in fs.dirs
    ensures var w := FileManagerExecute("write", path, Some(content), fs);
            w.result == FileWritten(path) &&
            FileManagerExecute("read", path, None, w.fs).result == FileRead(path, Prefix(UniversalNewlines(content), ReadLimit))
    ensures '\r' !in content ==>
              FileManagerExecute("read", path, None, FileManagerExecute("write", path, Some(content), fs).fs).result ==
              FileRead(path, Prefix(content, ReadLimit))
  {
  }

  /** After a delete the file can no longer be read. */
  lemma DeleteThenRead(path: string, fs: FileSystem)
    requires path in fs.files && path !in fs.dirs
    ensures var d := FileManagerExecute("delete", path, None, fs);
            d.result == FileDeleted(path) &&
            FileManagerExecute("read", path, None, d.fs).result == FileFailure("read", path, NoSuchPath(path))
  {
  }

  /** A write touches only the file it names. */
  lemma WriteIsLocal(path: string, other: string, content: Option<string>, fs: FileSystem)
    requires other != path
    ensures var w := FileManagerExecute("write", path, content, fs);
            w.fs.dirs == fs.dirs &&
            (other in w.fs.files <==> other in fs.files) &&
            (other in fs.files ==> w.fs.files[other] == fs.files[other])
  {
  }

  // ---------------------------------------------------------------- data analyzer

  datatype DataFormat = Csv | Excel | Unsupported

  /** The loader chosen by the file name's extension. */
  function FormatOf(path: string): (f: DataFormat)
    ensures f == Csv <==> EndsWith(path, ".csv")
    ensures f == Unsupported <==> !EndsWith(path, ".csv") && !EndsWith(path, ".xlsx") && !EndsWith(path, ".xls")
  {
    if EndsWith(path, ".csv") then Csv
    else if EndsWith(path, ".xlsx") || EndsWith(path, ".xls") then Excel
    else Unsupported
  }

  datatype Table = Table(columns: seq<string>, rows: seq<seq<string>>)

  /** What the table loader did for a supported format. */
  datatype LoadOutcome = Loaded(table: Table) | LoadRaised(message: string)

  const PreviewRows: nat := 5

  /** The analyser's report on a loaded table: its shape, its columns and its
      first five rows. */
  function TableReport(path: string, t: Table): (r: ToolResult)
    ensures r.Analyzed? && r.path == path && Succeeded(r)
    ensures r.analysis.rowCount == |t.rows| && r.analysis.columnCount == |t.columns|
    ensures r.analysis.columns == t.columns
    ensures |r.analysis.preview| == Min(PreviewRows, |t.rows|)
    ensures r.analysis.preview == t.rows[..|r.analysis.preview|]
  {
    Analyzed(path, TableAnalysis(|t.rows|, |t.columns|, t.columns, Prefix(t.rows, PreviewRows)))
  }

  /** Fails at once on an unsupported extension, without loading anything;
      otherwise reports the loaded table or the loader's error. */
  function AnalyzeData(path: string, load: DataFormat -> LoadOutcome): (r: ToolResult)
    ensures FormatOf(path) == Unsupported ==> r == Failure(UnsupportedFormat)
    ensures FormatOf(path) != Unsupported ==>
              (Succeeded(r) <==> load(FormatOf(path)).Loaded?)
    ensures FormatOf(path) != Unsupported && load(FormatOf(path)).LoadRaised? ==>
              r == AnalysisFailure(path, Raised(load(FormatOf(path)).message))
    ensures FormatOf(path) != Unsupported && load(FormatOf(path)).Loaded? ==>
              r == TableReport(path, load(FormatOf(path)).table)
  {
    var format := FormatOf(path);
    if format == Unsupported then Failure(UnsupportedFormat)
    else match load(format)
      case Loaded(t) => TableReport(path, t)
      case LoadRaised(m) => AnalysisFailure(path, Raised(m))
  }

  // ---------------------------------------------------------------- registry

  datatype ToolListing = ToolListing(name: string, description: string)

  ghost predicate NoDuplicates(s: seq<string>)
  {
    forall i, j :: 0 <= i < j < |s| ==> s[i] != s[j]
  }

  /** A duplicate-free sequence has as many distinct elements as it is long. */
  lemma {:induction false} DistinctCount(s: seq<string>)
    requires NoDuplicates(s)
    ensures |set x | x in s| == |s|
  {
    if s != [] {
      var init := s[..|s| - 1];
      var last := s[|s| - 1];
      DistinctCount(init);
      assert (set x | x in s) == (set x | x in init) + {last} by {
        assert s == init + [last];
      }
      assert last !in init;
    }
  }

  /** The four built-in tools have four different names. */
  lemma DefaultToolsDistinct()
    ensures |DefaultTools| == 4 && NoDuplicates(Names(DefaultTools))
  {
  }

  class ToolBox {
    var tools: map<string, Tool>
    var order: seq<string>

    /** `order` lists each registered name once, in first-registration order,
        and every tool is registered under its own name. */
    ghost predicate Valid()
      reads this
    {
      && (forall name :: name in tools <==> name in order)
      && NoDuplicates(order)
      && (forall name :: name in tools ==> tools[name].name == name)
    }

    /** A registry holding the four built-in tools. */
    constructor ()
      ensures Valid()
      ensures order == Names(DefaultTools)
      ensures forall i :: 0 <= i < |DefaultTools| ==> tools[DefaultTools[i].name] == DefaultTools[i]
    {
      tools := map[];
      order := [];
      new;
      DefaultToolsDistinct();
      RegisterDefaultTools(DefaultTools);
    }

    /** Registers the given tools one after the other into an empty registry;
        the constructor passes the four built-in tools. */
    method RegisterDefaultTools(ts: seq<Tool>)
      requires tools == map[] && order == []
      requires NoDuplicates(Names(ts))
      modifies this
      ensures Valid()
      ensures order == Names(ts)
      ensures forall i :: 0 <= i < |ts| ==> tools[ts[i].name] == ts[i]
    {
      var names := Names(ts);
      for k := 0 to |ts|
        invariant Valid()
        invariant order == names[..k]
        invariant forall i :: 0 <= i < k ==> tools[ts[i].name] == ts[i]
      {
        assert names[k] !in names[..k];
        RegisterTool(ts[k]);
        assert names[..k + 1] == names[..k] + [names[k]];
      }
    }

    /** Registers a tool under its name, replacing any tool of that name; a
        replaced tool keeps its place in the order. */
    method RegisterTool(tool: Tool)
      modifies this
      ensures tools == old(tools)[tool.name := tool]
      ensures order == if tool.name in old(tools) then old(order) else old(order) + [tool.name]
      ensures old(Valid()) ==> Valid()
    {
      if tool.name !in tools {
        order := order + [tool.name];
      }
      tools := tools[tool.name := tool];
    }

    function GetTool(name: string): (r: Option<Tool>)
      reads this
      ensures r.Some? <==> name in tools
      ensures r.Some? ==> r.value == tools[name]
    {
      if name in tools then Some(tools[name]) else None
    }

    /** One name/description pair per registered tool, in registration order. */
    function ListTools(): (r: seq<ToolListing>)
      reads this
      requires Valid()
      ensures |r| == |order|
      ensures forall i :: 0 <= i < |r| ==>
                (r[i].name == order[i] && order[i] in tools && r[i].description == tools[order[i]].description)
    {
      seq(|order|, i requires 0 <= i < |order| reads this requires Valid() =>
        ToolListing(tools[order[i]].name, tools[order[i]].description))
    }

    /** Runs a registered tool; a missing tool and a tool that raises both
        become failure records, so the call itself never raises. */
    function ExecuteTool(name: string, run: Tool -> Invocation): (r: ToolResult)
      reads this
      ensures name !in tools ==> r == Failure(ToolNotFound(name))
      ensures name in tools && run(tools[name]).Threw? ==> r == Failure(Raised(run(tools[name]).message))
      ensures name in tools && run(tools[name]).Returned? ==> r == run(tools[name]).result
    {
      match GetTool(name)
      case None => Failure(ToolNotFound(name))
      case Some(tool) =>
        match run(tool)
        case Returned(result) => result
        case Threw(message) => Failure(Raised(message))
    }
  }

  /** The listing names every registered tool exactly once: it is as long
      as the registry and a name is listed iff it is registered. */
  lemma ListingCoversRegistry(box: ToolBox)
    requires box.Valid()
    ensures |box.ListTools()| == |box.tools|
    ensures forall name :: name in box.tools <==> exists i :: 0 <= i < |box.ListTools()| && box.ListTools()[i].name == name
  {
    var r := box.ListTools();
    DistinctCount(box.order);
    assert box.tools.Keys == set x | x in box.order;
    forall name | name in box.tools ensures exists i :: 0 <= i < |r| && r[i].name == name {
      var i :| 0 <= i < |box.order| && box.order[i] == name;
      assert r[i].name == name;
    }
  }

  /** Registering grows the registry by one exactly when the name is new. */
  lemma RegisterGrowth(tools: map<string, Tool>, tool: Tool)
    ensures |tools[tool.name := tool]| == |tools| + (if tool.name in tools then 0 else 1)
  {
    if tool.name in tools {
      assert tools[tool.name := tool].Keys == tools.Keys;
    } else {
      assert tools[tool.name := tool].Keys == tools.Keys + {tool.name};
    }
  }

  /** The failure record for a missing tool names that tool. */
  lemma NotFoundNamesTool(name: string)
    ensures Contains(ErrorMessage(ToolNotFound(name)), name)
    ensures !Succeeded(Failure(ToolNotFound(name)))
  {
    assert OccursAt(ErrorMessage(ToolNotFound(name)), name, 8);
  }
}
