/** backend/queueWorker.js: the BullMQ worker on "pdf-processing" turns each
    queue item into a `python worker.py` command, runs it, and settles the job
    from the command's outcome. The shell and the file system are inputs. */
module QueueWorker {
  import opened Common
  import opened Text
  import opened Shell
  import opened Sheets
  import opened JobServer
  import opened InvoiceWorker

  /** The queue name the worker consumes (queueWorker.js:16), the one the server
      fills (server.js:27). */
  const WorkerQueue: string := QueueName

  /** `const { jobId, filePath } = job.data`: a batch payload has no
      `filePath`, so the destructuring yields `undefined`. */
  function FilePathOf(p: Payload): Option<string> {
    if p.SinglePayload? then Some(p.filePath) else None
  }

  /** `${v}` in a template literal: `undefined` is spelled out. */
  function Interpolate(v: Option<string>): string {
    if v.Some? then v.value else "undefined"
  }

  /** `results/result-${jobId}.xlsx`. */
  function OutputPath(jobId: string): (out: string)
    ensures |out| == |jobId| + 20
    ensures out[..15] == "results/result-" && out[15..|out| - 5] == jobId && out[|out| - 5..] == ".xlsx"
  {
    "results/result-" + jobId + ".xlsx"
  }

  /** Distinct jobs write distinct workbooks. */
  lemma OutputPathInjective(a: string, b: string)
    ensures OutputPath(a) == OutputPath(b) <==> a == b
  {
    if OutputPath(a) == OutputPath(b) {
      var p := OutputPath(a);
      assert a == p[15..|p| - 5];
    }
  }

  /** The output path of a timestamp id needs no quoting. */
  lemma OutputPathQuotable(jobId: string)
    requires AllDigits(jobId)
    ensures DoubleQuoteSafe(OutputPath(jobId))
  {
    var p := OutputPath(jobId);
    assert forall j :: 15 <= j < 15 + |jobId| ==> p[j] == jobId[j - 15];
  }

  /** Line 24 as written: `python worker.py "${filePath}" "${outputExcel}"`. */
  function Command(filePath: string, outputExcel: string): string {
    "python worker.py \"" + filePath + "\" \"" + outputExcel + "\""
  }

  /** The fixed prefix `python worker.py ` yields the interpreter and the script. */
  lemma LexPrefix(rest: string)
    ensures Lex("python worker.py " + rest, None, []) == Lex(rest, None, ["python", "worker.py"])
  {
    var a, b := "python", "worker.py";
    assert "python worker.py " == a + " " + b + " ";
    LowerWordPlain(a);
    LowerWordPlain(b);
    LexTwoPlain(a, b, rest);
  }

  /** Two double-quoted arguments separated by a space, after the words in acc. */
  lemma LexTwoDoubleQuoted(x: string, y: string, acc: seq<string>)
    requires DoubleQuoteSafe(x) && DoubleQuoteSafe(y)
    ensures Lex("\"" + x + "\"" + (" " + ("\"" + y + "\"" + "")), None, acc) == Some(acc + [x, y])
  {
    var tail := "\"" + y + "\"" + "";
    LexDoubleQuoted(x, " " + tail, None, acc);
    assert OrEmpty(None) + x == x;
    LexSpace(tail, Some(x), acc);
    LexDoubleQuoted(y, "", None, acc + [x]);
    assert OrEmpty(None) + y == y;
    assert acc + [x] + [y] == acc + [x, y];
  }

  /** When neither path holds `"`, `$`, a backquote or a backslash, the shell
      runs the script with the input first and the output second, which is the
      order `sys.argv[1]`, `sys.argv[2]` reads them. */
  lemma CommandWords(filePath: string, outputExcel: string)
    requires DoubleQuoteSafe(filePath) && DoubleQuoteSafe(outputExcel)
    ensures Words(Command(filePath, outputExcel)) == Some(["python", "worker.py", filePath, outputExcel])
  {
    var rest := "\"" + filePath + "\"" + (" " + ("\"" + outputExcel + "\"" + ""));
    assert "python worker.py \"" == "python worker.py " + "\"";
    assert "\" \"" == "\"" + " " + "\"";
    assert Command(filePath, outputExcel) == "python worker.py " + rest;
    LexPrefix(rest);
    LexTwoDoubleQuoted(filePath, outputExcel, ["python", "worker.py"]);
    assert ["python", "worker.py"] + [filePath, outputExcel] == ["python", "worker.py", filePath, outputExcel];
  }

  /** A client file name with a double quote, stored as `uploads/1-a" "b.pdf`,
      reaches the script as two arguments: the worker opens `uploads/1-a` and
      would write its workbook to `b.pdf`. */
  lemma QuoteInFileNameSplitsArgument()
    ensures Words(Command("uploads/1-a\" \"b.pdf", "results/result-1.xlsx"))
         == Some(["python", "worker.py", "uploads/1-a", "b.pdf", "results/result-1.xlsx"])
  {
    var x, y, out := "uploads/1-a", "b.pdf", "results/result-1.xlsx";
    var q := "\"";
    var second := q + y + q + (" " + (q + out + q + ""));
    CommandWithQuote(x, y, out);
    assert "uploads/1-a\" \"b.pdf" == x + "\" \"" + y;
    assert DoubleQuoteSafe(x) && DoubleQuoteSafe(y) && DoubleQuoteSafe(out);
    LexPrefix(q + x + q + (" " + second));
    LexDoubleQuoted(x, " " + second, None, ["python", "worker.py"]);
    assert OrEmpty(None) + x == x;
    LexSpace(second, Some(x), ["python", "worker.py"]);
    assert ["python", "worker.py"] + Finish(Some(x)) == ["python", "worker.py", x];
    LexTwoDoubleQuoted(y, out, ["python", "worker.py", x]);
    assert ["python", "worker.py", x] + [y, out] == ["python", "worker.py", x, y, out];
  }

  /** The command for a path `x" "y` is the command for two quoted paths. */
  lemma CommandWithQuote(x: string, y: string, out: string)
    ensures Command(x + "\" \"" + y, out)
         == "python worker.py " + ("\"" + x + "\"" + (" " + ("\"" + y + "\"" + (" " + ("\"" + out + "\"" + "")))))
  {
    var q := "\"";
    assert "python worker.py \"" == "python worker.py " + q;
    assert "\" \"" == q + " " + q;
  }

  /** Line 24 with each argument single-quoted, so that no character of a
      client's file name can reach the shell. */
  function SafeCommand(filePath: string, outputExcel: string): string {
    "python worker.py " + SingleQuote(filePath) + " " + SingleQuote(outputExcel)
  }

  /** Whatever the paths hold, the quoted command runs the script on exactly
      the input and the output, in that order. */
  lemma SafeCommandWords(filePath: string, outputExcel: string)
    ensures Words(SafeCommand(filePath, outputExcel)) == Some(["python", "worker.py", filePath, outputExcel])
  {
    var acc := ["python", "worker.py"];
    var tail := SingleQuote(outputExcel) + "";
    var rest := SingleQuote(filePath) + (" " + tail);
    assert SafeCommand(filePath, outputExcel) == "python worker.py " + rest;
    LexPrefix(rest);
    LexSingleQuote(filePath, " " + tail, None, acc);
    assert OrEmpty(None) + filePath == filePath;
    LexSpace(tail, Some(filePath), acc);
    LexSingleQuote(outputExcel, "", None, acc + [filePath]);
    assert OrEmpty(None) + outputExcel == outputExcel;
    assert acc + [filePath] + [outputExcel] == ["python", "worker.py", filePath, outputExcel];
  }

  /** For the paths the written command handles, the quoted one runs the same words. */
  lemma SafeCommandAgrees(filePath: string, outputExcel: string)
    requires DoubleQuoteSafe(filePath) && DoubleQuoteSafe(outputExcel)
    ensures Words(SafeCommand(filePath, outputExcel)) == Words(Command(filePath, outputExcel))
  {
    CommandWords(filePath, outputExcel);
    SafeCommandWords(filePath, outputExcel);
  }

  /** A batch item is run as a one-file command on the path "undefined". */
  lemma BatchItemRunsAsSingle(jobId: string, filePaths: seq<string>)
    requires AllDigits(jobId)
    ensures Words(Command(Interpolate(FilePathOf(BatchPayload(jobId, filePaths))), OutputPath(jobId)))
         == Some(["python", "worker.py", "undefined", OutputPath(jobId)])
  {
    OutputPathQuotable(jobId);
    assert DoubleQuoteSafe("undefined");
    CommandWords("undefined", OutputPath(jobId));
  }

  /** With the quoted command too, a batch item runs on the path "undefined". */
  lemma SafeBatchItemRunsAsSingle(jobId: string, filePaths: seq<string>)
    ensures Words(SafeCommand(Interpolate(FilePathOf(BatchPayload(jobId, filePaths))), OutputPath(jobId)))
         == Some(["python", "worker.py", "undefined", OutputPath(jobId)])
  {
    SafeCommandWords("undefined", OutputPath(jobId));
  }

  /** The command line 24 runs for a queued upload whose stored path holds no
      `"`, `$`, backquote or backslash ends with the worker saving the workbook
      the handler reports, exactly when extraction succeeds. */
  lemma HandledUploadSavesReportedWorkbook(jobId: string, filePath: string, open: string -> Option<seq<Page>>)
    requires AllDigits(jobId) && DoubleQuoteSafe(filePath)
    ensures Words(Command(filePath, OutputPath(jobId))) == Some(["python", "worker.py", filePath, OutputPath(jobId)])
    ensures var run := CliResult(["worker.py", filePath, OutputPath(jobId)], open);
      && (run.exitCode == 0 <==> ExtractResult(filePath, open).Ok?)
      && (run.exitCode == 0 ==> run.saved == Some(SingleWorkbook(OutputPath(jobId), ExtractResult(filePath, open).value)))
  {
    OutputPathQuotable(jobId);
    CommandWords(filePath, OutputPath(jobId));
  }

  /** With the quoted command the same holds for every stored path. */
  lemma SafeHandledUploadSavesReportedWorkbook(jobId: string, filePath: string, open: string -> Option<seq<Page>>)
    ensures Words(SafeCommand(filePath, OutputPath(jobId))) == Some(["python", "worker.py", filePath, OutputPath(jobId)])
    ensures var run := CliResult(["worker.py", filePath, OutputPath(jobId)], open);
      && (run.exitCode == 0 <==> ExtractResult(filePath, open).Ok?)
      && (run.exitCode == 0 ==> run.saved == Some(SingleWorkbook(OutputPath(jobId), ExtractResult(filePath, open).value)))
  {
    SafeCommandWords(filePath, OutputPath(jobId));
  }

  /** Why `exec` reports failure: the command exited non-zero, or never ran. */
  datatype ExecError = NonZeroExit(code: int) | NotStarted

  /** What `exec(cmd, callback)` passes to its callback. */
  datatype ExecOutcome =
    | ExecOk(stdout: string)
    | ExecFailed(error: ExecError, stderr: string)

  /** How the handler's promise settles. */
  datatype Settlement = Resolved(excel: string) | Rejected(error: ExecError)

  /** The settlement together with the line appended to worker-log.txt, if any. */
  datatype Decision = Decision(settlement: Settlement, logLine: Option<string>)

  /** Lines 26-37: an error rejects with that error and logs nothing; success
      logs the job and resolves with the output path. */
  function Settle(jobId: string, outputExcel: string, outcome: ExecOutcome): (d: Decision)
    ensures d.settlement.Rejected? <==> d.logLine.None?
    ensures outcome.ExecFailed? ==> d.settlement == Rejected(outcome.error)
    ensures outcome.ExecOk? ==> d.settlement == Resolved(outputExcel)
  {
    match outcome
    case ExecFailed(error, _) => Decision(Rejected(error), None)
    case ExecOk(_) => Decision(Resolved(outputExcel), Some("Completed " + jobId + "\n"))
  }

  /** The log line names the job: reading it back gives the job id. */
  lemma LogLineNamesJob(jobId: string, outputExcel: string, stdout: string)
    ensures var line := Settle(jobId, outputExcel, ExecOk(stdout)).logLine.value;
      |line| == |jobId| + 11 && line[..10] == "Completed " && line[10..|line| - 1] == jobId
      && line[|line| - 1] == '\n'
  {
    var line := "Completed " + jobId + "\n";
    assert line[10..|line| - 1] == jobId;
  }

  /** The worker; `log` is the contents of worker-log.txt. */
  class QueueHandler {
    var log: string

    constructor (log0: string)
      ensures log == log0
    {
      log := log0;
    }

    /** The handler of lines 17-40 for one queue item, with `exec` standing for
        `child_process.exec`. It reads only `jobId` and `filePath` of the data;
        the item's name plays no part. */
    method Handle(item: QueueItem, exec: string -> ExecOutcome) returns (settlement: Settlement)
      modifies this
      ensures var outputExcel := OutputPath(item.data.jobId);
        var cmd := SafeCommand(Interpolate(FilePathOf(item.data)), outputExcel);
        var d := Settle(item.data.jobId, outputExcel, exec(cmd));
        && settlement == d.settlement
        && log == old(log) + OrEmpty(d.logLine)
    {
      var jobId := item.data.jobId;
      var filePath := FilePathOf(item.data);
      var outputExcel := OutputPath(jobId);
      var cmd := SafeCommand(Interpolate(filePath), outputExcel);
      var outcome := exec(cmd);
      var d := Settle(jobId, outputExcel, outcome);
      if d.logLine.Some? {
        log := log + d.logLine.value;
      }
      settlement := d.settlement;
    }
  }
}
