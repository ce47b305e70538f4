// How an agent takes a job, runs it and reports on it
// (agent/internal/client/client.go). Downloads, the command, HTTP exchanges and
// uploads are steps whose outcome the world decides.
module AgentClient {
  import opened Options
  import opened JobModel
  import opened Messages
  import opened Texts
  import opened Utf8
  import InputCache
  import Placeholders
  import Protocol

  // ---- Strings of the program are byte strings: one char per byte.

  function Raw(s: string): Bytes {
    seq(|s|, i requires 0 <= i < |s| => if s[i] as int < 256 then s[i] as int else 0x3F)
  }

  function Str(b: Bytes): string {
    seq(|b|, i requires 0 <= i < |b| => b[i] as char)
  }

  lemma RawStr(b: Bytes)
    ensures Raw(Str(b)) == b
  {}

  function Clean(s: string): string {
    Str(Sanitize(Raw(s)))
  }

  function Shorten(s: string, n: nat): string {
    Str(Truncate(Raw(s), n))
  }

  // What a report carries of raw output.
  function Shown(raw: string): string {
    Clean(Shorten(Clean(raw), OUTPUT_LIMIT))
  }

  predicate Ascii(s: string) {
    forall c | c in s :: c as int < 128
  }

  lemma CleanAscii(s: string)
    requires Ascii(s)
    ensures Clean(s) == s
  {
    hide ValidString, Sanitize;
    assert forall i | 0 <= i < |s| :: s[i] in s;
    AsciiValid(Raw(s));
    SanitizeValid(Raw(s));
  }

  // The texts of the agent's fixed reports pass unchanged.
  lemma FixedTexts()
    ensures Clean("Processing job") == "Processing job"
    ensures Clean(Protocol.TURNED_AWAY.why) == Protocol.TURNED_AWAY.why
  {
    hide Clean;
    assert Ascii("Processing job");
    CleanAscii("Processing job");
    assert Ascii("Agent cannot accept job ");
    assert Ascii("(paused or at capacity)");
    CleanAscii("Agent cannot accept job " + "(paused or at capacity)");
  }

  lemma CleanEmpty()
    ensures Clean("") == ""
  {
    CleanAscii("");
  }

  lemma ShownEmpty()
    ensures Shown("") == ""
  {
    hide Sanitize;
    CleanEmpty();
    assert Shorten("", OUTPUT_LIMIT) == "";
  }

  lemma CleanNonempty(s: string)
    ensures Clean(s) != "" <==> s != ""
  {
    hide Sanitize;
    SanitizeLength(Raw(s));
  }

  // Reported output is always well-formed UTF-8 and short.
  lemma ShownFits(raw: string)
    ensures WellFormed(Raw(Shown(raw))) && |Shown(raw)| <= 10021
    ensures Clean(Shown(raw)) == Shown(raw)
  {
    hide Sanitize, Truncate, WellFormed;
    RawStr(Sanitize(Raw(raw)));
    RawStr(Truncate(Sanitize(Raw(raw)), OUTPUT_LIMIT));
    RawStr(Reported(Raw(raw), OUTPUT_LIMIT));
    ReportedStreams(Raw(raw));
    SanitizeMeetsRfc3629(Truncate(Sanitize(Raw(raw)), OUTPUT_LIMIT));
  }

  // Text that is short and well-formed is reported as it is.
  lemma ShownExact(raw: string)
    requires WellFormed(Raw(raw)) && |raw| <= 10_000 && forall i | 0 <= i < |raw| :: raw[i] as int < 256
    ensures Shown(raw) == raw
  {
    hide Sanitize, WellFormed;
    SanitizeMeetsRfc3629(Raw(raw));
    assert Str(Raw(raw)) == raw;
    assert Clean(raw) == raw;
    assert Truncate(Raw(raw), OUTPUT_LIMIT) == Raw(raw);
  }

  // ---- The outcomes of a job's external steps; None is success, Some an error text.

  type Fault = Option<string>

  // The command leaves an output file or not, whether it fails or not.
  datatype Command = Command(fault: Fault, stdout: string, stderr: string, outputFile: Option<string>)

  datatype Exchange = Exchange(
    fetch: Fault, open: Fault, part: Fault, write: Fault, close: Fault, payload: Fault,
    request: Fault, send: Fault, read: Fault, status: int, response: string)

  datatype Surroundings = Surroundings(download: Fault, command: Command, exchange: Exchange, upload: Fault)

  const MAX_RESPONSE := 10 * 1024 * 1024

  // A run command as processJob sees it.
  datatype CommandResult = CommandResult(output: string, stdout: string, stderr: string, hasOutputFile: bool)

  // ---- When a job succeeds, stated from its message and its surroundings.

  predicate WantsInput(m: JobAssigned) {
    m.inputDownload != NoAccess && m.inputKey != ""
  }

  predicate HasOutput(w: Surroundings) {
    w.command.outputFile.Some? && w.command.outputFile.value != ""
  }

  predicate CommandRuns(m: JobAssigned, w: Surroundings) {
    m.command != "" && (WantsInput(m) ==> m.inputDownload.Presigned? && w.download.None?)
  }

  predicate CommandSucceeds(m: JobAssigned, w: Surroundings) {
    && CommandRuns(m, w) && w.command.fault.None?
    && (HasOutput(w) ==> m.outputUpload.Presigned? && w.upload.None?)
  }

  predicate SendsFile(m: JobAssigned) {
    m.mode == LocalFileMode && WantsInput(m)
  }

  predicate ForwardAnswered(m: JobAssigned, w: Surroundings) {
    var x := w.exchange;
    && m.forward.Some? && TrimSpace(m.forward.value.url) != ""
    && (m.inputDownload.NoAccess? || m.inputDownload.Presigned?)
    && (if SendsFile(m) then x.fetch.None? && x.open.None? && x.part.None? && x.write.None? && x.close.None?
        else m.forward.value.body == "" && WantsInput(m) ==> x.payload.None?)
    && x.request.None? && x.send.None? && x.read.None?
    && |x.response| <= MAX_RESPONSE && 200 <= x.status < 300
  }

  predicate ForwardUploads(m: JobAssigned, w: Surroundings) {
    w.exchange.response != "" && m.outputUpload != NoAccess
  }

  predicate ForwardSucceeds(m: JobAssigned, w: Surroundings) {
    ForwardAnswered(m, w) && (ForwardUploads(m, w) ==> m.outputUpload.Presigned? && w.upload.None?)
  }

  predicate Succeeds(m: JobAssigned, w: Surroundings) {
    if m.forwardHttp then ForwardSucceeds(m, w) else CommandSucceeds(m, w)
  }

  // The one upload a job makes, if it makes one that succeeds: where to, and what.
  function Uploaded(m: JobAssigned, w: Surroundings): seq<(Url, string)> {
    if !Succeeds(m, w) then []
    else if m.forwardHttp then (if ForwardUploads(m, w) then [(m.outputUpload.url, w.exchange.response)] else [])
    else if HasOutput(w) then [(m.outputUpload.url, w.command.outputFile.value)]
    else []
  }

  function InputFile(m: JobAssigned): string {
    if WantsInput(m) then "job_" + m.id + "_input" + InputCache.Extension(m.inputKey) else ""
  }

  function OutputFile(m: JobAssigned): string {
    "job_" + m.id + "_output"
  }

  // The shell commands a job runs: one with its placeholders filled in, or none.
  function Executed(m: JobAssigned, w: Surroundings): seq<string> {
    if !m.forwardHttp && CommandRuns(m, w) then [Placeholders.Expand(m.command, InputFile(m), OutputFile(m))] else []
  }

  // The last report of a job.
  ghost predicate Concludes(m: JobAssigned, w: Surroundings, r: JobStatus) {
    && r.id == m.id && r.attempt == m.attempt
    && r.status == (if Succeeds(m, w) then STATUS_SUCCEEDED else STATUS_FAILED)
    && (r.message == "" <==> Succeeds(m, w))
    && r.outputKey == (if Uploaded(m, w) != [] then m.outputKey else "")
    && r.stdout == Stdout(m, w) && r.stderr == Stderr(m, w)
  }

  function Stdout(m: JobAssigned, w: Surroundings): string {
    if m.forwardHttp then (if ForwardSucceeds(m, w) then Shown(w.exchange.response) else "")
    else if CommandRuns(m, w) then Shown(w.command.stdout)
    else ""
  }

  function Stderr(m: JobAssigned, w: Surroundings): string {
    if !m.forwardHttp && CommandRuns(m, w) then Shown(w.command.stderr) else ""
  }

  predicate OnWire(m: JobAssigned) {
    -0x8000_0000 <= m.attempt < 0x8000_0000
  }

  lemma ConcludesAsPlanned(m: JobAssigned, w: Surroundings, r: JobStatus) returns (e: Protocol.Ending)
    requires Concludes(m, w, r)
    ensures r == Protocol.FinalReport(m, e)
    ensures e.Success? <==> Succeeds(m, w)
    ensures e.Success? && e.uploaded ==> Uploaded(m, w) != []
  {
    e := if Succeeds(m, w) then Protocol.Success(Uploaded(m, w) != [], r.stdout, r.stderr)
         else Protocol.Failure(r.message, r.stdout, r.stderr);
  }

  class Client {
    const maxConcurrency: int
    var paused: bool
    var runningJobs: int
    var signal: bool             // requestJobChan holds a signal
    var reports: seq<JobStatus>  // sent to the server, in order
    var uploads: seq<(Url, string)>
    var executed: seq<string>    // command lines given to the shell
    var files: set<string>       // temporary files

    constructor (maxConcurrency: int)
      ensures this.maxConcurrency == maxConcurrency && !paused && runningJobs == 0 && !signal
      ensures reports == [] && uploads == [] && executed == [] && files == {}
    {
      this.maxConcurrency := maxConcurrency;
      paused, runningJobs, signal := false, 0, false;
      reports, uploads, executed, files := [], [], [], {};
    }

    predicate CanAcceptJob()
      reads this
    {
      !paused && runningJobs < maxConcurrency
    }

    method IncrementRunningJobs()
      modifies `runningJobs
      ensures runningJobs == old(runningJobs) + 1
    {
      runningJobs := runningJobs + 1;
    }

    method DecrementRunningJobs()
      modifies `runningJobs
      ensures runningJobs == if old(runningJobs) > 0 then old(runningJobs) - 1 else old(runningJobs)
    {
      if runningJobs > 0 { runningJobs := runningJobs - 1; }
    }

    method ReportJobStatusWithOutput(id: JobId, attempt: int, status: int, message: string, outputKey: string,
        stdout: string, stderr: string)
      modifies `reports
      ensures reports == old(reports)
              + [JobStatus(id, Int32(attempt), status, Clean(message), outputKey, Clean(stdout), Clean(stderr))]
    {
      reports := reports
        + [JobStatus(id, Int32(attempt), status, Clean(message), outputKey, Clean(stdout), Clean(stderr))];
    }

    method ReportJobStatus(id: JobId, attempt: int, status: int, message: string, outputKey: string)
      modifies `reports
      ensures reports == old(reports) + [JobStatus(id, Int32(attempt), status, Clean(message), outputKey, "", "")]
    {
      CleanAscii("");
      ReportJobStatusWithOutput(id, attempt, status, message, outputKey, "", "");
    }

    // The command has run; its output is sanitised and cut.
    method ExecuteCommand(command: string, inputFile: string, outputFile: string, w: Surroundings)
      returns (result: Option<CommandResult>, error: Fault)
      modifies `files, `executed
      ensures command == "" ==> result.None? && error.Some? && files == old(files) && executed == old(executed)
      ensures command != "" ==>
                && result.Some? && error == w.command.fault
                && executed == old(executed) + [Placeholders.Expand(command, inputFile, outputFile)]
                && files == old(files) + (if w.command.outputFile.Some? then {outputFile} else {})
                && result.value.stdout == Shorten(Clean(w.command.stdout), OUTPUT_LIMIT)
                && result.value.stderr == Shorten(Clean(w.command.stderr), OUTPUT_LIMIT)
                && (error.None? ==> result.value.hasOutputFile == w.command.outputFile.Some?)
                && (error.None? && w.command.outputFile.Some? ==> result.value.output == w.command.outputFile.value)
    {
      if command == "" { return None, Some("command is required"); }
      var line := Placeholders.ReplaceAll(command, Placeholders.IN, inputFile);
      line := Placeholders.ReplaceAll(line, Placeholders.OUT, outputFile);
      executed := executed + [line];
      if w.command.outputFile.Some? { files := files + {outputFile}; }
      var stdout, stderr := Clean(w.command.stdout), Clean(w.command.stderr);
      if w.command.fault.Some? {
        return Some(CommandResult("", Shorten(stdout, OUTPUT_LIMIT), Shorten(stderr, OUTPUT_LIMIT), false)),
               w.command.fault;
      }
      var output := if w.command.outputFile.Some? then w.command.outputFile.value else w.command.stdout;
      var cut := CommandResult(
        output, Shorten(stdout, OUTPUT_LIMIT), Shorten(stderr, OUTPUT_LIMIT), w.command.outputFile.Some?);
      return Some(cut), None;
    }

    method UploadOutput(url: Url, data: string, w: Surroundings) returns (error: Fault)
      modifies `uploads
      ensures error == w.upload
      ensures uploads == if error.None? then old(uploads) + [(url, data)] else old(uploads)
    {
      if w.upload.Some? { return w.upload; }
      uploads := uploads + [(url, data)];
      return None;
    }

    method Fail(m: JobAssigned, why: string)
      requires OnWire(m) && why != ""
      modifies `reports
      ensures |reports| == |old(reports)| + 1 && reports[..|old(reports)|] == old(reports)
      ensures var r := reports[|old(reports)|];
        r == JobStatus(m.id, m.attempt, STATUS_FAILED, r.message, "", "", "") && r.message != ""
    {
      hide Clean;
      Int32Exact(m.attempt);
      CleanNonempty(why);
      ReportJobStatus(m.id, m.attempt, STATUS_FAILED, why, "");
    }

    method FailWithOutput(m: JobAssigned, why: string, result: CommandResult)
      requires OnWire(m) && why != ""
      modifies `reports
      ensures |reports| == |old(reports)| + 1 && reports[..|old(reports)|] == old(reports)
      ensures var r := reports[|old(reports)|];
        && r == JobStatus(m.id, m.attempt, STATUS_FAILED, r.message, "", Clean(result.stdout), Clean(result.stderr))
        && r.message != ""
    {
      hide Clean;
      Int32Exact(m.attempt);
      CleanNonempty(why);
      ReportJobStatusWithOutput(m.id, m.attempt, STATUS_FAILED, why, "", result.stdout, result.stderr);
    }

    // Runs the command, uploads what it left in its output file, and reports.
    method RunAndReport(m: JobAssigned, w: Surroundings)
      requires OnWire(m)
      modifies `reports, `uploads, `executed, `files
      ensures |reports| == |old(reports)| + 1 && reports[..|old(reports)|] == old(reports)
      ensures !m.forwardHttp && CommandRuns(m, w) ==>
                && Concludes(m, w, reports[|old(reports)|])
                && uploads == old(uploads) + Uploaded(m, w) && executed == old(executed) + Executed(m, w)
      ensures files <= old(files) + {OutputFile(m)}
    {
      hide Clean, Shorten, Placeholders.Expand;
      Int32Exact(m.attempt);
      CleanEmpty();
      var result, error := ExecuteCommand(m.command, InputFile(m), OutputFile(m), w);
      if error.Some? {
        if result.Some? {
          FailWithOutput(m, "Command execution failed: " + error.value, result.value);
        } else {
          Fail(m, "Command execution failed: " + error.value);
        }
        return;
      }
      var outputKey := "";
      if result.value.hasOutputFile && result.value.output != "" {
        if m.outputUpload.NoAccess? { FailWithOutput(m, "Missing output_upload", result.value); return; }
        if m.outputUpload.Sts? { FailWithOutput(m, "STS not supported", result.value); return; }
        if !m.outputUpload.Presigned? { FailWithOutput(m, "Invalid output_upload", result.value); return; }
        var fault := UploadOutput(m.outputUpload.url, result.value.output, w);
        if fault.Some? { FailWithOutput(m, "Upload failed: " + fault.value, result.value); return; }
        outputKey := m.outputKey;
      }
      ReportJobStatusWithOutput(
        m.id, m.attempt, STATUS_SUCCEEDED, "", outputKey, result.value.stdout, result.value.stderr);
    }

    // A job that is a shell command.
    method ProcessCommandJob(m: JobAssigned, w: Surroundings)
      requires OnWire(m) && !m.forwardHttp
      modifies `reports, `uploads, `executed, `files
      ensures |reports| == |old(reports)| + 1 && reports[..|old(reports)|] == old(reports)
      ensures Concludes(m, w, reports[|old(reports)|])
      ensures uploads == old(uploads) + Uploaded(m, w) && executed == old(executed) + Executed(m, w)
      ensures files <= old(files)
    {
      if m.command == "" { Fail(m, "Command is required"); return; }
      if WantsInput(m) {
        if m.inputDownload.Sts? { Fail(m, "STS not supported"); return; }
        if !m.inputDownload.Presigned? { Fail(m, "Invalid input_download"); return; }
        if w.download.Some? { Fail(m, "Download failed: " + w.download.value); return; }
        files := files + {InputFile(m)};
      }
      RunAndReport(m, w);
      files := files - {OutputFile(m)};
      files := files - {InputFile(m)};
    }

    function PresignedUrl(access: Access, what: string): (r: (Option<Url>, Fault))
      ensures r.1.None? <==> access.NoAccess? || access.Presigned?
      ensures r.0 == if access.Presigned? then Some(access.url) else None
      ensures r.1.Some? ==> r.1.value != ""
    {
      if access.NoAccess? then (None, None)
      else if access.Presigned? then (Some(access.url), None)
      else if access.Sts? then (None, Some(what + " STS not supported"))
      else (None, Some("invalid " + what))
    }

    // Builds the body of the forwarded request: a multipart form with the cached input
    // file, the given body, or a JSON object that names the input. An error text says why not.
    method BuildBody(m: JobAssigned, body: string, inputUrl: Option<Url>, w: Surroundings) returns (error: Fault)
      ensures error.Some? ==> error.value != ""
      ensures error.None? <==>
              if m.mode == LocalFileMode && inputUrl.Some?
              then w.exchange.fetch.None? && w.exchange.open.None? && w.exchange.part.None? && w.exchange.write.None?
                   && w.exchange.close.None?
              else body == "" && inputUrl.Some? ==> w.exchange.payload.None?
    {
      var x := w.exchange;
      if m.mode == LocalFileMode && inputUrl.Some? {
        if x.fetch.Some? { return Some("Download failed: " + x.fetch.value); }
        if x.open.Some? { return Some("Open input failed: " + x.open.value); }
        if x.part.Some? { return Some("Create form file failed: " + x.part.value); }
        if x.write.Some? { return Some("Write form file failed: " + x.write.value); }
        if x.close.Some? { return Some("Finalize multipart failed: " + x.close.value); }
        return None;
      }
      if body == "" && inputUrl.Some? {
        if x.payload.Some? { return Some("Marshal payload failed: " + x.payload.value); }
      }
      return None;
    }

    // Sends the request and reads the answer.
    method Exchanged(w: Surroundings) returns (error: Fault)
      ensures error.Some? ==> error.value != ""
      ensures error.None? <==>
              && w.exchange.request.None? && w.exchange.send.None? && w.exchange.read.None?
              && |w.exchange.response| <= MAX_RESPONSE && 200 <= w.exchange.status < 300
    {
      var x := w.exchange;
      if x.request.Some? { return Some("Create request failed: " + x.request.value); }
      if x.send.Some? { return Some("Forward request failed: " + x.send.value); }
      if x.read.Some? { return Some("Read response failed: " + x.read.value); }
      if |x.response| > MAX_RESPONSE { return Some("Response body too large"); }
      if x.status < 200 || x.status >= 300 {
        var message := "Forward HTTP returned status " + OutputPaths.Itoa(x.status);
        if x.response != "" { message := message + ": " + Shorten(Clean(x.response), 2000); }
        return Some(message);
      }
      return None;
    }

    // A job that is an HTTP request.
    method ProcessForwardJob(m: JobAssigned, w: Surroundings)
      requires OnWire(m) && m.forwardHttp
      modifies `reports, `uploads
      ensures |reports| == |old(reports)| + 1 && reports[..|old(reports)|] == old(reports)
      ensures Concludes(m, w, reports[|old(reports)|])
      ensures uploads == old(uploads) + Uploaded(m, w)
    {
      hide Clean, Shorten;
      CleanEmpty();
      Int32Exact(m.attempt);
      if m.forward.None? || TrimSpace(m.forward.value.url) == "" { Fail(m, "forward_http.url is required"); return; }
      var input := PresignedUrl(m.inputDownload, "input_download");
      if input.1.Some? { Fail(m, input.1.value); return; }
      var inputUrl := input.0;
      if m.inputKey == "" { inputUrl := None; }
      var error := BuildBody(m, m.forward.value.body, inputUrl, w);
      if error.Some? { Fail(m, error.value); return; }
      error := Exchanged(w);
      if error.Some? { Fail(m, error.value); return; }
      var outputKey := "";
      if w.exchange.response != "" && !m.outputUpload.NoAccess? {
        var output := PresignedUrl(m.outputUpload, "output_upload");
        if output.1.Some? { Fail(m, output.1.value); return; }
        error := UploadOutput(output.0.value, w.exchange.response, w);
        if error.Some? { Fail(m, "Upload failed: " + error.value); return; }
        outputKey := m.outputKey;
      }
      var stdout := "";
      if w.exchange.response != "" { stdout := Shorten(Clean(w.exchange.response), OUTPUT_LIMIT); }
      ShownEmpty();
      ReportJobStatusWithOutput(m.id, m.attempt, STATUS_SUCCEEDED, "", outputKey, stdout, "");
    }

    // The whole life of a worker: exactly two reports, RUNNING and then the outcome;
    // afterwards its temporary files are gone, its slot is free and the request loop is told.
    method ProcessJob(m: JobAssigned, w: Surroundings)
      requires OnWire(m)
      modifies `reports, `uploads, `executed, `files, `runningJobs, `signal
      ensures |reports| == |old(reports)| + 2 && reports[..|old(reports)|] == old(reports)
      ensures reports[|old(reports)|] == Protocol.RunningReport(m)
      ensures Concludes(m, w, reports[|old(reports)| + 1])
      ensures uploads == old(uploads) + Uploaded(m, w) && executed == old(executed) + Executed(m, w)
      // a command job succeeds exactly if all of this went well
      ensures !m.forwardHttp ==>
                (reports[|old(reports)| + 1].status == 3 <==>
                 && m.command != ""
                 && (m.inputDownload != NoAccess && m.inputKey != "" ==>
                       m.inputDownload.Presigned? && w.download == None)
                 && w.command.fault == None
                 && (w.command.outputFile.Some? && w.command.outputFile.value != "" ==>
                       m.outputUpload.Presigned? && w.upload == None))
      // and a forwarded request exactly if all of this did
      ensures m.forwardHttp ==>
                var x := w.exchange; var hasInput := m.inputDownload != NoAccess && m.inputKey != "";
                (reports[|old(reports)| + 1].status == 3 <==>
                 && m.forward.Some? && TrimSpace(m.forward.value.url) != ""
                 && (m.inputDownload.NoAccess? || m.inputDownload.Presigned?)
                 && (hasInput && m.mode == LocalFileMode ==>
                       x.fetch == x.open == x.part == x.write == x.close == None)
                 && (hasInput && m.mode != LocalFileMode && m.forward.value.body == "" ==> x.payload == None)
                 && x.request == x.send == x.read == None
                 && |x.response| <= 10_485_760 && 200 <= x.status <= 299
                 && (x.response != "" && m.outputUpload != NoAccess ==>
                       m.outputUpload.Presigned? && w.upload == None))
      // any fault makes it FAILED, and is named
      ensures var r := reports[|old(reports)| + 1];
        && r.id == m.id && r.attempt == m.attempt
        && (if r.status == 3 then r.message == "" else r.status == 4 && r.message != "" && r.outputKey == "")
      // the output of what was run is reported as it is shown, stream by stream
      ensures var r := reports[|old(reports)| + 1]; var hasInput := m.inputDownload != NoAccess && m.inputKey != "";
        if m.forwardHttp
        then r.stdout == (if r.status == 3 then Shown(w.exchange.response) else "") && r.stderr == ""
        else if m.command != "" && (hasInput ==> m.inputDownload.Presigned? && w.download == None)
        then && r.stdout == Shown(w.command.stdout) && r.stderr == Shown(w.command.stderr)
             && executed == old(executed) + [Placeholders.Expand(
                  m.command, if hasInput then "job_" + m.id + "_input" + InputCache.Extension(m.inputKey) else "",
                  "job_" + m.id + "_output")]
        else r.stdout == r.stderr == "" && executed == old(executed)
      // an upload takes the output, and nothing else, to the place meant for it
      ensures var r := reports[|old(reports)| + 1];
        var output :=
          if m.forwardHttp then w.exchange.response
          else if w.command.outputFile.Some? then w.command.outputFile.value else "";
        if r.status == 3 && output != "" && m.outputUpload.Presigned?
        then r.outputKey == m.outputKey && uploads == old(uploads) + [(m.outputUpload.url, output)]
        else r.outputKey == "" && uploads == old(uploads)
      ensures files <= old(files) && signal
      ensures runningJobs == if old(runningJobs) > 0 then old(runningJobs) - 1 else old(runningJobs)
    {
      hide Clean, Shown, Placeholders.Expand;
      Int32Exact(m.attempt);
      FixedTexts();
      ReportJobStatus(m.id, m.attempt, STATUS_RUNNING, "Processing job", "");
      if m.forwardHttp {
        ProcessForwardJob(m, w);
      } else {
        ProcessCommandJob(m, w);
      }
      DecrementRunningJobs();
      signal := true;
    }

    // A JobAssigned arrives; `started` says that a worker is started for it.
    method HandleJobAssigned(m: JobAssigned) returns (started: bool)
      requires OnWire(m)
      modifies `reports, `runningJobs
      ensures started <==> m.id != "" && !paused && old(runningJobs) < maxConcurrency
      ensures runningJobs == old(runningJobs) + if started then 1 else 0
      ensures reports == old(reports)
              + if m.id != "" && !started then [Protocol.FinalReport(m, Protocol.TURNED_AWAY)] else []
    {
      hide Clean;
      if m.id == "" { return false; }
      if !CanAcceptJob() {
        Int32Exact(m.attempt);
        FixedTexts();
        ReportJobStatus(m.id, m.attempt, STATUS_FAILED, Protocol.TURNED_AWAY.why, "");
        return false;
      }
      IncrementRunningJobs();
      return true;
    }
  }
}
