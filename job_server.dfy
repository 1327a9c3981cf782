/** backend/server.js: the upload handlers register a job in the in-memory
    `jobs` object and put it on the "pdf-processing" queue; the status handler
    reads the registry back. Express, multer, Redis and the clock are inputs. */
module JobServer {
  import opened Common
  import opened Text

  /** The queue both the server and the worker open. */
  const QueueName: string := "pdf-processing"

  /** A registry entry. */
  datatype Job = Job(status: string, resultPath: Option<string>)

  /** The only entry the code ever writes: `{status: "queued", resultPath: null}`. */
  const NewJob: Job := Job("queued", None)

  /** A file multer has stored: the client's file name and where it now lives. */
  datatype UploadedFile = UploadedFile(originalName: string, path: string)

  /** The data of a queue item, one shape per upload route. */
  datatype Payload =
    | SinglePayload(jobId: string, filePath: string)
    | BatchPayload(jobId: string, filePaths: seq<string>)

  /** `pdfQueue.add(name, data)`. */
  datatype QueueItem = QueueItem(name: string, data: Payload)

  /** A JSON reply body. In a status body a `None` status is a property that
      `JSON.stringify` leaves out, and a `None` URL is `null`. */
  datatype Body =
    | ErrorBody(error: string)
    | JobBody(jobId: string)
    | BatchBody(jobId: string, count: nat)
    | StatusBody(status: Option<string>, resultUrl: Option<string>)

  datatype Reply = Reply(code: nat, body: Body)

  /** What the server does to the outside world, in order. */
  datatype Event =
    | Registered(jobId: string)
    | Enqueued(item: QueueItem)
    | Replied(reply: Reply)

  /** `Date.now().toString()`: the millisecond timestamp in decimal. */
  function JobId(now: nat): (id: string)
    ensures id != [] && AllDigits(id)
  {
    NatToStringRoundTrip(now);
    NatToString(now)
  }

  /** Two uploads get the same id exactly when they happen in the same millisecond. */
  lemma JobIdCollision(a: nat, b: nat)
    ensures JobId(a) == JobId(b) <==> a == b
  {
    NatToStringInjective(a, b);
  }

  /** multer's `filename` callback: `${Date.now()}-${file.originalname}`. */
  function StoredFileName(storedAt: nat, originalName: string): string {
    NatToString(storedAt) + "-" + originalName
  }

  /** The position of the first '-' at or after i, or |s| when there is none. */
  function DashFrom(s: string, i: nat): (k: nat)
    requires i <= |s|
    ensures i <= k <= |s|
    ensures k < |s| ==> s[k] == '-'
    ensures forall j :: i <= j < k ==> s[j] != '-'
    decreases |s| - i
  {
    if i == |s| || s[i] == '-' then i else DashFrom(s, i + 1)
  }

  /** Splits a stored name back into its timestamp and the client's name. */
  function ParseStoredName(name: string): Option<(nat, string)> {
    var k := DashFrom(name, 0);
    if k == |name| || k == 0 || !AllDigits(name[..k]) then None
    else Some((ParseDigits(name[..k]), name[k + 1..]))
  }

  /** A stored file name is exactly the timestamp, a dash and the client's
      name: reading it back recovers both, whatever the client's name holds. */
  lemma StoredFileNameRoundTrip(storedAt: nat, originalName: string)
    ensures ParseStoredName(StoredFileName(storedAt, originalName)) == Some((storedAt, originalName))
  {
    var d := NatToString(storedAt);
    NatToStringRoundTrip(storedAt);
    var s := StoredFileName(storedAt, originalName);
    assert forall j :: 0 <= j < |d| ==> s[j] == d[j];
    assert s[|d|] == '-';
    var k := DashFrom(s, 0);
    assert forall j :: 0 <= j < |d| ==> s[j] != '-';
    assert k == |d|;
    assert s[..k] == d;
    assert s[k + 1..] == originalName;
  }

  /** Where multer puts a stored file: `path.join(destination, filename)`. */
  function StoredPath(uploadDir: string, name: string): string {
    uploadDir + "/" + name
  }

  /** The start of the suffix after the last '/' in s[..n]. */
  function LastSlashEnd(s: string, n: nat): (k: nat)
    requires n <= |s|
    ensures k <= n
    ensures k > 0 ==> s[k - 1] == '/'
    ensures forall j :: k <= j < n ==> s[j] != '/'
  {
    if n == 0 then 0
    else if s[n - 1] == '/' then n
    else LastSlashEnd(s, n - 1)
  }

  /** `path.basename(p)`, taken as the suffix after the last '/'. */
  function Basename(p: string): (b: string)
    ensures forall j :: 0 <= j < |b| ==> b[j] != '/'
    ensures exists k :: 0 <= k <= |p| && b == p[k..] && (k == 0 || p[k - 1] == '/')
  {
    var k := LastSlashEnd(p, |p|);
    assert forall j :: 0 <= j < |p[k..]| ==> p[k..][j] == p[k + j];
    p[k..]
  }

  /** The base name of a file stored in a directory is its own name. */
  lemma BasenameOfStoredPath(dir: string, name: string)
    requires forall j :: 0 <= j < |name| ==> name[j] != '/'
    ensures Basename(StoredPath(dir, name)) == name
  {
    var p := StoredPath(dir, name);
    var k := LastSlashEnd(p, |p|);
    assert p[|dir|] == '/';
    assert forall j :: 0 <= j < |name| ==> p[|dir| + 1 + j] == name[j];
    assert forall j :: |dir| + 1 <= j < |p| ==> p[j] != '/';
    assert k == |dir| + 1;
    assert p[k..] == name;
  }

  /** `job.resultPath ? `/results/${path.basename(job.resultPath)}` : null`:
      null for a missing or empty path, which JavaScript treats as false. */
  function ResultUrl(resultPath: Option<string>): (url: Option<string>)
    ensures url.Some? <==> resultPath.Some? && resultPath.value != ""
    ensures url.Some? ==> url.value == "/results/" + Basename(resultPath.value)
  {
    if resultPath.Some? && resultPath.value != "" then Some("/results/" + Basename(resultPath.value)) else None
  }

  /** The properties every plain JavaScript object inherits from
      `Object.prototype`; `jobs[key]` finds them even though no job was stored. */
  const PrototypeNames: set<string> := {
    "constructor", "__proto__", "__defineGetter__", "__defineSetter__",
    "__lookupGetter__", "__lookupSetter__", "hasOwnProperty", "isPrototypeOf",
    "propertyIsEnumerable", "toString", "toLocaleString", "valueOf"
  }

  /** The status handler's reply for `/api/status/<key>`. A stored job gives its
      status and URL; a key that is neither stored nor inherited gives the
      error; an inherited property is a truthy object or function without
      `status` or `resultPath`, so it gives a body with only a null URL. */
  function StatusReply(jobs: map<string, Job>, key: string): (reply: Reply)
    ensures reply.code == 200
    ensures key in jobs ==> reply.body == StatusBody(Some(jobs[key].status), ResultUrl(jobs[key].resultPath))
    ensures key !in jobs ==> (reply.body == ErrorBody("Invalid job ID") <==> key !in PrototypeNames)
    ensures key !in jobs && key in PrototypeNames ==> reply.body == StatusBody(None, None)
  {
    if key in jobs then
      var job := jobs[key];
      Reply(200, StatusBody(Some(job.status), ResultUrl(job.resultPath)))
    else if key in PrototypeNames then Reply(200, StatusBody(None, None))
    else Reply(200, ErrorBody("Invalid job ID"))
  }

  /** No stored job can shadow an inherited property: ids are digit strings. */
  lemma PrototypeNamesAreNotIds(key: string)
    requires key != [] && AllDigits(key)
    ensures key !in PrototypeNames
  {
    assert IsDigit(key[0]);
  }

  /** The registry as the code keeps it: every key is a timestamp id and every
      entry is the fresh `queued` entry. */
  predicate RegistryOk(jobs: map<string, Job>) {
    forall key :: key in jobs ==> key != [] && AllDigits(key) && jobs[key] == NewJob
  }

  /** Because nothing ever updates an entry, every status reply is either the
      error, the body of an inherited property, or `queued` with a null URL. */
  lemma StatusAlwaysQueued(jobs: map<string, Job>, key: string)
    requires RegistryOk(jobs)
    ensures var r := StatusReply(jobs, key);
      || r.body == ErrorBody("Invalid job ID")
      || r.body == StatusBody(None, None)
      || r.body == StatusBody(Some("queued"), None)
    ensures key in jobs ==> StatusReply(jobs, key).body == StatusBody(Some("queued"), None)
    ensures key != [] && AllDigits(key) && key !in jobs ==> StatusReply(jobs, key).body == ErrorBody("Invalid job ID")
  {
    if key != [] && AllDigits(key) {
      PrototypeNamesAreNotIds(key);
    }
  }

  /** The `/status/constructor` request gets no error even though no job of that
      name was ever created. */
  lemma InheritedKeyCounterexample()
    ensures StatusReply(map[], "constructor") == Reply(200, StatusBody(None, None))
  {
  }

  /** The paths of the stored files, in upload order (`req.files.map(f => f.path)`). */
  function FilePaths(files: seq<UploadedFile>): (paths: seq<string>)
    ensures |paths| == |files|
    ensures forall k :: 0 <= k < |files| ==> paths[k] == files[k].path
  {
    seq(|files|, k requires 0 <= k < |files| => files[k].path)
  }

  /** The Express application's state: the registry, the queue and what it did. */
  class Server {
    var jobs: map<string, Job>
    var queue: seq<QueueItem>
    var events: seq<Event>

    predicate Valid()
      reads this
    {
      RegistryOk(jobs)
    }

    /** A freshly started server knows no job. */
    constructor ()
      ensures Valid() && jobs == map[] && queue == [] && events == []
    {
      jobs := map[];
      queue := [];
      events := [];
    }

    /** Lines 64 and 85: `jobs[jobId] = {status: "queued", resultPath: null}`,
        overwriting an entry with the same id. */
    method Register(jobId: string)
      requires Valid() && jobId != [] && AllDigits(jobId)
      modifies this
      ensures Valid()
      ensures jobs == old(jobs)[jobId := NewJob] && queue == old(queue)
      ensures events == old(events) + [Registered(jobId)]
    {
      jobs := jobs[jobId := NewJob];
      events := events + [Registered(jobId)];
    }

    /** `await pdfQueue.add(...)`: when Redis accepts the item it is queued;
        when it refuses, the awaiting handler ends with a rejection. */
    method Enqueue(item: QueueItem, accepted: bool)
      modifies this
      ensures jobs == old(jobs)
      ensures queue == if accepted then old(queue) + [item] else old(queue)
      ensures events == if accepted then old(events) + [Enqueued(item)] else old(events)
    {
      if accepted {
        queue := queue + [item];
        events := events + [Enqueued(item)];
      }
    }

    /** `res.json(...)` or `res.status(code).json(...)`. */
    method Send(reply: Reply)
      modifies this
      ensures jobs == old(jobs) && queue == old(queue)
      ensures events == old(events) + [Replied(reply)]
    {
      events := events + [Replied(reply)];
    }

    /** `POST /api/upload`, lines 59-72. `file` is what multer stored, `now`
        the clock reading for the id, `accepted` whether the queue took the
        item; a refused item leaves the request without a reply and the
        `queued` entry in place. */
    method UploadSingle(file: Option<UploadedFile>, now: nat, accepted: bool) returns (reply: Option<Reply>)
      requires Valid()
      modifies this
      ensures Valid()
      ensures file.None? ==>
                && reply == Some(Reply(400, ErrorBody("No file uploaded")))
                && jobs == old(jobs) && queue == old(queue)
                && events == old(events) + [Replied(reply.value)]
      ensures file.Some? ==>
                var id := JobId(now);
                var item := QueueItem("processPDF", SinglePayload(id, file.value.path));
                && jobs == old(jobs)[id := NewJob]
                && (accepted ==>
                      && reply == Some(Reply(200, JobBody(id)))
                      && queue == old(queue) + [item]
                      && events == old(events) + [Registered(id), Enqueued(item), Replied(reply.value)])
                && (!accepted ==>
                      && reply == None && queue == old(queue)
                      && events == old(events) + [Registered(id)])
    {
      if file.None? {
        reply := Some(Reply(400, ErrorBody("No file uploaded")));
        Send(reply.value);
        return;
      }
      var jobId := JobId(now);
      Register(jobId);
      var item := QueueItem("processPDF", SinglePayload(jobId, file.value.path));
      Enqueue(item, accepted);
      if !accepted {
        return None;
      }
      reply := Some(Reply(200, JobBody(jobId)));
      Send(reply.value);
    }

    /** `POST /api/upload-batch`, lines 77-96, with the same inputs as
        `UploadSingle`; `files` is `None` when the form had no file field. */
    method UploadBatch(files: Option<seq<UploadedFile>>, now: nat, accepted: bool) returns (reply: Option<Reply>)
      requires Valid()
      modifies this
      ensures Valid()
      ensures (files.None? || files.value == []) ==>
                && reply == Some(Reply(400, ErrorBody("No files uploaded")))
                && jobs == old(jobs) && queue == old(queue)
                && events == old(events) + [Replied(reply.value)]
      ensures files.Some? && files.value != [] ==>
                var id := JobId(now);
                var paths := FilePaths(files.value);
                var item := QueueItem("processPDFBatch", BatchPayload(id, paths));
                && jobs == old(jobs)[id := NewJob]
                && (accepted ==>
                      && reply == Some(Reply(200, BatchBody(id, |files.value|)))
                      && queue == old(queue) + [item]
                      && events == old(events) + [Registered(id), Enqueued(item), Replied(reply.value)])
                && (!accepted ==>
                      && reply == None && queue == old(queue)
                      && events == old(events) + [Registered(id)])
    {
      if files.None? || |files.value| == 0 {
        reply := Some(Reply(400, ErrorBody("No files uploaded")));
        Send(reply.value);
        return;
      }
      var jobId := JobId(now);
      var filePaths := FilePaths(files.value);
      Register(jobId);
      var item := QueueItem("processPDFBatch", BatchPayload(jobId, filePaths));
      Enqueue(item, accepted);
      if !accepted {
        return None;
      }
      reply := Some(Reply(200, BatchBody(jobId, |filePaths|)));
      Send(reply.value);
    }

    /** `GET /api/status/:jobId`, lines 101-111: a lookup that changes nothing
        but the record of replies. */
    method Status(key: string) returns (reply: Reply)
      modifies this
      ensures reply == StatusReply(old(jobs), key)
      ensures jobs == old(jobs) && queue == old(queue)
      ensures events == old(events) + [Replied(reply)]
    {
      reply := StatusReply(jobs, key);
      Send(reply);
    }
  }
}
