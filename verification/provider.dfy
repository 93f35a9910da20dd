/** The provider: the four capability operations (balance, create, lookup, stream)
    composed from the transport and the normalizer. */
module Provider {
  import opened Wrappers
  import opened JobTypes
  import opened MeshyTypes
  import opened Normalizer
  import opened Endpoints
  import opened Client
  import Stream

  /** True when the caller asked for refine mode. */
  predicate WantsRefine(params: Params) {
    "mode" in params && params["mode"] == Str("refine")
  }

  /** The kind switch of job creation: the seven declared names select their creation
      operation (text-to-3d by mode); every other string is unsupported. */
  function CreateOpFor(kind: string, params: Params): (r: Option<CreateOp>)
    ensures r.Some? <==> ParseKind(kind).Some?
    ensures r.Some? ==> OpKind(r.value) == ParseKind(kind).value
    ensures kind == "text-to-3d" ==> (r == Some(CreateRefine) <==> WantsRefine(params))
    ensures kind == "text-to-3d" ==> (r == Some(CreatePreview) <==> !WantsRefine(params))
  {
    if kind == "text-to-3d" then
      if WantsRefine(params) then Some(CreateRefine) else Some(CreatePreview)
    else if kind == "image-to-3d" then Some(CreateImageTo3d)
    else if kind == "multi-image-to-3d" then Some(CreateMultiImageTo3d)
    else if kind == "remesh" then Some(CreateRemesh)
    else if kind == "retexture" then Some(CreateRetexture)
    else if kind == "rig" then Some(CreateRigging)
    else if kind == "animate" then Some(CreateAnimation)
    else None
  }

  /** A lookup or stream kind option counts as missing when absent or empty. */
  predicate KindMissing(kind: Option<string>) {
    kind.None? || kind.value == ""
  }

  /** The balance snapshot, stamped with the given clock reading. */
  method GetBalance(backend: Backend, now: int) returns (r: Result<CreditBalance, Error>, trace: seq<Call>)
    ensures trace == [ReadBalance]
    ensures r.Success? <==> backend.balance.Some?
    ensures r.Success? ==> r.value == CreditBalance(backend.balance.value, now)
    ensures r.Failure? ==> r.error == Transport(BalancePath)
  {
    var balance;
    balance, trace := Client.GetBalance(backend);
    if balance.Failure? {
      return Failure(balance.error), trace;
    }
    r := Success(CreditBalance(balance.value, now));
  }

  /** Job creation: one balance read, then exactly one creation request chosen by kind,
      then one fetch of the created task under the same kind string, normalized with
      the balance read first. An unsupported kind raises only after the balance read. */
  method CreateJob(kind: string, params: Params, backend: Backend) returns (r: Result<Job, Error>, trace: seq<Call>)
    ensures |trace| >= 1 && trace[0] == ReadBalance
    ensures backend.balance.None? ==> r == Failure(Transport(BalancePath)) && trace == [ReadBalance]
    ensures backend.balance.Some? && ParseKind(kind).None? ==> r == Failure(UnsupportedKind(kind)) && trace == [ReadBalance]
    ensures backend.balance.Some? && ParseKind(kind).Some? ==>
      var op := CreateOpFor(kind, params).value;
      && |trace| >= 2
      && trace[1] == Post(CreatePath(op), CreateBody(op, params))
      && (backend.createdId.None? ==> r == Failure(Transport(CreatePath(op))) && |trace| == 2)
      && (backend.createdId.Some? ==>
            var path := CreatePath(op) + "/" + backend.createdId.value;
            && trace == [ReadBalance, Post(CreatePath(op), CreateBody(op, params)), Fetch(path)]
            && (r.Success? <==> path in backend.tasks)
            && (r.Success? ==> r.value == Normalize(backend.tasks[path], kind, backend.balance))
            && (r.Failure? ==> r.error == Transport(path)))
    ensures r.Success? ==> HasDeclaredKind(r.value) && r.value.credits.before == backend.balance
  {
    var balance;
    balance, trace := Client.GetBalance(backend);
    if balance.Failure? {
      return Failure(balance.error), trace;
    }
    var op := CreateOpFor(kind, params);
    if op.None? {
      return Failure(UnsupportedKind(kind)), trace;
    }
    var taskId, posted := Client.Create(op.value, params, backend);
    trace := trace + posted;
    if taskId.Failure? {
      return Failure(taskId.error), trace;
    }
    CreatePathIsLookupStem(op.value, taskId.value);
    TaskPathMatchesTable(kind, taskId.value);
    var task, fetched := Client.GetTask(taskId.value, kind, backend);
    trace := trace + fetched;
    if task.Failure? {
      return Failure(task.error), trace;
    }
    r := Success(Normalize(task.value, kind, Some(balance.value)));
  }

  /** Job lookup: a missing kind raises before any fetch; otherwise one fetch under the
      kind, normalized without a balance. */
  method GetJob(jobId: string, kind: Option<string>, backend: Backend) returns (r: Result<Job, Error>, trace: seq<Call>)
    ensures KindMissing(kind) ==> r == Failure(MissingKind) && trace == []
    ensures !KindMissing(kind) && !Accepted(kind.value) ==> r == Failure(UnknownTaskType(kind.value)) && trace == []
    ensures !KindMissing(kind) && Accepted(kind.value) ==>
      var path := Collection(ServedAs(kind.value)) + "/" + jobId;
      && trace == [Fetch(path)]
      && (r.Success? <==> path in backend.tasks)
      && (r.Success? ==> r.value == Normalize(backend.tasks[path], kind.value, None))
      && (r.Failure? ==> r.error == Transport(path))
    ensures r.Success? ==> r.value.credits.before.None?
  {
    if KindMissing(kind) {
      return Failure(MissingKind), [];
    }
    var task;
    task, trace := Client.GetTask(jobId, kind.value, backend);
    if task.Failure? {
      return Failure(task.error), trace;
    }
    r := Success(Normalize(task.value, kind.value, None));
  }

  /** Stream registration: a missing kind raises before any subscription; otherwise the
      transport subscribes, and its error callback only logs. The result is the state
      of the returned subscription. */
  method StreamJob(jobId: string, kind: Option<string>) returns (r: Result<Stream.State, Error>, trace: seq<Call>)
    ensures KindMissing(kind) ==> r == Failure(MissingKind) && trace == []
    ensures !KindMissing(kind) && !Accepted(kind.value) ==> r == Success(Stream.Closed) && trace == []
    ensures !KindMissing(kind) && Accepted(kind.value) ==>
      && r == Success(Stream.Open)
      && trace == [Connect(ApiHost + Collection(ServedAs(kind.value)) + "/" + jobId + "/stream")]
  {
    if KindMissing(kind) {
      return Failure(MissingKind), [];
    }
    var state, logged;
    state, logged, trace := Client.StreamTask(jobId, kind.value);
    r := Success(state);
  }

  /** The Jobs the subscriber's update callback receives for a run of deliveries: each
      forwarded raw task normalized under the stream's kind, without a balance; errors
      go to the log only. */
  function JobsDelivered(kind: string, ds: seq<Stream.Delivery>): (r: seq<Job>)
    ensures |r| == |Stream.Updates(ds)|
    ensures forall i :: 0 <= i < |r| ==> r[i] == Normalize(Stream.Updates(ds)[i], kind, None)
    decreases |ds|
  {
    if ds == [] then []
    else if ds[0].Updated? then [Normalize(ds[0].task, kind, None)] + JobsDelivered(kind, ds[1..])
    else JobsDelivered(kind, ds[1..])
  }

  /** Once a streamed Job is terminal the subscription is closed: it is the last Job the
      subscriber receives, whatever the backend pushes afterwards. */
  lemma TerminalJobIsLastDelivered(kind: string, before: seq<Stream.Event>, task: RawTask, after: seq<Stream.Event>)
    requires forall j :: 0 <= j < |before| ==> !Stream.Closes(before[j])
    requires NormalizeStatus(task.status).IsTerminal()
    ensures Stream.Run(Stream.Open, before + [Stream.Message(task)] + after).state == Stream.Closed
    ensures var jobs := JobsDelivered(kind, Stream.Run(Stream.Open, before + [Stream.Message(task)] + after).deliveries);
      && |jobs| == |Stream.Messages(before)| + 1
      && jobs[|jobs| - 1] == Normalize(task, kind, None)
  {
    Stream.ClosesIffJobTerminal(task, kind);
    Stream.TerminalUpdateIsLast(before, task, after);
    Stream.UpdatesAppend(Stream.EmittedAll(before), [Stream.Updated(task)]);
    Stream.OneUpdatePerMessage(before);
    assert Stream.Updates([Stream.Updated(task)]) == [task];
  }

  /** Every kind creation accepts is a kind lookup and streaming accept, served from
      the collection the creation request was posted to. */
  lemma CreationKindsAreLookupKinds(kind: string, params: Params, taskId: string)
    requires CreateOpFor(kind, params).Some?
    ensures Accepted(kind)
    ensures Collection(ServedAs(kind)) == CreatePath(CreateOpFor(kind, params).value)
  {
    CreatePathIsLookupStem(CreateOpFor(kind, params).value, taskId);
  }

  /** The converse fails: lookup serves a prefixed kind such as `text-to-3d-preview`,
      which creation rejects, and the Job it yields carries that string as its type,
      outside the seven declared kinds. */
  lemma PrefixedLookupKindIsUndeclared(task: RawTask, params: Params)
    ensures Accepted("text-to-3d-preview")
    ensures CreateOpFor("text-to-3d-preview", params).None?
    ensures !HasDeclaredKind(Normalize(task, "text-to-3d-preview", None))
  {
    assert TextTo3dPrefix <= "text-to-3d-preview";
  }
}
