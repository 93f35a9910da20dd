/** The raw task transport. Network effects are recorded as a trace of abstract
    calls; what the backend answers is given as a `Backend` value. */
module Client {
  import opened Wrappers
  import opened JobTypes
  import opened MeshyTypes
  import opened Endpoints
  import Stream

  /** The errors this layer raises. */
  datatype Error =
    | UnsupportedKind(kind: string)
    | UnknownTaskType(kind: string)
    | MissingKind
    | Transport(path: string)

  /** One network effect: a balance read, a POST, a GET, or opening a push connection. */
  datatype Call = ReadBalance | Post(path: string, body: Params) | Fetch(path: string) | Connect(url: string)

  /** What the backend answers: the balance (None when the read fails), the id a POST
      returns (None when the POST fails), and the raw task served at each GET path
      (a path outside the map fails). */
  datatype Backend = Backend(balance: Option<int>, createdId: Option<string>, tasks: map<string, RawTask>)

  /** Reads the credit balance. */
  method GetBalance(backend: Backend) returns (r: Result<int, Error>, trace: seq<Call>)
    ensures trace == [ReadBalance]
    ensures r.Success? <==> backend.balance.Some?
    ensures r.Success? ==> r.value == backend.balance.value
    ensures r.Failure? ==> r.error == Transport(BalancePath)
  {
    trace := [ReadBalance];
    match backend.balance
    case None => r := Failure(Transport(BalancePath));
    case Some(b) => r := Success(b);
  }

  /** Submits a creation request and returns only the task id from the response. */
  method Create(op: CreateOp, params: Params, backend: Backend) returns (r: Result<string, Error>, trace: seq<Call>)
    ensures trace == [Post(CreatePath(op), CreateBody(op, params))]
    ensures r.Success? <==> backend.createdId.Some?
    ensures r.Success? ==> r.value == backend.createdId.value
    ensures r.Failure? ==> r.error == Transport(CreatePath(op))
  {
    var path := CreatePath(op);
    trace := [Post(path, CreateBody(op, params))];
    match backend.createdId
    case None => r := Failure(Transport(path));
    case Some(id) => r := Success(id);
  }

  /** Fetches a raw task by id. An unknown kind raises before any request. */
  method GetTask(taskId: string, kind: string, backend: Backend) returns (r: Result<RawTask, Error>, trace: seq<Call>)
    ensures !Accepted(kind) ==> r == Failure(UnknownTaskType(kind)) && trace == []
    ensures Accepted(kind) ==>
      var path := Collection(ServedAs(kind)) + "/" + taskId;
      && trace == [Fetch(path)]
      && (r.Success? <==> path in backend.tasks)
      && (r.Success? ==> r.value == backend.tasks[path])
      && (r.Failure? ==> r.error == Transport(path))
  {
    TaskPathMatchesTable(kind, taskId);
    var endpoint := TaskPath(kind, taskId);
    if endpoint.None? {
      return Failure(UnknownTaskType(kind)), [];
    }
    var path := endpoint.value;
    trace := [Fetch(path)];
    if path in backend.tasks {
      r := Success(backend.tasks[path]);
    } else {
      r := Failure(Transport(path));
    }
  }

  /** Opens a push subscription. An unknown kind calls the error callback once, opens
      nothing and hands back a subscription that is already closed, so unsubscribing
      from it does nothing. */
  method StreamTask(taskId: string, kind: string) returns (state: Stream.State, immediate: seq<Stream.Delivery>, trace: seq<Call>)
    ensures !Accepted(kind) ==> state == Stream.Closed && immediate == [Stream.Errored] && trace == []
    ensures Accepted(kind) ==>
      && state == Stream.Open
      && immediate == []
      && trace == [Connect(ApiHost + Collection(ServedAs(kind)) + "/" + taskId + "/stream")]
  {
    TaskPathMatchesTable(kind, taskId);
    StreamPathExtendsTaskPath(kind, taskId);
    var endpoint := StreamPath(kind, taskId);
    if endpoint.None? {
      return Stream.Closed, [Stream.Errored], [];
    }
    var c := Collection(ServedAs(kind));
    assert TaskPath(kind, taskId) == Some(c + "/" + taskId);
    assert endpoint.value == c + "/" + taskId + "/stream";
    var url := ApiHost + c + "/" + taskId + "/stream";
    assert url == ApiHost + (c + "/" + taskId + "/stream");
    state, immediate, trace := Stream.Open, [], [Connect(url)];
  }
}
