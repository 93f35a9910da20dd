/** The canonical, backend-agnostic entities handed to callers: the Job with its
    closed sets of kinds and statuses, and the CreditBalance snapshot. */
module JobTypes {
  import opened Wrappers

  /** A loosely typed parameter value as it travels in a parameter bag. */
  datatype Value = Str(s: string) | Num(n: real) | Bool(b: bool) | List(items: seq<Value>)

  /** A parameter bag: field name to value. */
  type Params = map<string, Value>

  /** Artifact URLs keyed by format or texture channel. */
  type UrlMap = map<string, string>

  /** The seven job kinds a Job's type is declared to range over. */
  datatype Kind = TextTo3d | ImageTo3d | MultiImageTo3d | Remesh | Retexture | Rig | Animate

  /** The wire name of a kind. */
  function KindName(k: Kind): string {
    match k
    case TextTo3d => "text-to-3d"
    case ImageTo3d => "image-to-3d"
    case MultiImageTo3d => "multi-image-to-3d"
    case Remesh => "remesh"
    case Retexture => "retexture"
    case Rig => "rig"
    case Animate => "animate"
  }

  /** Reads a wire name back into the closed kind set; every other string is rejected. */
  function ParseKind(s: string): (r: Option<Kind>)
    ensures r.Some? ==> KindName(r.value) == s
    ensures r.None? ==> forall k: Kind :: KindName(k) != s
  {
    if s == "text-to-3d" then Some(TextTo3d)
    else if s == "image-to-3d" then Some(ImageTo3d)
    else if s == "multi-image-to-3d" then Some(MultiImageTo3d)
    else if s == "remesh" then Some(Remesh)
    else if s == "retexture" then Some(Retexture)
    else if s == "rig" then Some(Rig)
    else if s == "animate" then Some(Animate)
    else None
  }

  /** The five backend-agnostic job states. */
  datatype Status = Pending | InProgress | Succeeded | Failed | Canceled {

    /** No further transition happens from a terminal state. */
    predicate IsTerminal() {
      Succeeded? || Failed? || Canceled?
    }
  }

  /** The wire-name table of the status union: the lowercase string a Job's status is
      serialized as. */
  function StatusName(s: Status): string {
    match s
    case Pending => "pending"
    case InProgress => "in-progress"
    case Succeeded => "succeeded"
    case Failed => "failed"
    case Canceled => "canceled"
  }

  /** The single provider tag this backend writes into every Job. */
  const ProviderName: string := "meshy"

  /** Balance observed before submission; `after` and `delta` are reserved and never set. */
  datatype Credits = Credits(before: Option<int>, after: Option<int>, delta: Option<int>)

  datatype Rigging = Rigging(riggedCharacterFbxUrl: Option<string>, riggedCharacterGlbUrl: Option<string>)

  datatype Animation = Animation(animationGlbUrl: Option<string>, animationFbxUrl: Option<string>)

  /** The kind-independent bag of produced artifacts; models and textures are always present. */
  datatype Outputs = Outputs(
    models: UrlMap,
    textures: UrlMap,
    thumbnail: Option<string>,
    rigging: Option<Rigging>,
    animation: Option<Animation>)

  /** The canonical asynchronous work item. `jobType` is the source's `type` field. */
  datatype Job = Job(
    id: string,
    provider: string,
    jobType: string,
    status: Status,
    progress: int,
    createdAt: int,
    startedAt: Option<int>,
    finishedAt: Option<int>,
    credits: Credits,
    inputs: Params,
    outputs: Outputs,
    error: Option<string>)

  /** True when the Job's type is one of the seven declared kinds. */
  predicate HasDeclaredKind(j: Job) {
    ParseKind(j.jobType).Some?
  }

  /** A point-in-time balance snapshot. */
  datatype CreditBalance = CreditBalance(balance: int, timestamp: int)

  /** Every declared kind name reads back as itself. */
  lemma KindNameRoundTrip(k: Kind)
    ensures ParseKind(KindName(k)) == Some(k)
  {
  }

  /** Distinct statuses have distinct wire names. */
  lemma StatusNameInjective(a: Status, b: Status)
    ensures StatusName(a) == StatusName(b) ==> a == b
  {
  }
}
