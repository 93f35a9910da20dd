/** Kind-to-endpoint resolution across the two API surfaces: the newer surface
    serves text-driven generation, the older one every other kind. */
module Endpoints {
  import opened Wrappers
  import opened JobTypes

  /** The base host every path is resolved against. */
  const ApiHost: string := "https://api.meshy.ai"

  const BalancePath: string := "/openapi/v1/balance"

  /** Lookup accepts every kind string that starts with this prefix. */
  const TextTo3dPrefix: string := "text-to-3d"

  /** The task-by-id path the lookup operation requests, or None for an unknown kind. */
  function TaskPath(kind: string, taskId: string): (r: Option<string>)
    ensures r.Some? <==> Accepted(kind)
  {
    if TextTo3dPrefix <= kind then Some("/openapi/v2/text-to-3d/" + taskId)
    else if kind == "image-to-3d" then Some("/openapi/v1/image-to-3d/" + taskId)
    else if kind == "multi-image-to-3d" then Some("/openapi/v1/multi-image-to-3d/" + taskId)
    else if kind == "remesh" then Some("/openapi/v1/remesh/" + taskId)
    else if kind == "retexture" then Some("/openapi/v1/retexture/" + taskId)
    else if kind == "rig" then Some("/openapi/v1/rigging/" + taskId)
    else if kind == "animate" then Some("/openapi/v1/animations/" + taskId)
    else None
  }

  /** The path the streaming operation subscribes to, or None for an unknown kind. */
  function StreamPath(kind: string, taskId: string): (r: Option<string>)
    ensures r.Some? <==> Accepted(kind)
  {
    if TextTo3dPrefix <= kind then Some("/openapi/v2/text-to-3d/" + taskId + "/stream")
    else if kind == "image-to-3d" then Some("/openapi/v1/image-to-3d/" + taskId + "/stream")
    else if kind == "multi-image-to-3d" then Some("/openapi/v1/multi-image-to-3d/" + taskId + "/stream")
    else if kind == "remesh" then Some("/openapi/v1/remesh/" + taskId + "/stream")
    else if kind == "retexture" then Some("/openapi/v1/retexture/" + taskId + "/stream")
    else if kind == "rig" then Some("/openapi/v1/rigging/" + taskId + "/stream")
    else if kind == "animate" then Some("/openapi/v1/animations/" + taskId + "/stream")
    else None
  }

  /** Reference table: the collection path each kind lives under. */
  function Collection(k: Kind): string {
    match k
    case TextTo3d => "/openapi/v2/text-to-3d"
    case ImageTo3d => "/openapi/v1/image-to-3d"
    case MultiImageTo3d => "/openapi/v1/multi-image-to-3d"
    case Remesh => "/openapi/v1/remesh"
    case Retexture => "/openapi/v1/retexture"
    case Rig => "/openapi/v1/rigging"
    case Animate => "/openapi/v1/animations"
  }

  /** The API surface version: the newer one for text-driven generation only. */
  function ApiVersion(k: Kind): string {
    if k == TextTo3d then "v2" else "v1"
  }

  /** Every collection sits under its kind's API version. */
  lemma CollectionUnderVersion(k: Kind)
    ensures "/openapi/" + ApiVersion(k) + "/" <= Collection(k)
  {
  }

  /** The kind strings lookup and streaming accept: the seven names and any string
      starting with the text-to-3d prefix. */
  predicate Accepted(kind: string) {
    TextTo3dPrefix <= kind || ParseKind(kind).Some?
  }

  /** The only declared kind name carrying the text-to-3d prefix is text-to-3d itself. */
  lemma PrefixedKindIsTextTo3d(kind: string)
    requires TextTo3dPrefix <= kind && ParseKind(kind).Some?
    ensures ParseKind(kind) == Some(TextTo3d)
  {
    assert kind[0] == TextTo3dPrefix[0] == 't';
  }

  /** The kind an accepted string is served as. */
  function ServedAs(kind: string): (k: Kind)
    requires Accepted(kind)
    ensures TextTo3dPrefix <= kind ==> k == TextTo3d
    ensures ParseKind(kind).Some? ==> k == ParseKind(kind).value
  {
    if TextTo3dPrefix <= kind then
      if ParseKind(kind).Some? then PrefixedKindIsTextTo3d(kind); TextTo3d else TextTo3d
    else ParseKind(kind).value
  }

  /** Only the text-to-3d name carries the text-to-3d prefix. */
  lemma OnlyTextTo3dIsPrefixed(k: Kind)
    ensures TextTo3dPrefix <= KindName(k) <==> k == TextTo3d
  {
    if k != TextTo3d {
      assert KindName(k)[0] != TextTo3dPrefix[0];
    }
  }

  /** The reference table agrees with the lookup chain on every declared kind. */
  lemma CollectionOfKind(k: Kind, taskId: string)
    ensures TaskPath(KindName(k), taskId) == Some(Collection(k) + "/" + taskId)
  {
    OnlyTextTo3dIsPrefixed(k);
    match k
    case TextTo3d => assert Collection(k) + "/" == "/openapi/v2/text-to-3d/";
    case ImageTo3d => assert Collection(k) + "/" == "/openapi/v1/image-to-3d/";
    case MultiImageTo3d => assert Collection(k) + "/" == "/openapi/v1/multi-image-to-3d/";
    case Remesh => assert Collection(k) + "/" == "/openapi/v1/remesh/";
    case Retexture => assert Collection(k) + "/" == "/openapi/v1/retexture/";
    case Rig => assert Collection(k) + "/" == "/openapi/v1/rigging/";
    case Animate => assert Collection(k) + "/" == "/openapi/v1/animations/";
  }

  /** Lookup succeeds exactly on the accepted kinds, and then requests the collection
      path from the reference table followed by the task id. */
  lemma TaskPathMatchesTable(kind: string, taskId: string)
    ensures TaskPath(kind, taskId).Some? <==> Accepted(kind)
    ensures Accepted(kind) ==> TaskPath(kind, taskId) == Some(Collection(ServedAs(kind)) + "/" + taskId)
  {
    if TextTo3dPrefix <= kind {
      CollectionOfKind(TextTo3d, taskId);
    } else if ParseKind(kind).Some? {
      CollectionOfKind(ParseKind(kind).value, taskId);
    }
  }

  /** Streaming accepts exactly the kinds lookup accepts, at the lookup path plus `/stream`. */
  lemma StreamPathExtendsTaskPath(kind: string, taskId: string)
    ensures StreamPath(kind, taskId).Some? <==> TaskPath(kind, taskId).Some?
    ensures StreamPath(kind, taskId).Some? ==> StreamPath(kind, taskId).value == TaskPath(kind, taskId).value + "/stream"
  {
  }

  /** The eight creation operations of the client; text-to-3d has two modes. */
  datatype CreateOp =
    | CreatePreview | CreateRefine | CreateImageTo3d | CreateMultiImageTo3d
    | CreateRemesh | CreateRetexture | CreateRigging | CreateAnimation

  /** The job kind an operation creates. */
  function OpKind(op: CreateOp): Kind {
    match op
    case CreatePreview => TextTo3d
    case CreateRefine => TextTo3d
    case CreateImageTo3d => ImageTo3d
    case CreateMultiImageTo3d => MultiImageTo3d
    case CreateRemesh => Remesh
    case CreateRetexture => Retexture
    case CreateRigging => Rig
    case CreateAnimation => Animate
  }

  /** The path an operation POSTs to. */
  function CreatePath(op: CreateOp): (r: string)
    ensures r == Collection(OpKind(op))
  {
    match op
    case CreatePreview => "/openapi/v2/text-to-3d"
    case CreateRefine => "/openapi/v2/text-to-3d"
    case CreateImageTo3d => "/openapi/v1/image-to-3d"
    case CreateMultiImageTo3d => "/openapi/v1/multi-image-to-3d"
    case CreateRemesh => "/openapi/v1/remesh"
    case CreateRetexture => "/openapi/v1/retexture"
    case CreateRigging => "/openapi/v1/rigging"
    case CreateAnimation => "/openapi/v1/animations"
  }

  /** The body an operation POSTs: the two text-to-3d modes put their `mode` first and
      let the caller's parameters overlay it; the others send the parameters as given. */
  function CreateBody(op: CreateOp, params: Params): (r: Params)
    ensures r.Keys == params.Keys + (if DefaultMode(op).Some? then {"mode"} else {})
    ensures forall key :: key in params ==> r[key] == params[key]
  {
    match op
    case CreatePreview => map["mode" := Str("preview")] + params
    case CreateRefine => map["mode" := Str("refine")] + params
    case _ => params
  }

  /** The mode a text-to-3d operation writes before the overlay. */
  function DefaultMode(op: CreateOp): Option<string> {
    match op
    case CreatePreview => Some("preview")
    case CreateRefine => Some("refine")
    case _ => None
  }

  /** The body keeps every caller parameter verbatim; for text-to-3d it adds `mode`,
      which the operation's own mode fills only when the caller gave none. */
  lemma CreateBodyOverlay(op: CreateOp, params: Params)
    ensures forall key :: key in params ==> key in CreateBody(op, params) && CreateBody(op, params)[key] == params[key]
    ensures DefaultMode(op).None? ==> CreateBody(op, params) == params
    ensures DefaultMode(op).Some? ==> CreateBody(op, params).Keys == params.Keys + {"mode"}
    ensures DefaultMode(op).Some? && "mode" !in params ==> CreateBody(op, params)["mode"] == Str(DefaultMode(op).value)
  {
  }

  /** Preview and refine share one path; every other create path is its kind's lookup
      path with the trailing id segment removed, so the created task is fetched from
      the same collection it was posted to. */
  lemma CreatePathIsLookupStem(op: CreateOp, taskId: string)
    ensures TaskPath(KindName(OpKind(op)), taskId) == Some(CreatePath(op) + "/" + taskId)
  {
    CollectionOfKind(OpKind(op), taskId);
  }
}
