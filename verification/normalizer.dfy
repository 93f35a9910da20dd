/** The pure mapping from a raw task (plus the kind string it was fetched under and,
    on the creation path, the balance read before submission) to a canonical Job. */
module Normalizer {
  import opened Wrappers
  import opened JobTypes
  import opened MeshyTypes

  /** JavaScript truthiness of an optional string: present and non-empty. */
  predicate Truthy(s: Option<string>) {
    s.Some? && s.value != ""
  }

  /** The declared correspondence between job states and raw status values. */
  function RawStatusName(s: Status): string {
    match s
    case Pending => "PENDING"
    case InProgress => "IN_PROGRESS"
    case Succeeded => "SUCCEEDED"
    case Failed => "FAILED"
    case Canceled => "CANCELED"
  }

  /** Status translation: each declared raw value maps to the state it names, and any
      other string (the vocabulary is treated as open) falls back to pending. */
  function NormalizeStatus(raw: string): (r: Status)
    ensures raw in RawStatusVocabulary ==> RawStatusName(r) == raw
    ensures raw !in RawStatusVocabulary ==> r == Pending
  {
    if raw == "IN_PROGRESS" then InProgress
    else if raw == "SUCCEEDED" then Succeeded
    else if raw == "FAILED" then Failed
    else if raw == "CANCELED" then Canceled
    else Pending
  }

  /** Output assembly: start from empty models and textures plus the thumbnail, then
      overlay what the raw task carries. */
  function NormalizeOutputs(task: RawTask): (r: Outputs)
    ensures r.models == task.modelUrls.GetOr(map[])
    ensures r.thumbnail == task.thumbnailUrl
    ensures task.textureUrls.Some? && |task.textureUrls.value| > 0 ==> r.textures == task.textureUrls.value[0]
    ensures task.textureUrls.None? || task.textureUrls.value == [] ==> r.textures == map[]
    ensures r.rigging.Some? <==> task.result.Some? && Truthy(task.result.value.riggedCharacterFbxUrl)
    ensures r.rigging.Some? ==>
      r.rigging.value.riggedCharacterFbxUrl == task.result.value.riggedCharacterFbxUrl &&
      r.rigging.value.riggedCharacterGlbUrl == task.result.value.riggedCharacterGlbUrl
    ensures r.animation.Some? <==> task.result.Some? && Truthy(task.result.value.animationFbxUrl)
    ensures r.animation.Some? ==>
      r.animation.value.animationFbxUrl == task.result.value.animationFbxUrl &&
      r.animation.value.animationGlbUrl == task.result.value.animationGlbUrl
  {
    var initial := Outputs(map[], map[], task.thumbnailUrl, None, None);
    var withModels := if task.modelUrls.Some? then initial.(models := task.modelUrls.value) else initial;
    var withTextures :=
      if task.textureUrls.Some? && |task.textureUrls.value| > 0
      then withModels.(textures := task.textureUrls.value[0])
      else withModels;
    match task.result
    case None => withTextures
    case Some(res) =>
      var withRigging :=
        if Truthy(res.riggedCharacterFbxUrl)
        then withTextures.(rigging := Some(Rigging(res.riggedCharacterFbxUrl, res.riggedCharacterGlbUrl)))
        else withTextures;
      if Truthy(res.animationFbxUrl)
      then withRigging.(animation := Some(Animation(res.animationGlbUrl, res.animationFbxUrl)))
      else withRigging
  }

  /** The error message, whenever the raw task carries one, whatever its status. */
  function ErrorMessage(task: RawTask): (r: Option<string>)
    ensures r.Some? <==> task.taskError.Some?
    ensures r.Some? ==> r.value == task.taskError.value.message
  {
    match task.taskError
    case None => None
    case Some(e) => Some(e.message)
  }

  /** The normalizer. Identity and timestamps pass through, the provider tag is constant,
      the type is the kind argument, inputs are never reconstructed, and only `before`
      of the credits is ever set, to the balance argument. */
  function Normalize(task: RawTask, kind: string, balanceBefore: Option<int>): (r: Job)
    ensures r.id == task.id && r.progress == task.progress
    ensures r.createdAt == task.createdAt && r.startedAt == task.startedAt && r.finishedAt == task.finishedAt
    ensures r.provider == ProviderName
    ensures r.jobType == kind
    ensures r.status == NormalizeStatus(task.status)
    ensures r.outputs == NormalizeOutputs(task)
    ensures r.inputs == map[]
    ensures r.credits.before == balanceBefore && r.credits.after.None? && r.credits.delta.None?
    ensures r.error == ErrorMessage(task)
  {
    Job(
      id := task.id,
      provider := ProviderName,
      jobType := kind,
      status := NormalizeStatus(task.status),
      progress := task.progress,
      createdAt := task.createdAt,
      startedAt := task.startedAt,
      finishedAt := task.finishedAt,
      credits := Credits(before := balanceBefore, after := None, delta := None),
      inputs := map[],
      outputs := NormalizeOutputs(task),
      error := ErrorMessage(task))
  }

  /** Every declared raw status round-trips through the translation. */
  lemma StatusRoundTrip(s: Status)
    ensures NormalizeStatus(RawStatusName(s)) == s
  {
  }

  /** Pending is reached exactly from the raw PENDING and from unknown strings. */
  lemma PendingIsTheFallback(raw: string)
    ensures NormalizeStatus(raw) == Pending <==> raw == "PENDING" || raw !in RawStatusVocabulary
  {
  }

  /** Texture sets after the first never affect the Job. */
  lemma LaterTextureSetsIgnored(task: RawTask, first: UrlMap, rest1: seq<UrlMap>, rest2: seq<UrlMap>, kind: string, balance: Option<int>)
    ensures Normalize(task.(textureUrls := Some([first] + rest1)), kind, balance)
         == Normalize(task.(textureUrls := Some([first] + rest2)), kind, balance)
  {
  }

  /** Raw fields the normalizer never reads: the raw type, the expiry, the basic
      animations and the processed URLs of the result. */
  lemma UnreadFieldsIgnored(task: RawTask, other: RawTask, kind: string, balance: Option<int>)
    requires other.id == task.id && other.status == task.status && other.progress == task.progress
    requires other.createdAt == task.createdAt && other.startedAt == task.startedAt && other.finishedAt == task.finishedAt
    requires other.taskError == task.taskError && other.modelUrls == task.modelUrls
    requires other.textureUrls == task.textureUrls && other.thumbnailUrl == task.thumbnailUrl
    requires other.result.Some? <==> task.result.Some?
    requires other.result.Some? ==>
      other.result.value.riggedCharacterFbxUrl == task.result.value.riggedCharacterFbxUrl &&
      other.result.value.riggedCharacterGlbUrl == task.result.value.riggedCharacterGlbUrl &&
      other.result.value.animationFbxUrl == task.result.value.animationFbxUrl &&
      other.result.value.animationGlbUrl == task.result.value.animationGlbUrl
    ensures Normalize(other, kind, balance) == Normalize(task, kind, balance)
  {
  }

  /** A model URL keyed `mtl`, which the Job's declared model formats do not name,
      is still copied. */
  lemma MtlKeyCopied(task: RawTask, kind: string, balance: Option<int>)
    requires task.modelUrls.Some? && "mtl" in task.modelUrls.value
    ensures "mtl" in Normalize(task, kind, balance).outputs.models
    ensures Normalize(task, kind, balance).outputs.models["mtl"] == task.modelUrls.value["mtl"]
  {
  }

  /** A result carrying only the glb rigged character (or an empty fbx URL) yields no rigging. */
  lemma GlbOnlyYieldsNoRigging(task: RawTask, kind: string, balance: Option<int>)
    requires task.result.Some? && task.result.value.riggedCharacterGlbUrl.Some?
    requires task.result.value.riggedCharacterFbxUrl.None? || task.result.value.riggedCharacterFbxUrl == Some("")
    ensures Normalize(task, kind, balance).outputs.rigging.None?
  {
  }

  /** Rigging and animation are independent: a result carrying both fbx URLs yields both. */
  lemma RiggingAndAnimationTogether(task: RawTask, kind: string, balance: Option<int>)
    requires task.result.Some?
    requires Truthy(task.result.value.riggedCharacterFbxUrl) && Truthy(task.result.value.animationFbxUrl)
    ensures Normalize(task, kind, balance).outputs.rigging.Some?
    ensures Normalize(task, kind, balance).outputs.animation.Some?
  {
  }

  /** The error message is copied even when the task succeeded. */
  lemma ErrorCopiedRegardlessOfStatus(task: RawTask, kind: string, balance: Option<int>)
    requires task.taskError.Some? && task.status == "SUCCEEDED"
    ensures Normalize(task, kind, balance).status == Succeeded
    ensures Normalize(task, kind, balance).error == Some(task.taskError.value.message)
  {
  }
}
