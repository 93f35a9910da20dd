/** The backend's raw task representation, before normalization. */
module MeshyTypes {
  import opened Wrappers
  import opened JobTypes

  /** The five raw status values the backend is declared to send. */
  const RawStatusVocabulary: set<string> := {"PENDING", "IN_PROGRESS", "SUCCEEDED", "FAILED", "CANCELED"}

  datatype TaskError = TaskError(message: string)

  /** The nested result carried by rigging and animation tasks; rigging and animation
      URLs are siblings, so one raw task can carry both. */
  datatype RawResult = RawResult(
    riggedCharacterFbxUrl: Option<string>,
    riggedCharacterGlbUrl: Option<string>,
    basicAnimations: Option<UrlMap>,
    animationGlbUrl: Option<string>,
    animationFbxUrl: Option<string>,
    processedUsdzUrl: Option<string>,
    processedArmatureFbxUrl: Option<string>,
    processedAnimationFpsFbxUrl: Option<string>)

  /** The raw task. `status` is a string: the normalizer treats the vocabulary as open.
      `textureUrls` is an ordered list of texture sets keyed by channel. */
  datatype RawTask = RawTask(
    id: string,
    taskType: string,
    status: string,
    progress: int,
    createdAt: int,
    startedAt: Option<int>,
    finishedAt: Option<int>,
    expiresAt: Option<int>,
    taskError: Option<TaskError>,
    modelUrls: Option<UrlMap>,
    textureUrls: Option<seq<UrlMap>>,
    thumbnailUrl: Option<string>,
    result: Option<RawResult>)
}
