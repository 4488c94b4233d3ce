/** The scene endpoints: details by id, and the API-key-protected status
    update. */
module SceneRoutes {
  import opened Wrappers
  import opened Http
  import opened Models
  import opened SceneController

  datatype SceneDetailsOut = SceneDetailsOut(
    sceneId: string,
    projectId: Option<string>,
    acquisitionDate: Option<Timestamp>,
    status: string,
    attemptsDownload: int,
    attemptsProcessing: int,
    lastError: Option<string>)

  datatype PatchStatusOut = PatchStatusOut(sceneId: string, status: string)

  /** What the details endpoint echoes of a stored scene. */
  function DetailsOf(s: Scene): SceneDetailsOut {
    SceneDetailsOut(s.sceneId, s.projectId, s.acquisitionDate, s.status.Name(),
                    s.attemptsDownload, s.attemptsProcessing, s.lastError)
  }

  /** `get_scene_details`: 404 for an unknown id, otherwise the stored
      fields of the scene with that id, the status by name. */
  function GetSceneDetails(scenes: seq<Scene>, sceneId: string): (r: Result<SceneDetailsOut, HttpError>)
    ensures r.Failure? <==> (forall i :: 0 <= i < |scenes| ==> scenes[i].sceneId != sceneId)
    ensures r.Failure? ==> r.error == NotFound
    ensures r.Success? ==> exists s :: s in scenes && s.sceneId == sceneId && r.value == DetailsOf(s)
    ensures r.Success? ==> r.value.sceneId == sceneId
  {
    match FindScene(scenes, sceneId)
    case None => Failure(NotFound)
    case Some(s) => Success(DetailsOf(s))
  }

  /** With unique ids the details are those of the one scene with that id,
      attempt counters and last error included. */
  lemma DetailsEchoTheStoredScene(scenes: seq<Scene>, k: int)
    requires UniqueIds(scenes)
    requires 0 <= k < |scenes|
    ensures GetSceneDetails(scenes, scenes[k].sceneId) == Success(DetailsOf(scenes[k]))
  {
    FindIsUnique(scenes, scenes[k].sceneId);
  }

  /** `patch_scene_status`. The key is checked first, then the scene is
      looked up, then updated. The path parameter is already a member of the
      enumeration, so the `KeyError` branch (400) cannot be taken. */
  method PatchSceneStatus(store: SceneStore, sceneId: string, newStatus: SceneStatus,
                          apiKey: string, configuredKey: string, now: Timestamp)
    returns (r: Result<PatchStatusOut, HttpError>)
    requires store.Valid()
    modifies store
    ensures store.Valid()
    ensures apiKey != configuredKey ==>
              r == Failure(Forbidden) && store.scenes == old(store.scenes)
    ensures apiKey == configuredKey && FindScene(old(store.scenes), sceneId).None? ==>
              r == Failure(NotFound) && store.scenes == old(store.scenes)
    ensures apiKey == configuredKey && FindScene(old(store.scenes), sceneId).Some? ==>
              && r == Success(PatchStatusOut(sceneId, newStatus.Name()))
              && store.scenes == SetStatus(old(store.scenes), sceneId, newStatus, now)
              && FindScene(store.scenes, sceneId).Some?
              && FindScene(store.scenes, sceneId).value.status == newStatus
    ensures r != Failure(BadRequest)
  {
    if apiKey != configuredKey {
      return Failure(Forbidden);
    }
    var scene := FindScene(store.scenes, sceneId);
    if scene.None? {
      return Failure(NotFound);
    }
    var updated := store.UpdateSceneStatus(scene.value, newStatus, now);
    r := Success(PatchStatusOut(updated.sceneId, updated.status.Name()));
  }
}
