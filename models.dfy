/** The persisted entities: the scene status enumeration, the four tables
    with their nullability and defaults, and the two ORM cascades. */
module Models {
  import opened Wrappers

  /** A point in time, as an opaque ordered value (seconds, say). */
  type Timestamp = int

  /** A stored geometry, kept in its serialized form; the model never looks
      inside it (spatial work is done by the database). */
  datatype Geometry = Geometry(ewkb: seq<bv8>)

  /** The nine states of a scene. In the source each member's value is the
      same string as its name, so `Name()` is both. */
  datatype SceneStatus =
    | Discovered
    | QueuedForDownload
    | Downloading
    | Downloaded
    | FailedDownload
    | QueuedForProcessing
    | Processing
    | Processed
    | FailedProcessing
  {
    function Name(): string {
      match this
      case Discovered => "discovered"
      case QueuedForDownload => "queued_for_download"
      case Downloading => "downloading"
      case Downloaded => "downloaded"
      case FailedDownload => "failed_download"
      case QueuedForProcessing => "queued_for_processing"
      case Processing => "processing"
      case Processed => "processed"
      case FailedProcessing => "failed_processing"
    }
  }

  /** The members in declaration order. */
  const AllStatuses: seq<SceneStatus> :=
    [Discovered, QueuedForDownload, Downloading, Downloaded, FailedDownload,
     QueuedForProcessing, Processing, Processed, FailedProcessing]

  /** `SceneStatusEnum(value)`: the member with that value, or `None` where
      Python raises `ValueError` (and the web layer answers 422). */
  function ParseStatus(value: string): (r: Option<SceneStatus>)
    ensures r.Some? ==> r.value.Name() == value
    ensures r.None? ==> forall s: SceneStatus :: s.Name() != value
  {
    if value == "discovered" then Some(Discovered)
    else if value == "queued_for_download" then Some(QueuedForDownload)
    else if value == "downloading" then Some(Downloading)
    else if value == "downloaded" then Some(Downloaded)
    else if value == "failed_download" then Some(FailedDownload)
    else if value == "queued_for_processing" then Some(QueuedForProcessing)
    else if value == "processing" then Some(Processing)
    else if value == "processed" then Some(Processed)
    else if value == "failed_processing" then Some(FailedProcessing)
    else
      assert forall s: SceneStatus :: s.Name() != value;
      None
  }

  /** The enumeration has exactly nine members, with pairwise distinct values. */
  lemma StatusEnumHasNineDistinctMembers()
    ensures |AllStatuses| == 9
    ensures forall s: SceneStatus :: s in AllStatuses
    ensures forall i, j :: 0 <= i < j < |AllStatuses| ==>
              AllStatuses[i].Name() != AllStatuses[j].Name()
  {
    forall s: SceneStatus ensures s in AllStatuses {
      match s
      case Discovered => assert AllStatuses[0] == s;
      case QueuedForDownload => assert AllStatuses[1] == s;
      case Downloading => assert AllStatuses[2] == s;
      case Downloaded => assert AllStatuses[3] == s;
      case FailedDownload => assert AllStatuses[4] == s;
      case QueuedForProcessing => assert AllStatuses[5] == s;
      case Processing => assert AllStatuses[6] == s;
      case Processed => assert AllStatuses[7] == s;
      case FailedProcessing => assert AllStatuses[8] == s;
    }
  }

  /** Looking a member up by its own value gives it back. */
  lemma ParseStatusOfName(s: SceneStatus)
    ensures ParseStatus(s.Name()) == Some(s)
  {
  }

  datatype Scene = Scene(
    sceneId: string,
    projectId: Option<string>,
    stacHref: Option<string>,
    acquisitionDate: Option<Timestamp>,
    status: SceneStatus,                // nullable=False: never absent
    downloadPath: Option<string>,
    resultPath: Option<string>,
    attemptsDownload: int,
    attemptsProcessing: int,
    lastError: Option<string>,
    createdAt: Timestamp,
    updatedAt: Timestamp)

  /** A scene row as the ORM inserts it when only the key columns are given:
      every column default applied. `created_at` and `updated_at` each call
      `datetime.now` on their own, so they are two clock readings. */
  function NewScene(sceneId: string, projectId: Option<string>, stacHref: Option<string>,
                    acquisitionDate: Option<Timestamp>, createdNow: Timestamp, updatedNow: Timestamp): (s: Scene)
    ensures s.sceneId == sceneId && s.projectId == projectId
    ensures s.stacHref == stacHref && s.acquisitionDate == acquisitionDate
    ensures s.status == Discovered
    ensures s.attemptsDownload == 0 && s.attemptsProcessing == 0
    ensures s.downloadPath.None? && s.resultPath.None? && s.lastError.None?
    ensures s.createdAt == createdNow && s.updatedAt == updatedNow
  {
    Scene(sceneId, projectId, stacHref, acquisitionDate, Discovered, None, None,
          0, 0, None, createdNow, updatedNow)
  }

  datatype Glacier = Glacier(
    glacierId: string,
    name: Option<string>,
    geometry: Geometry,                 // nullable=False: always present
    areaM2: Option<real>,
    createdAt: Timestamp)

  datatype GlacierSnowData = GlacierSnowData(
    id: string,
    analysisId: Option<string>,
    glacierId: Option<string>,
    sceneId: Option<string>,
    snowAreaM2: Option<int>,
    snowlineElevationM: Option<int>,
    createdAt: Timestamp)

  datatype GlaciersAnalysisResult = GlaciersAnalysisResult(
    id: string,
    sceneId: Option<string>,
    analysisDate: Timestamp,
    snowAreaM2: real,
    totalGlacierSnowAreaM2: real,
    createdAt: Timestamp)

  /** The tables that take part in the two delete cascades. */
  datatype Tables = Tables(
    glaciers: seq<Glacier>,
    snowData: seq<GlacierSnowData>,
    analyses: seq<GlaciersAnalysisResult>)

  /** The rows of `rows` that `keep` accepts, in their original order. */
  function FilterSnowData(rows: seq<GlacierSnowData>, keep: GlacierSnowData -> bool): (r: seq<GlacierSnowData>)
    ensures |r| <= |rows|
    ensures forall x :: x in r <==> x in rows && keep(x)
  {
    if rows == [] then []
    else if keep(rows[0]) then [rows[0]] + FilterSnowData(rows[1..], keep)
    else FilterSnowData(rows[1..], keep)
  }

  /** Deleting a glacier through the ORM: the `delete-orphan` cascade on
      `Glacier.snow_data` removes exactly the snow-data rows of that glacier. */
  function DeleteGlacier(t: Tables, glacierId: string): (r: Tables)
    ensures forall g :: g in r.glaciers <==> g in t.glaciers && g.glacierId != glacierId
    ensures forall x :: x in r.snowData <==> x in t.snowData && x.glacierId != Some(glacierId)
    ensures r.analyses == t.analyses
  {
    Tables(
      KeepGlaciers(t.glaciers, glacierId),
      FilterSnowData(t.snowData, (x: GlacierSnowData) => x.glacierId != Some(glacierId)),
      t.analyses)
  }

  function KeepGlaciers(gs: seq<Glacier>, glacierId: string): (r: seq<Glacier>)
    ensures forall g :: g in r <==> g in gs && g.glacierId != glacierId
  {
    if gs == [] then []
    else if gs[0].glacierId != glacierId then [gs[0]] + KeepGlaciers(gs[1..], glacierId)
    else KeepGlaciers(gs[1..], glacierId)
  }

  function KeepAnalyses(rs: seq<GlaciersAnalysisResult>, analysisId: string): (r: seq<GlaciersAnalysisResult>)
    ensures forall a :: a in r <==> a in rs && a.id != analysisId
  {
    if rs == [] then []
    else if rs[0].id != analysisId then [rs[0]] + KeepAnalyses(rs[1..], analysisId)
    else KeepAnalyses(rs[1..], analysisId)
  }

  /** Deleting an analysis result: the `delete-orphan` cascade on
      `GlaciersAnalysisResult.glaciers` removes exactly its snow-data rows. */
  function DeleteAnalysisResult(t: Tables, analysisId: string): (r: Tables)
    ensures r.glaciers == t.glaciers
    ensures forall a :: a in r.analyses <==> a in t.analyses && a.id != analysisId
    ensures forall x :: x in r.snowData <==> x in t.snowData && x.analysisId != Some(analysisId)
  {
    Tables(
      t.glaciers,
      FilterSnowData(t.snowData, (x: GlacierSnowData) => x.analysisId != Some(analysisId)),
      KeepAnalyses(t.analyses, analysisId))
  }
}
