/** The scene table as the controller sees it: lookup by id, the in-place
    status update, and the paginated, date-ordered listing with its count. */
module SceneController {
  import opened Wrappers
  import opened Models
  import opened Sorting

  /** Scene ids are the primary key. */
  ghost predicate UniqueIds(scenes: seq<Scene>) {
    forall i, j :: 0 <= i < j < |scenes| ==> scenes[i].sceneId != scenes[j].sceneId
  }

  /** `fetch_scene_row`: the scene with that id, or `None`. */
  function FindScene(scenes: seq<Scene>, sceneId: string): (r: Option<Scene>)
    ensures r.Some? ==> r.value in scenes && r.value.sceneId == sceneId
    ensures r.None? <==> forall i :: 0 <= i < |scenes| ==> scenes[i].sceneId != sceneId
  {
    if scenes == [] then None
    else if scenes[0].sceneId == sceneId then Some(scenes[0])
    else
      assert forall i :: 1 <= i < |scenes| ==> scenes[i] == scenes[1..][i - 1];
      FindScene(scenes[1..], sceneId)
  }

  /** The scene once its status is set. No transition table is consulted:
      any status is accepted from any status. `updated_at` (its `onupdate`
      hook) moves to `now` only when an UPDATE is issued, which the ORM does
      only when the value actually changed. */
  function WithStatus(s: Scene, newStatus: SceneStatus, now: Timestamp): (r: Scene)
    ensures r.status == newStatus
    ensures r.(status := s.status, updatedAt := s.updatedAt) == s
    ensures r.updatedAt == now || r.updatedAt == s.updatedAt
    ensures newStatus != s.status ==> r.updatedAt == now
    ensures newStatus == s.status ==> r == s
  {
    s.(status := newStatus, updatedAt := if newStatus == s.status then s.updatedAt else now)
  }

  /** The table after the scene `sceneId` has been given `newStatus`. */
  function SetStatus(scenes: seq<Scene>, sceneId: string, newStatus: SceneStatus, now: Timestamp): (r: seq<Scene>)
    ensures |r| == |scenes|
  {
    seq(|scenes|, i requires 0 <= i < |scenes| =>
      if scenes[i].sceneId == sceneId then WithStatus(scenes[i], newStatus, now) else scenes[i])
  }

  /** Setting a status keeps the key unique, changes only that scene, and a
      later lookup sees the new status. */
  lemma SetStatusEffect(scenes: seq<Scene>, sceneId: string, newStatus: SceneStatus, now: Timestamp)
    requires UniqueIds(scenes)
    ensures UniqueIds(SetStatus(scenes, sceneId, newStatus, now))
    ensures forall i :: 0 <= i < |scenes| && scenes[i].sceneId != sceneId ==>
              SetStatus(scenes, sceneId, newStatus, now)[i] == scenes[i]
    ensures FindScene(scenes, sceneId).Some? ==>
              FindScene(SetStatus(scenes, sceneId, newStatus, now), sceneId)
              == Some(WithStatus(FindScene(scenes, sceneId).value, newStatus, now))
    ensures FindScene(scenes, sceneId).None? ==> SetStatus(scenes, sceneId, newStatus, now) == scenes
  {
    var r := SetStatus(scenes, sceneId, newStatus, now);
    FindIsUnique(scenes, sceneId);
    if FindScene(scenes, sceneId).Some? {
      var k :| 0 <= k < |scenes| && scenes[k] == FindScene(scenes, sceneId).value;
      FindIsUnique(r, sceneId);
      assert r[k].sceneId == sceneId;
    }
  }

  /** With unique ids, the scene found is the one at the index holding that id. */
  lemma FindIsUnique(scenes: seq<Scene>, sceneId: string)
    ensures forall k :: 0 <= k < |scenes| && scenes[k].sceneId == sceneId && UniqueIds(scenes) ==>
              FindScene(scenes, sceneId) == Some(scenes[k])
  {
    if scenes != [] && scenes[0].sceneId != sceneId {
      FindIsUnique(scenes[1..], sceneId);
      forall k | 0 <= k < |scenes| && scenes[k].sceneId == sceneId && UniqueIds(scenes)
        ensures FindScene(scenes, sceneId) == Some(scenes[k])
      {
        assert scenes[1..][k - 1] == scenes[k];
      }
    }
  }

  /** The scene table, updated in place by the status endpoint. */
  class SceneStore {
    var scenes: seq<Scene>

    ghost predicate Valid()
      reads this
    {
      UniqueIds(scenes)
    }

    constructor (initial: seq<Scene>)
      requires UniqueIds(initial)
      ensures Valid() && scenes == initial
    {
      scenes := initial;
    }

    /** `update_scene_status`: the loaded scene gets the new status, the
        change is persisted, and the refreshed scene is returned. */
    method UpdateSceneStatus(scene: Scene, newStatus: SceneStatus, now: Timestamp) returns (updated: Scene)
      requires Valid()
      requires scene in scenes
      modifies this
      ensures Valid()
      ensures updated == WithStatus(scene, newStatus, now)
      ensures scenes == SetStatus(old(scenes), scene.sceneId, newStatus, now)
      ensures FindScene(scenes, scene.sceneId) == Some(updated)
    {
      SetStatusEffect(scenes, scene.sceneId, newStatus, now);
      FindIsUnique(scenes, scene.sceneId);
      scenes := SetStatus(scenes, scene.sceneId, newStatus, now);
      updated := WithStatus(scene, newStatus, now);
    }
  }

  /** A row of `fetch_scenes_by_project_id`: the three selected columns. */
  datatype SceneRow = SceneRow(sceneId: string, acquisitionDate: Option<Timestamp>, status: SceneStatus)

  function RowOf(s: Scene): SceneRow {
    SceneRow(s.sceneId, s.acquisitionDate, s.status)
  }

  /** The database rejects a negative LIMIT or OFFSET. */
  datatype DbError = NegativeLimitOrOffset

  /** `Scene.project_id == project_id`: a NULL project id never matches. The
      scenes of the project as listing rows, in store order. */
  function ProjectRows(scenes: seq<Scene>, projectId: string): (r: seq<SceneRow>)
    ensures |r| <= |scenes|
    ensures forall x :: x in r <==> exists s :: s in scenes && s.projectId == Some(projectId) && x == RowOf(s)
  {
    if scenes == [] then []
    else
      var rest := ProjectRows(scenes[1..], projectId);
      assert forall s :: s in scenes <==> s == scenes[0] || s in scenes[1..];
      if scenes[0].projectId == Some(projectId) then [RowOf(scenes[0])] + rest else rest
  }

  /** `count_scenes_by_project_id`. */
  function CountScenesByProjectId(scenes: seq<Scene>, projectId: string): nat {
    if scenes == [] then 0
    else (if scenes[0].projectId == Some(projectId) then 1 else 0) + CountScenesByProjectId(scenes[1..], projectId)
  }

  /** The count is the number of rows the listing filters to. */
  lemma {:induction false} CountIsNumberOfProjectRows(scenes: seq<Scene>, projectId: string)
    ensures CountScenesByProjectId(scenes, projectId) == |ProjectRows(scenes, projectId)|
  {
    if scenes != [] {
      CountIsNumberOfProjectRows(scenes[1..], projectId);
    }
  }

  /** `ORDER BY acquisition_date DESC`: later dates first, and NULL dates
      ahead of all others (the database's default for a descending order). */
  predicate DateFirst(a: Option<Timestamp>, b: Option<Timestamp>) {
    a.None? || (b.Some? && a.value >= b.value)
  }

  /** `DateFirst` on the rows' dates, as the ordering the query sorts by. */
  predicate DateOrder(x: SceneRow, y: SceneRow) {
    DateFirst(x.acquisitionDate, y.acquisitionDate)
  }

  lemma DateOrderIsTotalPreorder()
    ensures TotalPreorder(DateOrder)
  {
  }

  /** The listing order. Rows with equal dates keep store order; SQL leaves
      their order unspecified, and this is one order it may produce. */
  function SortByDateDesc(s: seq<SceneRow>): (r: seq<SceneRow>)
    ensures multiset(r) == multiset(s)
    ensures SortedBy(r, DateOrder)
  {
    DateOrderIsTotalPreorder();
    SortIsSorted(s, DateOrder);
    Sort(s, DateOrder)
  }

  function Drop(s: seq<SceneRow>, n: nat): seq<SceneRow> {
    if n >= |s| then [] else s[n..]
  }

  function Take(s: seq<SceneRow>, n: nat): seq<SceneRow> {
    if n >= |s| then s else s[..n]
  }

  /** `fetch_scenes_by_project_id`: the project's scenes, latest first,
      `OFFSET offset LIMIT limit`. */
  function FetchScenesByProjectId(scenes: seq<Scene>, projectId: string, limit: int, offset: int)
    : (r: Result<seq<SceneRow>, DbError>)
    ensures r.Failure? <==> limit < 0 || offset < 0
  {
    if limit < 0 || offset < 0 then Failure(NegativeLimitOrOffset)
    else Success(Take(Drop(SortByDateDesc(ProjectRows(scenes, projectId)), offset), limit))
  }

  /** A page holds only scenes of the project, latest first, and its length
      is what LIMIT and OFFSET leave of the count: never more than the count,
      and nothing once the offset reaches it. */
  lemma {:induction false} PageProperties(scenes: seq<Scene>, projectId: string, limit: nat, offset: nat)
    ensures FetchScenesByProjectId(scenes, projectId, limit, offset).Success?
    ensures var page := FetchScenesByProjectId(scenes, projectId, limit, offset).value;
            var count := CountScenesByProjectId(scenes, projectId);
            && (forall x :: x in page ==> exists s :: s in scenes && s.projectId == Some(projectId) && x == RowOf(s))
            && SortedBy(page, DateOrder)
            && |page| == (if offset >= count then 0 else if count - offset < limit then count - offset else limit)
            && |page| <= count
            && (offset >= count ==> page == [])
  {
    var rows := ProjectRows(scenes, projectId);
    var ordered := SortByDateDesc(rows);
    var page := Take(Drop(ordered, offset), limit);
    CountIsNumberOfProjectRows(scenes, projectId);
    assert |ordered| == |rows| by {
      assert |multiset(ordered)| == |multiset(rows)|;
    }
    forall x | x in page
      ensures exists s :: s in scenes && s.projectId == Some(projectId) && x == RowOf(s)
    {
      assert x in ordered;
      assert x in multiset(ordered);
      assert x in rows;
    }
    var dropped := Drop(ordered, offset);
    assert SortedBy(dropped, DateOrder) by {
      if offset < |ordered| {
        forall i, j | 0 <= i < j < |dropped|
          ensures DateOrder(dropped[i], dropped[j])
        {
          assert dropped[i] == ordered[offset + i] && dropped[j] == ordered[offset + j];
        }
      }
    }
  }

  /** Two consecutive pages together are the page that spans both. */
  lemma ConsecutivePages(scenes: seq<Scene>, projectId: string, offset: nat, first: nat, second: nat)
    ensures FetchScenesByProjectId(scenes, projectId, first, offset).value
            + FetchScenesByProjectId(scenes, projectId, second, offset + first).value
            == FetchScenesByProjectId(scenes, projectId, first + second, offset).value
  {
    var ordered := SortByDateDesc(ProjectRows(scenes, projectId));
    if offset + first < |ordered| {
      assert Drop(ordered, offset + first) == Drop(ordered, offset)[first..];
    }
  }
}
