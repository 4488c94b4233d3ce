/** The glacier list shown on a project page: rows fetched by the spatial
    query are sorted in place (named glaciers first, by case-folded name,
    then by id) and turned into list items. */
module GlacierController {
  import opened Wrappers
  import opened Json
  import opened Geo
  import opened Models
  import opened Sorting
  import SceneController

  /** A row of `fetch_glacier_in_geometry`: id, nullable name, and the
      GeoJSON text of a point on the glacier's surface. */
  datatype GlacierRow = GlacierRow(glacierId: string, name: Option<string>, ptGeojson: Option<string>)

  datatype GlacierListItem = GlacierListItem(glacierId: string, name: Option<string>, point: Option<LatLng>)

  /** `str.casefold`, on ASCII letters only. */
  function LowerChar(c: char): char {
    if 'A' <= c <= 'Z' then (c as int + 32) as char else c
  }

  function CaseFold(s: string): (r: string)
    ensures |r| == |s|
  {
    seq(|s|, i requires 0 <= i < |s| => LowerChar(s[i]))
  }

  /** Python's `<` on `str`: lexicographic by code point, a proper prefix
      first. */
  predicate StrLess(a: string, b: string) {
    if a == [] then b != []
    else if b == [] then false
    else a[0] < b[0] || (a[0] == b[0] && StrLess(a[1..], b[1..]))
  }

  lemma {:induction false} StrLessIrreflexive(a: string)
    ensures !StrLess(a, a)
  {
    if a != [] {
      StrLessIrreflexive(a[1..]);
    }
  }

  lemma {:induction false} StrLessTransitive(a: string, b: string, c: string)
    requires StrLess(a, b) && StrLess(b, c)
    ensures StrLess(a, c)
  {
    if a != [] && b != [] && c != [] && a[0] == b[0] == c[0] {
      StrLessTransitive(a[1..], b[1..], c[1..]);
    }
  }

  lemma {:induction false} StrLessTrichotomy(a: string, b: string)
    ensures a == b || StrLess(a, b) || StrLess(b, a)
  {
    if a != [] && b != [] && a[0] == b[0] {
      StrLessTrichotomy(a[1..], b[1..]);
      if a[1..] == b[1..] {
        assert a == [a[0]] + a[1..] && b == [b[0]] + b[1..];
      }
    }
  }

  lemma {:induction false} StrLessAsymmetric(a: string, b: string)
    requires StrLess(a, b)
    ensures !StrLess(b, a)
  {
    if StrLess(b, a) {
      StrLessTransitive(a, b, a);
      StrLessIrreflexive(a);
    }
  }

  /** The case-folded name, `(x.name or "").casefold()`. */
  function FoldedName(g: GlacierRow): string {
    CaseFold(g.name.GetOr(""))
  }

  /** The sort key `(x.name is None, (x.name or "").casefold(), x.glacier_id)`. */
  datatype SortKey = SortKey(unnamed: bool, folded: string, id: string)

  function KeyOf(g: GlacierRow): SortKey {
    SortKey(g.name.None?, FoldedName(g), g.glacierId)
  }

  /** Tuple `<` on sort keys: the first differing component decides, and
      `False < True`. */
  predicate KeyLess(k: SortKey, l: SortKey) {
    if k.unnamed != l.unnamed then !k.unnamed
    else if k.folded != l.folded then StrLess(k.folded, l.folded)
    else StrLess(k.id, l.id)
  }

  lemma KeyLessIsStrictTotalOrder(k: SortKey, l: SortKey, m: SortKey)
    ensures !KeyLess(k, k)
    ensures KeyLess(k, l) ==> !KeyLess(l, k)
    ensures KeyLess(k, l) && KeyLess(l, m) ==> KeyLess(k, m)
    ensures k == l || KeyLess(k, l) || KeyLess(l, k)
  {
    StrLessIrreflexive(k.id);
    if KeyLess(k, l) {
      if k.unnamed == l.unnamed && k.folded != l.folded {
        StrLessAsymmetric(k.folded, l.folded);
      } else if k.unnamed == l.unnamed {
        StrLessAsymmetric(k.id, l.id);
      }
    }
    if KeyLess(k, l) && KeyLess(l, m) {
      if k.unnamed == l.unnamed == m.unnamed {
        if k.folded != l.folded && l.folded != m.folded {
          StrLessTransitive(k.folded, l.folded, m.folded);
          if k.folded == m.folded {
            StrLessIrreflexive(k.folded);
          }
        } else if k.folded == l.folded && l.folded == m.folded {
          StrLessTransitive(k.id, l.id, m.id);
        }
      }
    }
    StrLessTrichotomy(k.folded, l.folded);
    StrLessTrichotomy(k.id, l.id);
  }

  /** `g` may stand before `h` in a sorted list: `h`'s key is not smaller. */
  predicate Before(g: GlacierRow, h: GlacierRow) {
    !KeyLess(KeyOf(h), KeyOf(g))
  }

  lemma BeforeTransitive(g: GlacierRow, h: GlacierRow, k: GlacierRow)
    requires Before(g, h) && Before(h, k)
    ensures Before(g, k)
  {
    KeyLessIsStrictTotalOrder(KeyOf(k), KeyOf(g), KeyOf(h));
    KeyLessIsStrictTotalOrder(KeyOf(g), KeyOf(h), KeyOf(k));
  }

  /** What `list.sort` leaves: no element has a smaller key than one before it. */
  ghost predicate Sorted(s: seq<GlacierRow>) {
    forall i, j :: 0 <= i < j < |s| ==> Before(s[i], s[j])
  }

  /** `glacier_rows.sort(key=...)`, in place; an insertion sort that moves an
      element left only past strictly greater keys. */
  method SortGlacierRows(a: array<GlacierRow>)
    modifies a
    ensures Sorted(a[..])
    ensures multiset(a[..]) == multiset(old(a[..]))
  {
    var i := 0;
    while i < a.Length
      invariant 0 <= i <= a.Length
      invariant SortedPrefix(a, i)
      invariant multiset(a[..]) == multiset(old(a[..]))
    {
      InsertLast(a, i);
      i := i + 1;
    }
  }

  ghost predicate SortedPrefix(a: array<GlacierRow>, n: int)
    requires 0 <= n <= a.Length
    reads a
  {
    forall p, q :: 0 <= p < q < n ==> Before(a[p], a[q])
  }

  /** While the new element sinks to position j, every other pair among
      the first i + 1 is in order, and the sinking element is before
      everything to its right. */
  ghost predicate Sinking(s: seq<GlacierRow>, j: int, i: int)
    requires 0 <= j <= i < |s|
  {
    && (forall p, q :: 0 <= p < q <= i && p != j && q != j ==> Before(s[p], s[q]))
    && (forall q :: j < q <= i ==> Before(s[j], s[q]))
  }

  lemma SinkStep(s: seq<GlacierRow>, j: int, i: int)
    requires 0 < j <= i < |s|
    requires Sinking(s, j, i)
    requires KeyLess(KeyOf(s[j]), KeyOf(s[j - 1]))
    ensures Sinking(s[j - 1 := s[j]][j := s[j - 1]], j - 1, i)
  {
    KeyLessIsStrictTotalOrder(KeyOf(s[j]), KeyOf(s[j - 1]), KeyOf(s[j]));
  }

  lemma SinkDone(s: seq<GlacierRow>, j: int, i: int)
    requires 0 <= j <= i < |s|
    requires Sinking(s, j, i)
    requires j == 0 || !KeyLess(KeyOf(s[j]), KeyOf(s[j - 1]))
    ensures forall p, q :: 0 <= p < q <= i ==> Before(s[p], s[q])
  {
    forall p | 0 <= p < j
      ensures Before(s[p], s[j])
    {
      if p < j - 1 {
        BeforeTransitive(s[p], s[j - 1], s[j]);
      }
    }
  }

  /** One pass of the insertion sort: the element at `i` sinks left into the
      sorted prefix before it. */
  method InsertLast(a: array<GlacierRow>, i: int)
    requires 0 <= i < a.Length
    requires SortedPrefix(a, i)
    modifies a
    ensures SortedPrefix(a, i + 1)
    ensures multiset(a[..]) == multiset(old(a[..]))
  {
    var j := i;
    while 0 < j && KeyLess(KeyOf(a[j]), KeyOf(a[j - 1]))
      invariant 0 <= j <= i
      invariant Sinking(a[..], j, i)
      invariant multiset(a[..]) == multiset(old(a[..]))
    {
      SinkStep(a[..], j, i);
      a[j - 1], a[j] := a[j], a[j - 1];
      j := j - 1;
    }
    SinkDone(a[..], j, i);
  }

  /** `__glacier_row_to_list_item`. */
  function RowToListItem(g: GlacierRow, decode: Decoder): (r: Result<GlacierListItem, GeoError>)
    ensures r.Success? ==> r.value.glacierId == g.glacierId && r.value.name == g.name
    ensures r.Success? <==> PointToLatLng(g.ptGeojson, decode).Success?
    ensures r.Success? ==> Success(r.value.point) == PointToLatLng(g.ptGeojson, decode)
  {
    match PointToLatLng(g.ptGeojson, decode)
    case Success(point) => Success(GlacierListItem(g.glacierId, g.name, point))
    case Failure(e) => Failure(e)
  }

  /** The comprehension `[__glacier_row_to_list_item(g) for g in rows]`: one
      item per row in row order; the first row whose point text is malformed
      raises. */
  function ToListItems(rows: seq<GlacierRow>, decode: Decoder): (r: Result<seq<GlacierListItem>, GeoError>)
    ensures r.Success? ==> |r.value| == |rows|
    ensures r.Success? ==> forall i :: 0 <= i < |rows| ==> RowToListItem(rows[i], decode) == Success(r.value[i])
    ensures r.Success? <==> forall i :: 0 <= i < |rows| ==> RowToListItem(rows[i], decode).Success?
  {
    if rows == [] then Success([])
    else
      match RowToListItem(rows[0], decode)
      case Failure(e) => Failure(e)
      case Success(item) =>
        match ToListItems(rows[1..], decode)
        case Failure(e) => Failure(e)
        case Success(items) =>
          assert forall i :: 1 <= i < |rows| ==> rows[i] == rows[1..][i - 1];
          Success([item] + items)
  }

  /** `glacier_rows_to_list_items`: sorts the caller's rows in place, then
      converts them in their new order. */
  method GlacierRowsToListItems(rows: array<GlacierRow>, decode: Decoder)
    returns (r: Result<seq<GlacierListItem>, GeoError>)
    modifies rows
    ensures Sorted(rows[..])
    ensures multiset(rows[..]) == multiset(old(rows[..]))
    ensures r == ToListItems(rows[..], decode)
  {
    SortGlacierRows(rows);
    r := ToListItems(rows[..], decode);
  }

  /** In a sorted list every named glacier comes before every unnamed one. */
  lemma NamedBeforeUnnamed(s: seq<GlacierRow>, i: int, j: int)
    requires Sorted(s)
    requires 0 <= i < j < |s|
    requires s[j].name.Some?
    ensures s[i].name.Some?
  {
    assert Before(s[i], s[j]);
  }

  /** Named glaciers are in ascending order of case-folded name. */
  lemma NamedByFoldedName(s: seq<GlacierRow>, i: int, j: int)
    requires Sorted(s)
    requires 0 <= i < j < |s|
    requires s[i].name.Some? && s[j].name.Some?
    ensures !StrLess(FoldedName(s[j]), FoldedName(s[i]))
  {
    assert Before(s[i], s[j]);
    StrLessIrreflexive(FoldedName(s[i]));
  }

  /** Glaciers with equal name keys are in ascending id order; in particular
      all unnamed glaciers are ordered by id. */
  lemma TiesById(s: seq<GlacierRow>, i: int, j: int)
    requires Sorted(s)
    requires 0 <= i < j < |s|
    requires s[i].name.None? == s[j].name.None? && FoldedName(s[i]) == FoldedName(s[j])
    ensures !StrLess(s[j].glacierId, s[i].glacierId)
  {
    assert Before(s[i], s[j]);
  }

  lemma UnnamedById(s: seq<GlacierRow>, i: int, j: int)
    requires Sorted(s)
    requires 0 <= i < j < |s|
    requires s[i].name.None? && s[j].name.None?
    ensures !StrLess(s[j].glacierId, s[i].glacierId)
  {
    TiesById(s, i, j);
  }

  /** An empty name counts as a name and sorts first among the named: only
      another empty name may stand before it among named glaciers. */
  lemma EmptyNameSortsFirst(s: seq<GlacierRow>, i: int, j: int)
    requires Sorted(s)
    requires 0 <= i < j < |s|
    requires s[i].name.Some? && s[j].name == Some("")
    ensures s[i].name == Some("")
  {
    assert Before(s[i], s[j]);
    assert FoldedName(s[j]) == "";
    if FoldedName(s[i]) != "" {
      assert StrLess(FoldedName(s[j]), FoldedName(s[i]));
    }
  }

  /** `fetch_glacier_area`: the stored area, or `None` when the glacier is
      unknown or its area is NULL. */
  function FetchGlacierArea(glaciers: seq<Glacier>, glacierId: string): (r: Option<real>)
    ensures r.Some? ==> exists g :: g in glaciers && g.glacierId == glacierId && g.areaM2 == r
    ensures (forall g :: g in glaciers ==> g.glacierId != glacierId) ==> r.None?
    ensures forall i :: 0 <= i < |glaciers| && glaciers[i].glacierId == glacierId &&
                        (forall k :: 0 <= k < i ==> glaciers[k].glacierId != glacierId) ==>
                          r == glaciers[i].areaM2
  {
    if glaciers == [] then None
    else if glaciers[0].glacierId == glacierId then glaciers[0].areaM2
    else FetchGlacierArea(glaciers[1..], glacierId)
  }

  /** A row of `fetch_glacier_timeseries`: a snow-data row and the
      acquisition date of its scene. */
  datatype SnowObservation = SnowObservation(data: GlacierSnowData, acquisitionDate: Option<Timestamp>)

  /** The inner join with the scene table: a snow-data row takes part only
      when its scene exists. */
  function ObservationOf(x: GlacierSnowData, scenes: seq<Scene>): Option<SnowObservation> {
    if x.sceneId.None? then None
    else
      match SceneController.FindScene(scenes, x.sceneId.value)
      case None => None
      case Some(s) => Some(SnowObservation(x, s.acquisitionDate))
  }

  /** The join condition: the row belongs to the glacier and its scene
      exists. */
  function Joins(scenes: seq<Scene>, glacierId: string): GlacierSnowData -> bool {
    (x: GlacierSnowData) => x.glacierId == Some(glacierId) && ObservationOf(x, scenes).Some?
  }

  /** The joined rows of one glacier, in store order: one observation per
      snow-data row that satisfies the join condition, and no other. */
  function JoinedObservations(snow: seq<GlacierSnowData>, scenes: seq<Scene>, glacierId: string)
    : (r: seq<SnowObservation>)
    ensures forall o :: o in r <==>
              exists x :: x in snow && x.glacierId == Some(glacierId) && ObservationOf(x, scenes) == Some(o)
    ensures forall o :: o in r ==> o.data in snow && o.data.glacierId == Some(glacierId)
  {
    if snow == [] then []
    else
      var rest := JoinedObservations(snow[1..], scenes, glacierId);
      assert forall x :: x in snow <==> x == snow[0] || x in snow[1..];
      var x := snow[0];
      if x.glacierId == Some(glacierId) && ObservationOf(x, scenes).Some?
      then [ObservationOf(x, scenes).value] + rest
      else rest
  }

  /** The join yields one observation per snow-data row that satisfies the
      join condition, in store order, and no other. */
  lemma {:induction false} JoinedObservationsPerRow(snow: seq<GlacierSnowData>, scenes: seq<Scene>, glacierId: string)
    ensures var r := JoinedObservations(snow, scenes, glacierId);
            var rows := FilterSnowData(snow, Joins(scenes, glacierId));
            && |r| == |rows|
            && forall i :: 0 <= i < |r| ==> ObservationOf(rows[i], scenes) == Some(r[i])
  {
    if snow != [] {
      JoinedObservationsPerRow(snow[1..], scenes, glacierId);
      var r := JoinedObservations(snow, scenes, glacierId);
      var rest := JoinedObservations(snow[1..], scenes, glacierId);
      var rows := FilterSnowData(snow, Joins(scenes, glacierId));
      var restRows := FilterSnowData(snow[1..], Joins(scenes, glacierId));
      if Joins(scenes, glacierId)(snow[0]) {
        assert r == [ObservationOf(snow[0], scenes).value] + rest;
        assert rows == [snow[0]] + restRows;
        forall i | 0 <= i < |r|
          ensures ObservationOf(rows[i], scenes) == Some(r[i])
        {
          if i > 0 {
            assert rows[i] == restRows[i - 1] && r[i] == rest[i - 1];
          }
        }
      } else {
        assert r == rest && rows == restRows;
      }
    }
  }

  /** `ORDER BY GlacierSnowData.created_at`, ascending. */
  predicate CreatedOrder(o: SnowObservation, p: SnowObservation) {
    o.data.createdAt <= p.data.createdAt
  }

  /** `fetch_glacier_timeseries`: the glacier's observations, oldest row
      first. */
  function FetchGlacierTimeseries(snow: seq<GlacierSnowData>, scenes: seq<Scene>, glacierId: string)
    : (r: seq<SnowObservation>)
    ensures multiset(r) == multiset(JoinedObservations(snow, scenes, glacierId))
    ensures SortedBy(r, CreatedOrder)
    ensures forall o :: o in r ==> o.data in snow && o.data.glacierId == Some(glacierId)
  {
    var joined := JoinedObservations(snow, scenes, glacierId);
    CreatedOrderIsTotalPreorder();
    SortIsSorted(joined, CreatedOrder);
    var r := Sort(joined, CreatedOrder);
    assert forall o :: o in r ==> o in multiset(joined);
    r
  }

  lemma CreatedOrderIsTotalPreorder()
    ensures TotalPreorder(CreatedOrder)
  {
  }
}
