/** The dashboard's state and its transitions (src/App.tsx): the initial
    load that fetches the matrix and every archetype's record before
    showing anything, the sort control, the visibility list the sidebar
    edits, and the choice between the loading, error and dashboard screens.
    Each React state setter is a field of `AppState`; a handler is a
    function from the state before to the state after. */
module App {
  import opened Wrappers
  import opened Strings
  import opened Seqs
  import opened Shapes
  import opened SortEngine
  import opened ApiClient
  import opened Sidebar

  datatype AppState = AppState(
    matchupData: Obj<Obj<ApiMatchup>>,
    records: map<string, WinLossRecord>,
    archetypes: seq<string>,
    visible: seq<string>,
    sort: SortState,
    isLoading: bool,
    error: Option<string>)

  /** The state at mount: nothing loaded, games descending, loading. */
  const Initial: AppState := AppState([], map[], [], [], SortState(ByGames, Desc), true, None)

  /** The comparator the state's sort control selects. */
  function OrderOf(s: AppState): Order {
    Order(s.sort.key, s.sort.direction, Tallies(s.records))
  }

  /** Both lists follow the active ordering. */
  predicate Consistent(s: AppState) {
    Sorted(OrderOf(s), s.archetypes) && Sorted(OrderOf(s), s.visible)
  }

  /** The win-rate comparator is defined on every name it may be asked to compare. */
  predicate CanSortBy(s: AppState, key: Method, list: seq<string>) {
    key == ByWinRate ==> RatesDefined(Tallies(s.records), list)
  }

  // ---------------------------------------------------------------- sorting

  /** `arch => visibleArchetypes.includes(arch)`. */
  function Shown(visible: seq<string>): string -> bool {
    a => a in visible
  }

  /** `handleSort(method)`: the sort state moves on, the full list is
      re-sorted under the new order, and the visible list becomes the
      re-sorted list restricted to what was visible. */
  function HandleSort(s: AppState, chosen: Method): (r: AppState)
    requires CanSortBy(s, chosen, s.archetypes)
    ensures r.sort == NextSortState(s.sort, chosen)
    ensures r.matchupData == s.matchupData && r.records == s.records
    ensures r.isLoading == s.isLoading && r.error == s.error
    ensures multiset(r.archetypes) == multiset(s.archetypes)
    ensures r.archetypes == Sort(OrderOf(r), s.archetypes)
    ensures forall x :: x in r.visible <==> x in s.archetypes && x in s.visible
    ensures r.visible == Sort(OrderOf(r), Filter(s.archetypes, Shown(s.visible)))
    ensures Consistent(r)
  {
    var next := NextSortState(s.sort, chosen);
    var sorted := SortArchetypes(next.key, next.direction, Tallies(s.records), s.archetypes);
    var r := s.(sort := next, archetypes := sorted, visible := Filter(sorted, Shown(s.visible)));
    assert OrderOf(r) == Order(next.key, next.direction, Tallies(s.records));
    assert sorted == Sort(OrderOf(r), s.archetypes);
    SortCommutesWithFilter(OrderOf(r), s.archetypes, Shown(s.visible));
    forall x ensures x in r.visible <==> x in s.archetypes && x in s.visible {
      calc {
        x in r.visible;
        x in sorted && Shown(s.visible)(x);
        x in multiset(sorted) && x in s.visible;
        x in multiset(s.archetypes) && x in s.visible;
      }
    }
    r
  }

  /** Choosing the active key twice puts both lists back as they were,
      whenever no two listed archetypes tie under that key. */
  lemma HandleSortTwice(s: AppState, k: Method)
    requires Consistent(s) && s.sort.key == k && CanSortBy(s, k, s.archetypes)
    requires DistinctUnder(OrderOf(s), s.archetypes)
    ensures CanSortBy(HandleSort(s, k), k, HandleSort(s, k).archetypes)
    ensures HandleSort(HandleSort(s, k), k).archetypes == s.archetypes
    ensures HandleSort(HandleSort(s, k), k).sort == s.sort
  {
    var once := HandleSort(s, k);
    if k == ByWinRate {
      RatesDefinedByContents(Tallies(s.records), s.archetypes, once.archetypes);
    }
    var twice := HandleSort(once, k);
    NextSortStateTwice(s.sort, k);
    assert OrderOf(twice) == OrderOf(s);
    SortDeterminedByContents(OrderOf(s), s.archetypes, once.archetypes);
    SortKeepsSorted(OrderOf(s), s.archetypes);
  }

  /** Toggling the alphabetical direction reverses both lists. */
  lemma AlphaToggleReverses(s: AppState)
    requires Consistent(s) && s.sort.key == Alpha
    ensures HandleSort(s, Alpha).archetypes == Reverse(s.archetypes)
    ensures HandleSort(s, Alpha).visible == Reverse(Filter(s.archetypes, Shown(s.visible)))
  {
    var d := s.sort.direction;
    var p := Shown(s.visible);
    var records := Tallies(s.records);
    SortKeepsSorted(OrderOf(s), s.archetypes);
    AlphaFlipReverses(d, records, s.archetypes);
    AlphaFlipReverses(d, records, Filter(s.archetypes, p));
    SortCommutesWithFilter(OrderOf(s), s.archetypes, p);
  }

  /** Re-sorting never changes the sidebar's own list. */
  lemma HandleSortKeepsSidebar(s: AppState, chosen: Method)
    requires CanSortBy(s, chosen, s.archetypes)
    ensures SidebarArchetypes(HandleSort(s, chosen)) == SidebarArchetypes(s)
  {
    var r := HandleSort(s, chosen);
    AlphaDistinct(Desc, Tallies(s.records), s.archetypes);
    SortDeterminedByContents(Order(Alpha, Desc, Tallies(s.records)), s.archetypes, r.archetypes);
  }

  // ------------------------------------------------------------- visibility

  /** `handleVisibilityChange(newVisible)`: the sidebar's new list, put in
      the active order; nothing else changes. */
  function HandleVisibilityChange(s: AppState, newVisible: seq<string>): (r: AppState)
    requires CanSortBy(s, s.sort.key, newVisible)
    ensures r.matchupData == s.matchupData && r.records == s.records && r.archetypes == s.archetypes
    ensures r.sort == s.sort && r.isLoading == s.isLoading && r.error == s.error
    ensures multiset(r.visible) == multiset(newVisible)
    ensures Sorted(OrderOf(r), r.visible)
    ensures r.visible == Sort(OrderOf(s), newVisible)
    ensures Consistent(s) ==> Consistent(r)
  {
    s.(visible := SortArchetypes(s.sort.key, s.sort.direction, Tallies(s.records), newVisible))
  }

  /** Unchecking an archetype removes it and leaves the rest in place. */
  lemma UncheckKeepsOrder(s: AppState, name: string)
    requires Consistent(s) && CanSortBy(s, s.sort.key, s.visible)
    ensures CanSortBy(s, s.sort.key, CheckboxChange(s.visible, name, false))
    ensures HandleVisibilityChange(s, CheckboxChange(s.visible, name, false)).visible
      == CheckboxChange(s.visible, name, false)
  {
    var keep := (arch: string) => arch != name;
    var after := CheckboxChange(s.visible, name, false);
    assert after == Filter(s.visible, keep);
    if s.sort.key == ByWinRate {
      forall i | 0 <= i < |after| && after[i] in Tallies(s.records)
        ensures Games(Tallies(s.records)[after[i]]) > 0
      {
        assert after[i] in s.visible;
        var j :| 0 <= j < |s.visible| && s.visible[j] == after[i];
      }
    }
    SortKeepsSorted(OrderOf(s), s.visible);
    SortCommutesWithFilter(OrderOf(s), s.visible, keep);
  }

  /** When no two names tie, the order in which boxes were ticked does not matter. */
  lemma VisibilityIgnoresTickOrder(s: AppState, a: seq<string>, b: seq<string>)
    requires CanSortBy(s, s.sort.key, a) && multiset(a) == multiset(b)
    requires DistinctUnder(OrderOf(s), a)
    ensures CanSortBy(s, s.sort.key, b)
    ensures HandleVisibilityChange(s, a) == HandleVisibilityChange(s, b)
  {
    if s.sort.key == ByWinRate {
      RatesDefinedByContents(Tallies(s.records), a, b);
    }
    SortDeterminedByContents(OrderOf(s), a, b);
  }

  /** The list the sidebar shows: `sortArchetypes('alpha', 'desc')`, which is A to Z. */
  function SidebarArchetypes(s: AppState): (r: seq<string>)
    ensures multiset(r) == multiset(s.archetypes)
    ensures forall i, j :: 0 <= i < j < |r| ==> StrCompare(r[i], r[j]) <= 0
  {
    SortArchetypes(Alpha, Desc, Tallies(s.records), s.archetypes)
  }

  // ------------------------------------------------------------ initial load

  /** `App` passes no filters, so no number is ever written into a URL. */
  function NoNumber(n: real): string {
    ""
  }

  /** The outcome of `fetchArchetypeWinRate(archetype)`: the answer `server`
      gives to the unfiltered records request for that archetype (`WinRateRequest`). */
  function WinRate(token: Option<string>, server: string -> Transport<seq<WinLossRecord>>, a: string): Result<WinLossRecord, string> {
    RecordIn(token, a, server(RecordsPath + "?archetype=" + a))
  }

  /** `fetchArchetypeWinRate` is `getArchetypeWinRate` without filters. */
  lemma WinRateRequest(token: Option<string>, server: string -> Transport<seq<WinLossRecord>>, a: string)
    ensures WinRate(token, server, a) == GetArchetypeWinRate(token, a, NoFilters, NoNumber, server)
  {
    UnfilteredRecordsEndpoint(a, NoNumber);
  }

  predicate AllFetched(token: Option<string>, server: string -> Transport<seq<WinLossRecord>>, keys: seq<string>) {
    forall i :: 0 <= i < |keys| ==> WinRate(token, server, keys[i]).Success?
  }

  /** The archetypes whose record could not be fetched. */
  function Failed(token: Option<string>, server: string -> Transport<seq<WinLossRecord>>): string -> bool {
    a => WinRate(token, server, a).Failure?
  }

  /** The line `errors` holds for a failed archetype. */
  function ErrorLine(token: Option<string>, server: string -> Transport<seq<WinLossRecord>>, a: string): string
    requires WinRate(token, server, a).Failure?
  {
    a + ": " + WinRate(token, server, a).error
  }

  /** The `errors` array: `archetype: message` for each failed fetch, in key
      order; one line per failure (`ErrorLinesComplete`, `ErrorLinesSound`). */
  function ErrorLines(token: Option<string>, server: string -> Transport<seq<WinLossRecord>>, keys: seq<string>): (lines: seq<string>)
    ensures |lines| == |Filter(keys, Failed(token, server))|
    ensures lines == [] <==> AllFetched(token, server, keys)
  {
    if keys == [] then []
    else
      var head := if WinRate(token, server, keys[0]).Failure? then [ErrorLine(token, server, keys[0])] else [];
      var rest := ErrorLines(token, server, keys[1..]);
      assert keys == [keys[0]] + keys[1..];
      FilterCons(keys[0], keys[1..], Failed(token, server));
      assert AllFetched(token, server, keys) <==> head == [] && AllFetched(token, server, keys[1..]) by {
        if head == [] && AllFetched(token, server, keys[1..]) {
          forall i | 0 <= i < |keys| ensures WinRate(token, server, keys[i]).Success? {
            if i > 0 { assert keys[i] == keys[1..][i - 1]; }
          }
        }
        if AllFetched(token, server, keys) {
          forall i | 0 <= i < |keys[1..]| ensures WinRate(token, server, keys[1..][i]).Success? {
            assert keys[1..][i] == keys[i + 1];
          }
        }
      }
      head + rest
  }

  /** Every failed archetype has its line in the message. */
  lemma {:induction false} ErrorLinesComplete(token: Option<string>, server: string -> Transport<seq<WinLossRecord>>, keys: seq<string>)
    ensures forall j :: 0 <= j < |keys| && WinRate(token, server, keys[j]).Failure? ==>
      ErrorLine(token, server, keys[j]) in ErrorLines(token, server, keys)
  {
    if keys != [] {
      ErrorLinesComplete(token, server, keys[1..]);
      forall j | 0 <= j < |keys| && WinRate(token, server, keys[j]).Failure?
        ensures ErrorLine(token, server, keys[j]) in ErrorLines(token, server, keys)
      {
        if j > 0 {
          assert keys[j] == keys[1..][j - 1];
        }
      }
    }
  }

  /** Every line of the message belongs to a failed archetype. */
  lemma {:induction false} ErrorLinesSound(token: Option<string>, server: string -> Transport<seq<WinLossRecord>>, keys: seq<string>)
    ensures forall i :: 0 <= i < |ErrorLines(token, server, keys)| ==>
      exists j :: 0 <= j < |keys| && WinRate(token, server, keys[j]).Failure?
        && ErrorLines(token, server, keys)[i] == ErrorLine(token, server, keys[j])
  {
    var lines := ErrorLines(token, server, keys);
    if keys == [] {
      assert lines == [];
    } else {
      var rest := ErrorLines(token, server, keys[1..]);
      ErrorLinesSound(token, server, keys[1..]);
      ErrorLinesUnfold(token, server, keys);
      var k := if WinRate(token, server, keys[0]).Failure? then 1 else 0;
      assert lines[k..] == rest;
      forall i | 0 <= i < |lines|
        ensures exists j :: (0 <= j < |keys| && WinRate(token, server, keys[j]).Failure?
          && lines[i] == ErrorLine(token, server, keys[j]))
      {
        if i < k {
          assert WinRate(token, server, keys[0]).Failure? && lines[i] == ErrorLine(token, server, keys[0]);
        } else {
          var j :| 0 <= j < |keys[1..]| && WinRate(token, server, keys[1..][j]).Failure?
            && rest[i - k] == ErrorLine(token, server, keys[1..][j]);
          assert keys[1..][j] == keys[j + 1];
          assert WinRate(token, server, keys[j + 1]).Failure? && lines[i] == ErrorLine(token, server, keys[j + 1]);
        }
      }
    }
  }

  /** The first archetype contributes its line, if it failed, ahead of the rest. */
  lemma ErrorLinesUnfold(token: Option<string>, server: string -> Transport<seq<WinLossRecord>>, keys: seq<string>)
    requires keys != []
    ensures ErrorLines(token, server, keys)
      == (if WinRate(token, server, keys[0]).Failure? then [ErrorLine(token, server, keys[0])] else [])
       + ErrorLines(token, server, keys[1..])
  {
  }

  /** The `records` object: one entry per archetype whose fetch succeeded. */
  function Records(token: Option<string>, server: string -> Transport<seq<WinLossRecord>>, keys: seq<string>): (m: map<string, WinLossRecord>)
    ensures forall a :: a in m <==> a in keys && WinRate(token, server, a).Success?
    ensures forall a :: a in m ==> m[a] == WinRate(token, server, a).value && m[a].archetype == a
  {
    map a | a in keys && WinRate(token, server, a).Success? :: WinRate(token, server, a).value
  }

  const WinRatesFailedPrefix: string := "Failed to fetch some win rates:\n"

  /** The answer to the matrix request was a success. */
  predicate MatrixFetched(token: Option<string>, response: Transport<ArchetypeMatrix>) {
    HasToken(token) && response.Http? && IsOk(response.status)
  }

  /** `fetchAndSetData`, run once at mount: the matrix first, then every
      archetype's record; any failure is reported without committing
      anything, and only a complete load fills the state, games descending. */
  function FetchAndSetData(
    token: Option<string>,
    matrixServer: string -> Transport<ArchetypeMatrix>,
    server: string -> Transport<seq<WinLossRecord>>): (r: AppState)
    ensures !r.isLoading && r.sort == Initial.sort
    ensures r.error.Some? ==> r == Initial.(isLoading := false, error := r.error)
    ensures !MatrixFetched(token, matrixServer(MatrixPath)) ==>
      r.error == Some(GetMatchupData(token, NoFilters, NoNumber, matrixServer).error)
    ensures MatrixFetched(token, matrixServer(MatrixPath)) ==>
      var keys := Keys(matrixServer(MatrixPath).body.matrix);
      && (r.error.None? <==> AllFetched(token, server, keys))
      && (r.error.Some? ==> r.error.value == WinRatesFailedPrefix + Join(ErrorLines(token, server, keys), "\n"))
    ensures r.error.None? ==>
      var keys := Keys(matrixServer(MatrixPath).body.matrix);
      && MatrixFetched(token, matrixServer(MatrixPath))
      && r.matchupData == matrixServer(MatrixPath).body.matrix
      && (forall a :: a in r.records <==> a in keys)
      && (forall a :: a in r.records ==> r.records[a].archetype == a)
      && (forall a :: a in r.records ==> r.records[a] == WinRate(token, server, a).value)
      && r.archetypes == SortArchetypes(ByGames, Desc, Tallies(r.records), keys)
      && multiset(r.archetypes) == multiset(keys)
      && r.visible == r.archetypes
      && (forall i, j :: 0 <= i < j < |r.archetypes| ==>
            GamesOf(Tallies(r.records), r.archetypes[i]) >= GamesOf(Tallies(r.records), r.archetypes[j]))
  {
    UnfilteredMatrixEndpoint(NoNumber);
    match GetMatchupData(token, NoFilters, NoNumber, matrixServer)
    case Failure(m) => Initial.(isLoading := false, error := Some(m))
    case Success(data) =>
      var keys := Keys(data.matrix);
      var lines := ErrorLines(token, server, keys);
      if lines != [] then
        Initial.(isLoading := false, error := Some(WinRatesFailedPrefix + Join(lines, "\n")))
      else
        var records := Records(token, server, keys);
        var sorted := SortArchetypes(ByGames, Desc, Tallies(records), keys);
        Initial.(matchupData := data.matrix, records := records, archetypes := sorted, visible := sorted, isLoading := false)
  }

  /** The load leaves the lists in the order the sort control shows. */
  lemma FetchIsConsistent(
    token: Option<string>,
    matrixServer: string -> Transport<ArchetypeMatrix>,
    server: string -> Transport<seq<WinLossRecord>>)
    ensures Consistent(FetchAndSetData(token, matrixServer, server))
  {
    var r := FetchAndSetData(token, matrixServer, server);
    if r.error.None? {
      assert r.archetypes == Sort(OrderOf(r), Keys(matrixServer(MatrixPath).body.matrix));
    }
  }

  /** An archetype the records endpoint does not list fails the whole load:
      it is reported as an error rather than shown with an empty record. */
  lemma MissingRecordFailsLoad(
    token: Option<string>,
    matrixServer: string -> Transport<ArchetypeMatrix>,
    server: string -> Transport<seq<WinLossRecord>>,
    a: string)
    requires MatrixFetched(token, matrixServer(MatrixPath)) && a in Keys(matrixServer(MatrixPath).body.matrix)
    requires var answer := server(RecordsPath + "?archetype=" + a);
      answer.Http? && IsOk(answer.status) && forall i :: 0 <= i < |answer.body| ==> answer.body[i].archetype != a
    ensures FetchAndSetData(token, matrixServer, server).error.Some?
  {
    var keys := Keys(matrixServer(MatrixPath).body.matrix);
    var i :| 0 <= i < |keys| && keys[i] == a;
    assert WinRate(token, server, keys[i]).Failure?;
  }

  // ------------------------------------------------------------------ screen

  /** What `App` renders. */
  datatype Screen =
    | LoadingScreen
    | ErrorScreen(message: string)
    | Dashboard(sidebar: seq<string>, matrix: seq<string>, sort: SortState)

  /** Loading wins over an error, and an error message counts only when it
      is not empty (JavaScript truthiness). */
  function View(s: AppState): (v: Screen)
    ensures v.LoadingScreen? <==> s.isLoading
    ensures v.ErrorScreen? <==> !s.isLoading && s.error.Some? && s.error.value != ""
    ensures v.ErrorScreen? ==> v.message == s.error.value
    ensures v.Dashboard? ==>
      && multiset(v.sidebar) == multiset(s.archetypes)
      && (forall i, j :: 0 <= i < j < |v.sidebar| ==> StrCompare(v.sidebar[i], v.sidebar[j]) <= 0)
      && v.matrix == s.visible && v.sort == s.sort
  {
    if s.isLoading then LoadingScreen
    else if s.error.Some? && s.error.value != "" then ErrorScreen(s.error.value)
    else Dashboard(SidebarArchetypes(s), s.visible, s.sort)
  }

  /** After the load the screen is never the loading one; a failed record
      fetch always shows its message, and a complete load shows every
      archetype in the matrix. */
  lemma LoadEndsLoading(
    token: Option<string>,
    matrixServer: string -> Transport<ArchetypeMatrix>,
    server: string -> Transport<seq<WinLossRecord>>)
    ensures !View(FetchAndSetData(token, matrixServer, server)).LoadingScreen?
    ensures MatrixFetched(token, matrixServer(MatrixPath)) && !AllFetched(token, server, Keys(matrixServer(MatrixPath).body.matrix)) ==>
      View(FetchAndSetData(token, matrixServer, server)).ErrorScreen?
    ensures MatrixFetched(token, matrixServer(MatrixPath)) && AllFetched(token, server, Keys(matrixServer(MatrixPath).body.matrix)) ==>
      var v := View(FetchAndSetData(token, matrixServer, server));
      v.Dashboard? && multiset(v.matrix) == multiset(Keys(matrixServer(MatrixPath).body.matrix))
  {
    var r := FetchAndSetData(token, matrixServer, server);
    if r.error.Some? && MatrixFetched(token, matrixServer(MatrixPath)) {
      assert WinRatesFailedPrefix <= r.error.value;
    }
  }
}
