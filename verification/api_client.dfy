/** The API client (src/lib/api-client.ts): request construction for the two
    endpoints, the HTTP error mapping of `fetchJson`, and the record lookup of
    `getArchetypeWinRate`. The network is a parameter: `Transport` is the
    answer the server gives to the request built here. */
module ApiClient {
  import opened Wrappers
  import opened Strings
  import opened Shapes

  /** The `TimeFrame` type; its wire names are `3_months` and so on. */
  datatype TimeFrame = ThreeMonths | SixMonths | OneYear | AllTime

  function TimeFrameName(t: TimeFrame): string {
    match t
    case ThreeMonths => "3_months"
    case SixMonths => "6_months"
    case OneYear => "1_year"
    case AllTime => "all_time"
  }

  function TimeFrameFromName(s: string): Option<TimeFrame> {
    if s == "3_months" then Some(ThreeMonths)
    else if s == "6_months" then Some(SixMonths)
    else if s == "1_year" then Some(OneYear)
    else if s == "all_time" then Some(AllTime)
    else None
  }

  lemma TimeFrameNameRoundTrip(t: TimeFrame)
    ensures TimeFrameFromName(TimeFrameName(t)) == Some(t)
  {
  }

  /** A query parameter; percent-encoding by `URLSearchParams` is not
      modelled, and a number keeps its value until it is rendered. */
  datatype ParamValue = Text(text: string) | Number(number: real)
  datatype Param = Param(key: Key, value: ParamValue)

  /** The query keys the two builders use. */
  datatype Key = ArchetypeKey | TimeFrameKey | MinPercentageKey | StartDateKey | EndDateKey

  function KeyName(k: Key): string {
    match k
    case ArchetypeKey => "archetype"
    case TimeFrameKey => "time_frame"
    case MinPercentageKey => "min_percentage"
    case StartDateKey => "start_date"
    case EndDateKey => "end_date"
  }

  /** Distinct keys are written differently on the wire. */
  lemma KeyNameInjective(k: Key, l: Key)
    ensures KeyName(k) == KeyName(l) <==> k == l
  {
    if k != l {
      assert KeyName(k)[1] != KeyName(l)[1] || |KeyName(k)| != |KeyName(l)|;
    }
  }

  /** The optional arguments both request builders take. */
  datatype Filters = Filters(
    timeFrame: Option<TimeFrame>, minPercentage: Option<real>, startDate: Option<string>, endDate: Option<string>)

  const NoFilters: Filters := Filters(None, None, None, None)

  /** A string argument counts when it is given and not empty (JavaScript truthiness). */
  predicate Given(s: Option<string>) {
    s.Some? && s.value != ""
  }

  function ParamKeys(q: seq<Param>): (ks: seq<Key>)
    ensures |ks| == |q|
  {
    if q == [] then [] else [q[0].key] + ParamKeys(q[1..])
  }

  /** Position of a filter key in the order the builders append them; 4 for the archetype. */
  function Rank(key: Key): nat {
    match key
    case TimeFrameKey => 0
    case MinPercentageKey => 1
    case StartDateKey => 2
    case EndDateKey => 3
    case ArchetypeKey => 4
  }

  /** Each filter's contribution to the query: one parameter or none. */
  function TimeFrameParam(f: Filters): seq<Param> {
    if f.timeFrame.Some? && f.timeFrame.value != AllTime
    then [Param(TimeFrameKey, Text(TimeFrameName(f.timeFrame.value)))] else []
  }

  function PercentageParam(f: Filters): seq<Param> {
    if f.minPercentage.Some? then [Param(MinPercentageKey, Number(f.minPercentage.value))] else []
  }

  function StartDateParam(f: Filters): seq<Param> {
    if Given(f.startDate) then [Param(StartDateKey, Text(f.startDate.value))] else []
  }

  function EndDateParam(f: Filters): seq<Param> {
    if Given(f.endDate) then [Param(EndDateKey, Text(f.endDate.value))] else []
  }

  /** The filter parameters of both builders: `time_frame` unless absent or
      `all_time`, `min_percentage` whenever defined (0 included), and each date
      when non-empty, always in that order and each at most once. */
  function FilterParams(f: Filters): (q: seq<Param>)
    ensures TimeFrameKey in ParamKeys(q) <==> f.timeFrame.Some? && f.timeFrame.value != AllTime
    ensures MinPercentageKey in ParamKeys(q) <==> f.minPercentage.Some?
    ensures StartDateKey in ParamKeys(q) <==> Given(f.startDate)
    ensures EndDateKey in ParamKeys(q) <==> Given(f.endDate)
    ensures forall i, j :: 0 <= i < j < |q| ==> Rank(q[i].key) < Rank(q[j].key)
    ensures forall i :: 0 <= i < |q| ==> Rank(q[i].key) < 4
  {
    FilterKeys(f);
    FilterRanks(f);
    FilterQuery(f)
  }

  /** The four contributions, concatenated. */
  function FilterQuery(f: Filters): seq<Param> {
    TimeFrameParam(f) + PercentageParam(f) + StartDateParam(f) + EndDateParam(f)
  }

  lemma FilterRanks(f: Filters)
    ensures var q := TimeFrameParam(f) + PercentageParam(f) + StartDateParam(f) + EndDateParam(f);
      && (forall i, j :: 0 <= i < j < |q| ==> Rank(q[i].key) < Rank(q[j].key))
      && (forall i :: 0 <= i < |q| ==> Rank(q[i].key) < 4)
  {
    var a, b, c, d := TimeFrameParam(f), PercentageParam(f), StartDateParam(f), EndDateParam(f);
    var q := a + b + c + d;
    // each part holds at most one parameter, whose rank is the part's position
    assert forall i :: 0 <= i < |a| ==> Rank(a[i].key) == 0;
    assert forall i :: 0 <= i < |b| ==> Rank(b[i].key) == 1;
    assert forall i :: 0 <= i < |c| ==> Rank(c[i].key) == 2;
    assert forall i :: 0 <= i < |d| ==> Rank(d[i].key) == 3;
    forall i | 0 <= i < |q| ensures Rank(q[i].key) == PartOf(i, |a|, |b|, |c|) {
    }
  }

  /** Which of four consecutive parts of the given lengths holds position `i`. */
  function PartOf(i: nat, la: nat, lb: nat, lc: nat): nat {
    if i < la then 0 else if i < la + lb then 1 else if i < la + lb + lc then 2 else 3
  }

  lemma FilterKeys(f: Filters)
    ensures TimeFrameKey in ParamKeys(FilterQuery(f)) <==> f.timeFrame.Some? && f.timeFrame.value != AllTime
    ensures MinPercentageKey in ParamKeys(FilterQuery(f)) <==> f.minPercentage.Some?
    ensures StartDateKey in ParamKeys(FilterQuery(f)) <==> Given(f.startDate)
    ensures EndDateKey in ParamKeys(FilterQuery(f)) <==> Given(f.endDate)
  {
    var q := FilterQuery(f);
    FilterQueryLookup(f, TimeFrameKey);
    GetParamFinds(q, TimeFrameKey);
    FilterQueryLookup(f, MinPercentageKey);
    GetParamFinds(q, MinPercentageKey);
    FilterQueryLookup(f, StartDateKey);
    GetParamFinds(q, StartDateKey);
    FilterQueryLookup(f, EndDateKey);
    GetParamFinds(q, EndDateKey);
  }

  /** `params.get(key)`: the first parameter with that key. */
  function GetParam(q: seq<Param>, key: Key): Option<ParamValue> {
    if q == [] then None
    else if q[0].key == key then Some(q[0].value)
    else GetParam(q[1..], key)
  }

  /** Reading the filters back out of a query, as the server does. */
  function DecodeFilters(q: seq<Param>): Filters {
    Filters(DecodeTimeFrame(q), DecodeNumber(q, MinPercentageKey), DecodeText(q, StartDateKey), DecodeText(q, EndDateKey))
  }

  function DecodeTimeFrame(q: seq<Param>): Option<TimeFrame> {
    match GetParam(q, TimeFrameKey) case Some(Text(s)) => TimeFrameFromName(s) case _ => None
  }

  function DecodeNumber(q: seq<Param>, key: Key): Option<real> {
    match GetParam(q, key) case Some(Number(n)) => Some(n) case _ => None
  }

  function DecodeText(q: seq<Param>, key: Key): Option<string> {
    match GetParam(q, key) case Some(Text(s)) => Some(s) case _ => None
  }

  /** The filters as the server sees them: `all_time` and empty dates mean "not given". */
  function Normalize(f: Filters): Filters {
    Filters(
      if f.timeFrame == Some(AllTime) then None else f.timeFrame,
      f.minPercentage,
      if Given(f.startDate) then f.startDate else None,
      if Given(f.endDate) then f.endDate else None)
  }

  /** The query carries exactly the normalised filters. */
  lemma FilterParamsRoundTrip(f: Filters)
    ensures DecodeFilters(FilterParams(f)) == Normalize(f)
  {
    var q := FilterParams(f);
    assert q == FilterQuery(f);
    FilterParamsTimeFrame(f);
    FilterParamsPercentage(f);
    FilterParamsStart(f);
    FilterParamsEnd(f);
    assert DecodeFilters(q) == Filters(DecodeTimeFrame(q), DecodeNumber(q, MinPercentageKey), DecodeText(q, StartDateKey), DecodeText(q, EndDateKey));
  }

  lemma FilterParamsTimeFrame(f: Filters)
    ensures DecodeTimeFrame(FilterQuery(f)) == Normalize(f).timeFrame
  {
    FilterQueryLookup(f, TimeFrameKey);
    if TimeFrameParam(f) != [] {
      TimeFrameNameRoundTrip(f.timeFrame.value);
    }
  }

  lemma FilterParamsPercentage(f: Filters)
    ensures DecodeNumber(FilterQuery(f), MinPercentageKey) == f.minPercentage
  {
    FilterQueryLookup(f, MinPercentageKey);
  }

  lemma FilterParamsStart(f: Filters)
    ensures DecodeText(FilterQuery(f), StartDateKey) == Normalize(f).startDate
  {
    FilterQueryLookup(f, StartDateKey);
  }

  lemma FilterParamsEnd(f: Filters)
    ensures DecodeText(FilterQuery(f), EndDateKey) == Normalize(f).endDate
  {
    FilterQueryLookup(f, EndDateKey);
  }

  /** The earlier answer when there is one, else the later. */
  function OrElse<T>(x: Option<T>, y: Option<T>): Option<T> {
    if x.Some? then x else y
  }

  /** A lookup in the filter query asks each part in turn. */
  lemma FilterQueryLookup(f: Filters, key: Key)
    ensures GetParam(FilterQuery(f), key)
      == OrElse(OrElse(OrElse(GetParam(TimeFrameParam(f), key), GetParam(PercentageParam(f), key)),
                       GetParam(StartDateParam(f), key)),
                GetParam(EndDateParam(f), key))
  {
    var a, b, c, d := TimeFrameParam(f), PercentageParam(f), StartDateParam(f), EndDateParam(f);
    GetParamAppend(a + b + c, d, key);
    GetParamAppend(a + b, c, key);
    GetParamAppend(a, b, key);
  }

  /** A lookup in a concatenation finds the first part's answer, or else the second's. */
  lemma {:induction false} GetParamAppend(a: seq<Param>, b: seq<Param>, key: Key)
    ensures GetParam(a + b, key) == OrElse(GetParam(a, key), GetParam(b, key))
  {
    if a == [] {
      assert a + b == b;
    } else {
      assert (a + b)[0] == a[0];
      assert (a + b)[1..] == a[1..] + b;
      GetParamAppend(a[1..], b, key);
    }
  }

  /** A lookup answers exactly when some parameter carries the key. */
  lemma {:induction false} GetParamFinds(q: seq<Param>, key: Key)
    ensures GetParam(q, key).Some? <==> key in ParamKeys(q)
  {
    if q != [] {
      assert ParamKeys(q) == [q[0].key] + ParamKeys(q[1..]);
      GetParamFinds(q[1..], key);
    }
  }

  /** Two filter settings send the same query exactly when they agree once normalised. */
  lemma SameQueryIffSameFilters(f: Filters, g: Filters)
    ensures FilterParams(f) == FilterParams(g) <==> Normalize(f) == Normalize(g)
  {
    FilterParamsRoundTrip(f);
    FilterParamsRoundTrip(g);
    if Normalize(f) == Normalize(g) {
      assert TimeFrameParam(f) == TimeFrameParam(g);
      assert PercentageParam(f) == PercentageParam(g);
      assert StartDateParam(f) == StartDateParam(g);
      assert EndDateParam(f) == EndDateParam(g);
    }
  }

  /** `URLSearchParams.toString()` without percent-encoding: `key=value`
      pairs joined by `&`; `show` renders a number as `Number.toString` does. */
  function QueryString(q: seq<Param>, show: real -> string): (s: string)
    ensures s == "" <==> q == []
  {
    if q == [] then ""
    else
      var v := match q[0].value case Text(t) => t case Number(n) => show(n);
      var pair := KeyName(q[0].key) + "=" + v;
      if |q| == 1 then pair else pair + "&" + QueryString(q[1..], show)
  }

  const MatrixPath: string := "/analysis/archetype-matrix"
  const RecordsPath: string := "/analysis/win-loss-records"

  /** `getMatchupData`'s endpoint: the path, followed by `?` and the query
      only when there is a query. */
  function MatrixEndpoint(f: Filters, show: real -> string): (url: string)
    ensures |url| >= |MatrixPath|
    ensures url[..|MatrixPath|] == MatrixPath
    ensures url == MatrixPath <==> FilterParams(f) == []
    ensures FilterParams(f) != [] ==> url[|MatrixPath|] == '?' && url[|MatrixPath| + 1..] == QueryString(FilterParams(f), show)
  {
    var qs := QueryString(FilterParams(f), show);
    MatrixPath + (if qs != "" then "?" + qs else "")
  }

  /** `getArchetypeWinRate`'s query: the archetype first, then the filters. */
  function RecordsParams(archetype: string, f: Filters): (q: seq<Param>)
    ensures |q| >= 1
    ensures q[0] == Param(ArchetypeKey, Text(archetype)) && q[1..] == FilterParams(f)
  {
    [Param(ArchetypeKey, Text(archetype))] + FilterParams(f)
  }

  /** `getArchetypeWinRate`'s endpoint always has a `?`, and its query is never empty. */
  function RecordsEndpoint(archetype: string, f: Filters, show: real -> string): (url: string)
    ensures |url| > |RecordsPath|
    ensures url[..|RecordsPath|] == RecordsPath && url[|RecordsPath|] == '?'
    ensures url[|RecordsPath| + 1..] == QueryString(RecordsParams(archetype, f), show) != ""
  {
    RecordsPath + "?" + QueryString(RecordsParams(archetype, f), show)
  }

  /** Without filters there is no query string at all. */
  lemma UnfilteredMatrixEndpoint(show: real -> string)
    ensures MatrixEndpoint(NoFilters, show) == MatrixPath
    ensures MatrixEndpoint(Filters(Some(AllTime), None, Some(""), Some("")), show) == MatrixPath
  {
  }

  /** What the server answers: a failure to reach it, or a status, the body as text, and the parsed body. */
  datatype Transport<T> = NetworkError(message: string) | Http(status: nat, text: string, body: T)

  /** `response.ok`. */
  predicate IsOk(status: nat) {
    200 <= status <= 299
  }

  /** The token counts when it is configured and not empty. */
  predicate HasToken(token: Option<string>) {
    token.Some? && token.value != ""
  }

  /** The first word of both authentication messages. It is a constant of
      its own so that the verifier can read the messages' first letters. */
  const Authentication: string := "Authentication"
  const TokenMissingMessage: string :=
    Authentication + " token not configured. Please set VITE_JWT_TOKEN environment variable."
  const AuthRequiredMessage: string := Authentication + " required. Please check your JWT token."
  const ApiErrorPrefix: string := "API error: "

  function ApiErrorMessage(status: nat, text: string): string {
    ApiErrorPrefix + NatToString(status) + " - " + text
  }

  /** `fetchJson`: a missing token fails before any request is made;
      a 403 is an authentication failure; any other non-OK status reports
      the status and the body text. */
  function FetchJson<T>(token: Option<string>, response: Transport<T>): (r: Result<T, string>)
    ensures !HasToken(token) ==> r == Failure(TokenMissingMessage)
    ensures HasToken(token) ==> (r.Success? <==> response.Http? && IsOk(response.status))
    ensures HasToken(token) && r.Success? ==> r.value == response.body
    ensures HasToken(token) && response.NetworkError? ==> r == Failure(response.message)
    ensures HasToken(token) && response.Http? && !IsOk(response.status) ==>
      r == Failure(if response.status == 403 then AuthRequiredMessage else ApiErrorMessage(response.status, response.text))
  {
    if !HasToken(token) then Failure(TokenMissingMessage)
    else match response
      case NetworkError(m) => Failure(m)
      case Http(status, text, body) =>
        if IsOk(status) then Success(body)
        else if status == 403 then Failure(AuthRequiredMessage)
        else Failure(ApiErrorMessage(status, text))
  }

  /** The kinds of failure `fetchJson` reports. */
  datatype FetchErrorKind = TokenMissing | AuthRequired | ApiError(status: nat) | Unrecognised

  /** Reading the kind of failure back from its message. */
  function ClassifyError(message: string): FetchErrorKind {
    if message == TokenMissingMessage then TokenMissing
    else if message == AuthRequiredMessage then AuthRequired
    else if ApiErrorPrefix <= message then
      var digits := LeadingDigits(message[|ApiErrorPrefix|..]);
      if digits == "" then Unrecognised else ApiError(ParseDigits(digits))
    else Unrecognised
  }

  /** Every message `fetchJson` builds itself names its cause unambiguously. */
  lemma ClassifyFetchJson<T>(token: Option<string>, status: nat, text: string, body: T)
    ensures ClassifyError(FetchJson(None, Http(status, text, body)).error) == TokenMissing
    ensures HasToken(token) && !IsOk(status) && status == 403 ==>
      ClassifyError(FetchJson(token, Http(status, text, body)).error) == AuthRequired
    ensures HasToken(token) && !IsOk(status) && status != 403 ==>
      ClassifyError(FetchJson(token, Http(status, text, body)).error) == ApiError(status)
  {
    if HasToken(token) && !IsOk(status) && status != 403 {
      var m := ApiErrorMessage(status, text);
      var d := NatToString(status);
      assert m == ApiErrorPrefix + (d + " - " + text);
      assert m != TokenMissingMessage by {
        assert m[1] == ApiErrorPrefix[1] == 'P';
        assert TokenMissingMessage[1] == 'u';
      }
      assert m != AuthRequiredMessage by {
        assert m[1] == ApiErrorPrefix[1] == 'P';
        assert AuthRequiredMessage[1] == 'u';
      }
      assert m[|ApiErrorPrefix|..] == d + (" - " + text);
      LeadingDigitsOfDigits(d, " - " + text);
      NatToStringRoundTrip(status);
    }
  }

  /** The matrix endpoint's body. */
  datatype ArchetypeMatrix = ArchetypeMatrix(
    archetypes: seq<string>, matrix: Obj<Obj<ApiMatchup>>, timeFrame: string,
    startDate: Option<string>, endDate: Option<string>, minPercentage: Option<real>)

  /** `getMatchupData(f)`: the body of the server's answer to `MatrixEndpoint(f)`,
      or `fetchJson`'s error for it. `server` answers each endpoint. */
  function GetMatchupData(token: Option<string>, f: Filters, show: real -> string, server: string -> Transport<ArchetypeMatrix>): (r: Result<ArchetypeMatrix, string>)
    ensures var response := server(MatrixEndpoint(f, show));
      && (r.Success? <==> HasToken(token) && response.Http? && IsOk(response.status))
      && (r.Success? ==> r.value == response.body)
      && (r.Failure? ==> r.error == FetchJson(token, response).error)
  {
    FetchJson(token, server(MatrixEndpoint(f, show)))
  }

  function NoRecordMessage(archetype: string): string {
    "No record found for archetype: " + archetype
  }

  /** `records.find(r => r.archetype === archetype)`, failing when there is none. */
  function FindRecord(records: seq<WinLossRecord>, archetype: string): (r: Result<WinLossRecord, string>)
    ensures r.Success? ==>
      exists i :: 0 <= i < |records| && records[i] == r.value && records[i].archetype == archetype
        && forall j :: 0 <= j < i ==> records[j].archetype != archetype
    ensures r.Failure? ==>
      r.error == NoRecordMessage(archetype) && forall i :: 0 <= i < |records| ==> records[i].archetype != archetype
  {
    if records == [] then Failure(NoRecordMessage(archetype))
    else if records[0].archetype == archetype then Success(records[0])
    else
      var rest := FindRecord(records[1..], archetype);
      assert rest.Success? ==>
        exists i :: 0 <= i < |records| && records[i] == rest.value && records[i].archetype == archetype
          && forall j :: 0 <= j < i ==> records[j].archetype != archetype
      by {
        if rest.Success? {
          var i :| 0 <= i < |records[1..]| && records[1..][i] == rest.value && records[1..][i].archetype == archetype
            && forall j :: 0 <= j < i ==> records[1..][j].archetype != archetype;
          assert records[i + 1] == rest.value;
          forall j | 0 <= j < i + 1 ensures records[j].archetype != archetype {
            if j > 0 { assert records[j] == records[1..][j - 1]; }
          }
        }
      }
      rest
  }

  /** `getArchetypeWinRate(archetype, f)`: the first record for the archetype
      in the body of the answer to `RecordsEndpoint(archetype, f)`; a
      `fetchJson` failure passes through and a missing record is itself a failure. */
  function GetArchetypeWinRate(
    token: Option<string>, archetype: string, f: Filters, show: real -> string,
    server: string -> Transport<seq<WinLossRecord>>): (r: Result<WinLossRecord, string>)
    ensures var response := server(RecordsEndpoint(archetype, f, show));
      && (!(HasToken(token) && response.Http? && IsOk(response.status)) ==> r == Failure(FetchJson(token, response).error))
      && (HasToken(token) && response.Http? && IsOk(response.status) ==>
            && (r.Success? ==>
                  exists i :: 0 <= i < |response.body| && response.body[i] == r.value && r.value.archetype == archetype
                    && forall j :: 0 <= j < i ==> response.body[j].archetype != archetype)
            && (r.Failure? <==> forall i :: 0 <= i < |response.body| ==> response.body[i].archetype != archetype)
            && (r.Failure? ==> r.error == NoRecordMessage(archetype)))
  {
    RecordIn(token, archetype, server(RecordsEndpoint(archetype, f, show)))
  }

  /** What `getArchetypeWinRate` makes of the answer it receives. */
  function RecordIn(token: Option<string>, archetype: string, response: Transport<seq<WinLossRecord>>): Result<WinLossRecord, string> {
    match FetchJson(token, response)
    case Failure(e) => Failure(e)
    case Success(records) => FindRecord(records, archetype)
  }

  /** The dashboard's unfiltered record request asks for `?archetype=X` and nothing else. */
  lemma UnfilteredRecordsEndpoint(archetype: string, show: real -> string)
    ensures RecordsEndpoint(archetype, NoFilters, show) == RecordsPath + "?archetype=" + archetype
  {
    ArchetypeOnlyQuery(archetype, show);
  }

  lemma ArchetypeOnlyQuery(archetype: string, show: real -> string)
    ensures QueryString(RecordsParams(archetype, NoFilters), show) == "archetype=" + archetype
  {
    NoFilterParams();
    var q := RecordsParams(archetype, NoFilters);
    assert q == [Param(ArchetypeKey, Text(archetype))];
    assert QueryString(q, show) == KeyName(ArchetypeKey) + "=" + archetype;
  }

  lemma NoFilterParams()
    ensures FilterParams(NoFilters) == []
  {
    assert FilterQuery(NoFilters) == [];
  }
}
