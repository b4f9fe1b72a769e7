/** The `useMetaData` hook (src/hooks/use-meta-data.ts): a fetch that is
    retried up to three times, a five-minute snapshot in local storage, and
    the load that reads the matrix, then every archetype's record, sorts the
    archetypes by games played and writes the snapshot. The network, the
    clock and local storage are parameters: `attempt(k)` is what the k-th
    try of a request yields, `now` and `writeTime` are `Date.now()` readings,
    and `Storage` is the two stored items. */
module MetaData {
  import opened Wrappers
  import opened Strings
  import opened Shapes
  import opened SortEngine
  import opened ApiClient

  const CacheDuration: int := 1000 * 60 * 5
  const RetryAttempts: nat := 3

  // ------------------------------------------------------------------ retry

  /** One try of `fetch`: an answer with a status and a parsed body, or a thrown error. */
  datatype Attempt<T> = Responded(status: nat, body: T) | Threw(message: string)

  /** How a retried request ended, and how many tries it used. */
  datatype Retried<T> = Fetched(body: T, used: nat) | GaveUp(message: string, used: nat)

  predicate Ok<T>(a: Attempt<T>) {
    a.Responded? && IsOk(a.status)
  }

  /** The error a failed try raises: a non-OK answer becomes `Response status: N`. */
  function FailureMessage<T>(a: Attempt<T>): string {
    match a
    case Responded(status, _) => "Response status: " + NatToString(status)
    case Threw(m) => m
  }

  /** `fetchWithRetry` from its k-th try on, with `attempts` tries left. */
  function Retry<T>(attempt: nat -> Attempt<T>, k: nat, attempts: nat): (r: Retried<T>)
    requires attempts >= 1
    ensures k < r.used <= k + attempts
    ensures r.Fetched? ==>
      Ok(attempt(r.used - 1)) && r.body == attempt(r.used - 1).body
      && forall i :: k <= i < r.used - 1 ==> !Ok(attempt(i))
    ensures r.GaveUp? ==>
      r.used == k + attempts && r.message == FailureMessage(attempt(k + attempts - 1))
      && forall i :: k <= i < k + attempts ==> !Ok(attempt(i))
    decreases attempts
  {
    if Ok(attempt(k)) then Fetched(attempt(k).body, k + 1)
    else if attempts == 1 then GaveUp(FailureMessage(attempt(k)), k + 1)
    else Retry(attempt, k + 1, attempts - 1)
  }

  /** `fetchWithRetry(url, attempts)`: the first OK answer among the first
      `attempts` tries; when every try fails, the last failure's error. */
  function FetchWithRetry<T>(attempt: nat -> Attempt<T>, attempts: nat): (r: Retried<T>)
    requires attempts >= 1
    ensures 1 <= r.used <= attempts
    ensures r.Fetched? <==> exists i :: 0 <= i < attempts && Ok(attempt(i))
    ensures r.Fetched? ==>
      Ok(attempt(r.used - 1)) && r.body == attempt(r.used - 1).body
      && forall i :: 0 <= i < r.used - 1 ==> !Ok(attempt(i))
    ensures r.GaveUp? ==> r.used == attempts && r.message == FailureMessage(attempt(attempts - 1))
  {
    Retry(attempt, 0, attempts)
  }

  /** A failure of any kind is retried: what the tries before the first OK
      one were does not change the outcome. */
  lemma FailuresAreInterchangeable<T>(a: nat -> Attempt<T>, b: nat -> Attempt<T>, attempts: nat)
    requires attempts >= 1
    requires forall i :: 0 <= i < attempts ==> Ok(a(i)) == Ok(b(i))
    requires forall i :: 0 <= i < attempts && Ok(a(i)) ==> a(i) == b(i)
    requires a(attempts - 1) == b(attempts - 1)
    ensures FetchWithRetry(a, attempts) == FetchWithRetry(b, attempts)
  {
    RetryInterchangeable(a, b, 0, attempts);
  }

  lemma {:induction false} RetryInterchangeable<T>(a: nat -> Attempt<T>, b: nat -> Attempt<T>, k: nat, attempts: nat)
    requires attempts >= 1
    requires forall i :: k <= i < k + attempts ==> Ok(a(i)) == Ok(b(i))
    requires forall i :: k <= i < k + attempts && Ok(a(i)) ==> a(i) == b(i)
    requires a(k + attempts - 1) == b(k + attempts - 1)
    ensures Retry(a, k, attempts) == Retry(b, k, attempts)
    decreases attempts
  {
    if !Ok(a(k)) && attempts > 1 {
      RetryInterchangeable(a, b, k + 1, attempts - 1);
    }
  }

  /** With the default of three, the request is tried three times before it gives up. */
  lemma ThreeTries<T>(attempt: nat -> Attempt<T>)
    requires !Ok(attempt(0)) && !Ok(attempt(1))
    ensures FetchWithRetry(attempt, RetryAttempts) ==
      if Ok(attempt(2)) then Fetched(attempt(2).body, 3) else GaveUp(FailureMessage(attempt(2)), 3)
  {
  }

  // ------------------------------------------------------------------ cache

  /** The snapshot written under `metaData`. */
  datatype Snapshot = Snapshot(matchupData: Obj<Obj<LegacyMatchup>>, records: map<string, Tally>, archetypes: seq<string>)

  /** The two stored items; `None` stands for an item that is missing or
      empty, and for a timestamp that is not a number. */
  datatype Storage = Storage(data: Option<Snapshot>, timestamp: Option<int>)

  /** The snapshot is used when both items are present and it is less than five minutes old. */
  predicate CacheValid(storage: Storage, now: int) {
    storage.data.Some? && storage.timestamp.Some? && now - storage.timestamp.value < CacheDuration
  }

  /** A snapshot stays valid until exactly 300000 ms after it was written. */
  lemma CacheExpiry(storage: Storage, now: int)
    requires storage.data.Some? && storage.timestamp.Some?
    ensures CacheValid(storage, now) <==> now < storage.timestamp.value + 300000
  {
  }

  /** A snapshot valid now was valid at every earlier moment. */
  lemma CacheValidEarlier(storage: Storage, earlier: int, now: int)
    requires earlier <= now && CacheValid(storage, now)
    ensures CacheValid(storage, earlier)
  {
  }

  // ------------------------------------------------------------------- load

  /** The hook's state. */
  datatype MetaState = MetaState(
    matchupData: Obj<Obj<LegacyMatchup>>, records: map<string, Tally>, archetypes: seq<string>,
    isLoading: bool, error: Option<string>)

  const Empty: MetaState := MetaState([], map[], [], true, None)

  /** What a load leaves behind: the state, local storage, and whether any request was made. */
  datatype Load = Load(state: MetaState, storage: Storage, requested: bool)

  /** The retried request for one archetype's record; `None` is a falsy body. */
  function RecordFetch(recordAttempt: string -> nat -> Attempt<Option<Tally>>, a: string): Retried<Option<Tally>> {
    FetchWithRetry(recordAttempt(a), RetryAttempts)
  }

  /** `Promise.all` over the record requests: the first failure in key
      order, if any. Which failure the source reports depends on timing. */
  function FirstRecordFailure(recordAttempt: string -> nat -> Attempt<Option<Tally>>, keys: seq<string>): (r: Option<string>)
    ensures r.None? <==> forall i :: 0 <= i < |keys| ==> RecordFetch(recordAttempt, keys[i]).Fetched?
    ensures r.Some? ==> exists i :: 0 <= i < |keys| && RecordFetch(recordAttempt, keys[i]) == GaveUp(r.value, RetryAttempts)
  {
    if keys == [] then None
    else match RecordFetch(recordAttempt, keys[0])
      case GaveUp(m, _) => Some(m)
      case Fetched(_, _) =>
        var rest := FirstRecordFailure(recordAttempt, keys[1..]);
        assert rest.Some? ==> exists i :: 0 <= i < |keys| && RecordFetch(recordAttempt, keys[i]) == GaveUp(rest.value, RetryAttempts) by {
          if rest.Some? {
            var i :| 0 <= i < |keys[1..]| && RecordFetch(recordAttempt, keys[1..][i]) == GaveUp(rest.value, RetryAttempts);
            assert keys[1..][i] == keys[i + 1];
          }
        }
        assert rest.None? ==> forall i :: 0 <= i < |keys| ==> RecordFetch(recordAttempt, keys[i]).Fetched? by {
          if rest.None? {
            forall i | 0 <= i < |keys| ensures RecordFetch(recordAttempt, keys[i]).Fetched? {
              if i > 0 { assert keys[i] == keys[1..][i - 1]; }
            }
          }
        }
        rest
  }

  /** The `records` object: an entry for each archetype whose body is truthy. */
  function CollectRecords(recordAttempt: string -> nat -> Attempt<Option<Tally>>, keys: seq<string>): (m: map<string, Tally>)
    requires forall i :: 0 <= i < |keys| ==> RecordFetch(recordAttempt, keys[i]).Fetched?
    ensures forall a :: a in m <==> a in keys && RecordFetch(recordAttempt, a).body.Some?
    ensures forall a :: a in m ==> m[a] == RecordFetch(recordAttempt, a).body.value
  {
    map a | a in keys && RecordFetch(recordAttempt, a).body.Some? :: RecordFetch(recordAttempt, a).body.value
  }

  /** The two items written after a fetch: the state's snapshot and the time of writing. */
  function Stored(state: MetaState, time: int): Storage {
    Storage(Some(Snapshot(state.matchupData, state.records, state.archetypes)), Some(time))
  }

  /** The part of the load after the matrix arrived with results: every
      record, then the sort and the write; a failed record request commits nothing. */
  function LoadResults(
    storage: Storage, results: Obj<Obj<LegacyMatchup>>,
    recordAttempt: string -> nat -> Attempt<Option<Tally>>, writeTime: int): (r: Load)
    ensures r.requested && !r.state.isLoading
    ensures r.state.error.None? <==> forall i :: 0 <= i < |Keys(results)| ==> RecordFetch(recordAttempt, Keys(results)[i]).Fetched?
    ensures r.state.error.Some? ==> r.state.error == FirstRecordFailure(recordAttempt, Keys(results))
    ensures r.state.error.Some? ==> r.state == Empty.(isLoading := false, error := r.state.error) && r.storage == storage
    ensures r.state.error.None? ==>
      && r.storage == Stored(r.state, writeTime)
      && r.state.matchupData == results
      && multiset(r.state.archetypes) == multiset(Keys(results))
      && (forall a :: a in r.state.records <==> a in Keys(results) && RecordFetch(recordAttempt, a).body.Some?)
      && (forall a :: a in r.state.records ==> r.state.records[a] == RecordFetch(recordAttempt, a).body.value)
      && r.state.archetypes == SortArchetypes(ByGames, Desc, r.state.records, Keys(results))
      && (forall i, j :: 0 <= i < j < |r.state.archetypes| ==>
            GamesOf(r.state.records, r.state.archetypes[i]) >= GamesOf(r.state.records, r.state.archetypes[j]))
  {
    var keys := Keys(results);
    match FirstRecordFailure(recordAttempt, keys)
    case Some(m) => Load(Empty.(isLoading := false, error := Some(m)), storage, true)
    case None =>
      var records := CollectRecords(recordAttempt, keys);
      var sorted := SortArchetypes(ByGames, Desc, records, keys);
      var state := MetaState(results, records, sorted, false, None);
      Load(state, Stored(state, writeTime), true)
  }

  /** `fetchAndSetData` of the hook, for a component that stays mounted. */
  function LoadMetaData(
    storage: Storage, now: int,
    matrixAttempt: nat -> Attempt<Option<Obj<Obj<LegacyMatchup>>>>,
    recordAttempt: string -> nat -> Attempt<Option<Tally>>,
    writeTime: int): (r: Load)
    ensures !r.state.isLoading
    ensures r.requested <==> !CacheValid(storage, now)
    ensures CacheValid(storage, now) ==>
      var snap := storage.data.value;
      r.state == MetaState(snap.matchupData, snap.records, snap.archetypes, false, None) && r.storage == storage
    ensures r.storage == storage || (r.storage == Stored(r.state, writeTime) && r.state.error.None?)
    ensures r.state.error.Some? ==> r.state == Empty.(isLoading := false, error := r.state.error) && r.storage == storage
    ensures !CacheValid(storage, now) && FetchWithRetry(matrixAttempt, RetryAttempts).GaveUp? ==>
      r.state.error == Some(FetchWithRetry(matrixAttempt, RetryAttempts).message)
    ensures !CacheValid(storage, now) && FetchWithRetry(matrixAttempt, RetryAttempts).Fetched? ==>
      var body := FetchWithRetry(matrixAttempt, RetryAttempts).body;
      && (body.None? ==> r.state == Empty.(isLoading := false) && r.storage == storage)
      && (body.Some? ==>
            (r.state.error.None? <==> forall i :: 0 <= i < |Keys(body.value)| ==> RecordFetch(recordAttempt, Keys(body.value)[i]).Fetched?))
      && (body.Some? && r.state.error.Some? ==> r.state.error == FirstRecordFailure(recordAttempt, Keys(body.value)))
      && (body.Some? && r.state.error.None? ==>
            && r.storage == Stored(r.state, writeTime)
            && r.state.matchupData == body.value
            && multiset(r.state.archetypes) == multiset(Keys(body.value))
            && (forall a :: a in r.state.records <==> a in Keys(body.value) && RecordFetch(recordAttempt, a).body.Some?)
            && (forall a :: a in r.state.records ==> r.state.records[a] == RecordFetch(recordAttempt, a).body.value)
            && r.state.archetypes == SortArchetypes(ByGames, Desc, r.state.records, Keys(body.value))
            && (forall i, j :: 0 <= i < j < |r.state.archetypes| ==>
                  GamesOf(r.state.records, r.state.archetypes[i]) >= GamesOf(r.state.records, r.state.archetypes[j])))
  {
    if CacheValid(storage, now) then
      var snap := storage.data.value;
      Load(MetaState(snap.matchupData, snap.records, snap.archetypes, false, None), storage, false)
    else match FetchWithRetry(matrixAttempt, RetryAttempts)
      case GaveUp(m, _) => Load(Empty.(isLoading := false, error := Some(m)), storage, true)
      case Fetched(body, _) =>
        if body.None? then Load(Empty.(isLoading := false), storage, true)
        else
        LoadResults(storage, body.value, recordAttempt, writeTime)
  }

  /** A reload within five minutes of a successful load makes no request
      and shows exactly what the load showed. */
  lemma ReloadServesSnapshot(
    storage: Storage, now: int,
    matrixAttempt: nat -> Attempt<Option<Obj<Obj<LegacyMatchup>>>>,
    recordAttempt: string -> nat -> Attempt<Option<Tally>>,
    writeTime: int,
    later: int,
    matrixAttempt': nat -> Attempt<Option<Obj<Obj<LegacyMatchup>>>>,
    recordAttempt': string -> nat -> Attempt<Option<Tally>>,
    writeTime': int)
    requires
      var first := LoadMetaData(storage, now, matrixAttempt, recordAttempt, writeTime);
      first.storage == Stored(first.state, writeTime) && first.state.error.None?
    requires later - writeTime < CacheDuration
    ensures
      var first := LoadMetaData(storage, now, matrixAttempt, recordAttempt, writeTime);
      var second := LoadMetaData(first.storage, later, matrixAttempt', recordAttempt', writeTime');
      !second.requested && second.state == first.state && second.storage == first.storage
  {
  }
}
