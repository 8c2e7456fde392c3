/** `syncPostTypeFromAirtable`, `syncAllFromAirtable` and the in-memory
    store they fill (lib/admin/sync-utils.ts). The fetch of a table is a
    parameter: a function from the table name to what the fetch answered. */
module SyncStore {
  import opened Wrappers
  import opened Text
  import opened AirtableRecords
  import opened FieldMappings
  import opened Normalizer

  /** `records.map(processRecord)`: one app record per fetched record, in
      fetch order, or the first record's error, which aborts the batch. */
  function NormalizeAll(records: seq<RawRecord>, ms: seq<FieldMapping>, now: string): (r: Result<seq<Entity>>)
    ensures r.Ok? <==> forall i :: 0 <= i < |records| ==> NormalizeRecord(records[i], ms, now).Ok?
    ensures r.Ok? ==> |r.value| == |records|
    ensures r.Ok? ==> forall i :: 0 <= i < |records| ==> r.value[i] == NormalizeRecord(records[i], ms, now).value
    ensures r.Err? ==> exists i :: 0 <= i < |records| && NormalizeRecord(records[i], ms, now) == Err(r.error)
    decreases |records|
  {
    if records == [] then Ok([])
    else
      var n := |records| - 1;
      var before := NormalizeAll(records[..n], ms, now);
      if before.Err? then Err(before.error)
      else
        var last := NormalizeRecord(records[n], ms, now);
        if last.Err? then Err(last.error) else Ok(before.value + [last.value])
  }

  /** What one sync of `t` reaches: the processed records, or the message of
      the error raised by the fetch or by processing. */
  function Normalized(t: PostType, env: TableEnv, source: MappingSource,
                      fetch: string -> FetchResult, now: string): Result<seq<Entity>>
  {
    match fetch(AirtableTableName(t, env))
    case Err(e) => Err(e)
    case Ok(records) => NormalizeAll(records, GetFieldMappings(Some(t), source), now)
  }

  /** The object `syncPostTypeFromAirtable` resolves to. */
  datatype SyncOutcome = SyncOutcome(success: bool, message: string, recordsProcessed: Option<nat>)

  function SuccessMessage(n: nat, t: PostType): string {
    "Successfully synced " + NatText(n) + " " + PostTypeName(t) + " records from Airtable"
  }

  function OutcomeOf(t: PostType, res: Result<seq<Entity>>): (out: SyncOutcome)
    ensures out.success <==> res.Ok?
    ensures out.success ==> out.recordsProcessed == Some(|res.value|)
    ensures !out.success ==> out.recordsProcessed.None? && out.message == res.error
  {
    match res
    case Ok(ps) => SyncOutcome(true, SuccessMessage(|ps|, t), Some(|ps|))
    case Err(e) => SyncOutcome(false, e, None)
  }

  /** The store after a sync: the slice of `t` replaced on success only. */
  function After(slices: map<PostType, seq<Entity>>, t: PostType, res: Result<seq<Entity>>): map<PostType, seq<Entity>> {
    if res.Ok? then slices[t := res.value] else slices
  }

  /** One entry of the per-type results of `syncAllFromAirtable`. */
  datatype TypeResult = TypeResult(success: bool, recordsProcessed: nat)

  datatype AllOutcome = AllOutcome(success: bool, message: string, results: map<PostType, TypeResult>)

  function ResultOf(out: SyncOutcome): (r: TypeResult)
    ensures r.success == out.success
    ensures r.recordsProcessed == if out.recordsProcessed.Some? then out.recordsProcessed.value else 0
  {
    TypeResult(out.success, out.recordsProcessed.GetOr(0))
  }

  const FailureMessage := "Some post types failed to sync. Check the detailed results."

  function AllSuccessMessage(total: nat): string {
    "Successfully synced " + NatText(total) + " records from Airtable"
  }

  /** The object `syncAllFromAirtable` resolves to, from the three outcomes. */
  function AllOutcomeOf(category: SyncOutcome, destination: SyncOutcome, tour: SyncOutcome): AllOutcome
  {
    var results := map[Tour := ResultOf(tour), Category := ResultOf(category), Destination := ResultOf(destination)];
    var ok := category.success && destination.success && tour.success;
    var total := results[Tour].recordsProcessed + results[Category].recordsProcessed + results[Destination].recordsProcessed;
    AllOutcome(ok, if ok then AllSuccessMessage(total) else FailureMessage, results)
  }

  /** `inMemoryStore`: one slice of processed records per post type. */
  class RecordStore {
    var slices: map<PostType, seq<Entity>>

    predicate Valid()
      reads this
    {
      Tour in slices && Category in slices && Destination in slices
    }

    constructor()
      ensures Valid()
      ensures slices == map[Tour := [], Category := [], Destination := []]
    {
      slices := map[Tour := [], Category := [], Destination := []];
    }

    /** `getStoredRecords(t)`. */
    function StoredRecords(t: PostType): seq<Entity>
      requires Valid()
      reads this
    {
      match t
      case Tour => slices[Tour]
      case Category => slices[Category]
      case Destination => slices[Destination]
    }

    /** `storeProcessedRecords(t, records)`. */
    method StoreProcessedRecords(t: PostType, records: seq<Entity>)
      requires Valid()
      modifies this
      ensures Valid()
      ensures slices == old(slices)[t := records]
      ensures StoredRecords(t) == records
      ensures forall u :: u != t ==> StoredRecords(u) == old(StoredRecords(u))
    {
      slices := slices[t := records];
    }

    /** `syncPostTypeFromAirtable(t)`. */
    method SyncPostType(t: PostType, env: TableEnv, source: MappingSource,
                        fetch: string -> FetchResult, now: string) returns (out: SyncOutcome)
      requires Valid()
      modifies this
      ensures Valid()
      ensures var res := Normalized(t, env, source, fetch, now);
              out == OutcomeOf(t, res) && slices == After(old(slices), t, res)
    {
      var tableName := AirtableTableName(t, env);
      var mappings := GetFieldMappings(Some(t), source);
      var fetched := fetch(tableName);
      if fetched.Err? {
        return SyncOutcome(false, fetched.error, None);
      }
      var processed := ProcessAll(fetched.value, mappings, now);
      if processed.Err? {
        return SyncOutcome(false, processed.error, None);
      }
      StoreProcessedRecords(t, processed.value);
      out := SyncOutcome(true, SuccessMessage(|processed.value|, t), Some(|processed.value|));
    }

    /** `syncAllFromAirtable()`: categories, then destinations, then tours,
        each whatever happened to the one before. */
    method SyncAll(env: TableEnv, source: MappingSource, fetch: string -> FetchResult, now: string)
      returns (out: AllOutcome)
      requires Valid()
      modifies this
      ensures Valid()
      ensures var rc := Normalized(Category, env, source, fetch, now);
              var rd := Normalized(Destination, env, source, fetch, now);
              var rt := Normalized(Tour, env, source, fetch, now);
              out == AllOutcomeOf(OutcomeOf(Category, rc), OutcomeOf(Destination, rd), OutcomeOf(Tour, rt))
              && slices == After(After(After(old(slices), Category, rc), Destination, rd), Tour, rt)
    {
      var categoryResult := SyncPostType(Category, env, source, fetch, now);
      var destinationResult := SyncPostType(Destination, env, source, fetch, now);
      var tourResult := SyncPostType(Tour, env, source, fetch, now);
      out := Aggregate(categoryResult, destinationResult, tourResult);
    }
  }

  /** The bookkeeping of `syncAllFromAirtable`: the per-type results start
      as failures with no records, each sync's entry is filled in, the
      successes are and-ed and the counts summed. */
  method Aggregate(categoryResult: SyncOutcome, destinationResult: SyncOutcome, tourResult: SyncOutcome)
    returns (out: AllOutcome)
    ensures out == AllOutcomeOf(categoryResult, destinationResult, tourResult)
  {
    var results := map[Tour := TypeResult(false, 0), Category := TypeResult(false, 0),
                       Destination := TypeResult(false, 0)];
    var allSuccess := true;
    results := results[Category := ResultOf(categoryResult)];
    allSuccess := allSuccess && categoryResult.success;
    results := results[Destination := ResultOf(destinationResult)];
    allSuccess := allSuccess && destinationResult.success;
    results := results[Tour := ResultOf(tourResult)];
    allSuccess := allSuccess && tourResult.success;
    var total := results[Tour].recordsProcessed + results[Category].recordsProcessed
                 + results[Destination].recordsProcessed;
    out := AllOutcome(allSuccess, if allSuccess then AllSuccessMessage(total) else FailureMessage, results);
    StepwiseOutcome(categoryResult, destinationResult, tourResult, out);
  }

  /** `records.map(processRecord)` as the loop it runs. */
  method ProcessAll(records: seq<RawRecord>, ms: seq<FieldMapping>, now: string) returns (r: Result<seq<Entity>>)
    ensures r == NormalizeAll(records, ms, now)
  {
    var processed: seq<Entity> := [];
    for i := 0 to |records|
      invariant NormalizeAll(records[..i], ms, now) == Ok(processed)
    {
      assert records[..i + 1][..i] == records[..i];
      var one := ProcessRecord(records[i], ms, now);
      if one.Err? {
        assert NormalizeAll(records[..i + 1], ms, now) == Err(one.error);
        PrefixErrorSticks(records, ms, now, i + 1);
        return Err(one.error);
      }
      processed := processed + [one.value];
    }
    assert records[..|records|] == records;
    return Ok(processed);
  }

  /** Once a prefix fails, the whole batch fails with the same message. */
  lemma {:induction false} PrefixErrorSticks(records: seq<RawRecord>, ms: seq<FieldMapping>, now: string, k: nat)
    requires k <= |records| && NormalizeAll(records[..k], ms, now).Err?
    ensures NormalizeAll(records, ms, now) == NormalizeAll(records[..k], ms, now)
    decreases |records| - k
  {
    if k < |records| {
      assert records[..k + 1][..k] == records[..k];
      PrefixErrorSticks(records, ms, now, k + 1);
    } else {
      assert records[..k] == records;
    }
  }

  /** The full sync reports each type's success and count (0 when it
      failed), succeeds exactly when all three did, and then reports the sum. */
  lemma AllOutcomeReports(category: SyncOutcome, destination: SyncOutcome, tour: SyncOutcome)
    ensures var r := AllOutcomeOf(category, destination, tour);
      && r.results.Keys == {Tour, Category, Destination}
      && r.results[Category] == ResultOf(category)
      && r.results[Destination] == ResultOf(destination)
      && r.results[Tour] == ResultOf(tour)
      && (r.success <==> category.success && destination.success && tour.success)
      && (r.success ==> r.message == AllSuccessMessage(
            ResultOf(tour).recordsProcessed + ResultOf(category).recordsProcessed
            + ResultOf(destination).recordsProcessed))
      && (!r.success ==> r.message == FailureMessage)
  {
  }

  /** Filling the initial per-type results one type at a time, and/ing the
      successes, gives the outcome of the full sync. */
  lemma StepwiseOutcome(category: SyncOutcome, destination: SyncOutcome, tour: SyncOutcome, out: AllOutcome)
    requires out.results == map[Tour := TypeResult(false, 0), Category := TypeResult(false, 0),
                                Destination := TypeResult(false, 0)]
              [Category := ResultOf(category)][Destination := ResultOf(destination)][Tour := ResultOf(tour)]
    requires out.success == (category.success && destination.success && tour.success)
    requires out.message == if out.success then AllSuccessMessage(
               out.results[Tour].recordsProcessed + out.results[Category].recordsProcessed
               + out.results[Destination].recordsProcessed) else FailureMessage
    ensures out == AllOutcomeOf(category, destination, tour)
  {
    assert out.results == AllOutcomeOf(category, destination, tour).results;
  }

  /** Each sync touches its own slice only: after a full sync every slice is
      the fresh records of its type when that sync succeeded, else the old one. */
  lemma AfterAllPerType(slices: map<PostType, seq<Entity>>, rc: Result<seq<Entity>>,
                        rd: Result<seq<Entity>>, rt: Result<seq<Entity>>, t: PostType)
    requires t in slices
    ensures var s := After(After(After(slices, Category, rc), Destination, rd), Tour, rt);
            var res := match t case Category => rc case Destination => rd case Tour => rt;
            t in s && s[t] == if res.Ok? then res.value else slices[t]
  {
  }

  /** A record whose cells cannot be read fails the whole batch when there
      is a mapping; otherwise every record is processed. */
  lemma BatchFailsOnUnreadable(records: seq<RawRecord>, ms: seq<FieldMapping>, now: string)
    ensures NormalizeAll(records, ms, now).Ok? <==>
            |ms| == 0 || forall i :: 0 <= i < |records| ==> records[i].readError.None?
  {
  }
}
