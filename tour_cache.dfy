/** The tour cache of the older path (lib/airtable.ts): the cached tours,
    the time of the last successful sync and the `isSyncing` flag, with the
    sync that fills them and the queries that read them. The fetch and the
    single-record lookup are parameters; the flag is raised before the fetch
    and lowered after it, so its window is split into `StartSync` and
    `FinishSync`. */
module TourCache {
  import opened Wrappers
  import opened Seqs
  import opened Text
  import opened JsValues
  import opened AirtableRecords
  import opened Tours

  /** The tours table: the environment's name, or the built-in one when unset (""). */
  function ToursTableName(envTable: string): (r: string)
    ensures envTable != "" ==> r == envTable
    ensures envTable == "" ==> r == "toursTours-Grid view"
  {
    if envTable != "" then envTable else "toursTours-Grid view"
  }

  /** `records.map(recordToTour)`. */
  function ToursOf(records: seq<RawRecord>): (r: seq<Tour>)
    ensures |r| == |records|
    ensures forall i :: 0 <= i < |r| ==> r[i] == TourOf(records[i])
  {
    seq(|records|, i requires 0 <= i < |records| => TourOf(records[i]))
  }

  /** `records.map(recordToTour)` as the loop it runs. */
  method ConvertAll(records: seq<RawRecord>) returns (tours: seq<Tour>)
    ensures tours == ToursOf(records)
  {
    tours := [];
    for i := 0 to |records|
      invariant |tours| == i
      invariant forall j :: 0 <= j < i ==> tours[j] == TourOf(records[j])
    {
      var tour := RecordToTour(records[i]);
      tours := tours + [tour];
    }
  }

  /** The object `syncToursFromAirtable` resolves to. */
  datatype TourSyncOutcome = TourSyncOutcome(success: bool, message: string, count: nat)

  const InProgress := TourSyncOutcome(false, "Sync already in progress", 0)

  /** What a sync that got to fetch reports. */
  function FetchOutcome(fetched: FetchResult): (out: TourSyncOutcome)
    ensures out.success <==> fetched.Ok?
    ensures fetched.Ok? ==> out.count == |fetched.value|
    ensures fetched.Err? ==> out.count == 0 && out.message == "Error: " + fetched.error
  {
    match fetched
    case Ok(records) => TourSyncOutcome(true, "Successfully synced " + NatText(|records|) + " tours", |records|)
    case Err(e) => TourSyncOutcome(false, "Error: " + e, 0)
  }

  /** `getSyncStatus()`. */
  datatype SyncStatus = SyncStatus(lastSyncTime: Option<string>, isSyncing: bool, tourCount: nat)

  /** `tour.categories.some(cat => typeof cat === "string" &&
      cat.toLowerCase().includes(category.toLowerCase()))`. */
  predicate HasCategory(tour: Tour, category: string) {
    exists i :: 0 <= i < |tour.categories| && tour.categories[i].Str?
      && Contains(ToLower(tour.categories[i].s), ToLower(category))
  }

  function InCategory(category: string): Tour -> bool {
    (t: Tour) => HasCategory(t, category)
  }

  function IsFeatured(): Tour -> bool {
    (t: Tour) => t.featured
  }

  /** The category query on the cache: everything for no (or an empty)
      category, else the tours with a matching category, in cache order. */
  function ToursInCategory(tours: seq<Tour>, category: Option<string>): (r: seq<Tour>)
    ensures category.None? || category.value == "" ==> r == tours
    ensures category.Some? && category.value != "" ==>
      forall i :: 0 <= i < |r| ==> HasCategory(r[i], category.value)
  {
    if category.Some? && category.value != "" then Filter(tours, InCategory(category.value)) else tours
  }

  /** The featured query on the cache: up to 8 featured tours, or the first 8
      tours when none is featured. */
  function FeaturedOf(tours: seq<Tour>): (r: seq<Tour>)
    ensures |r| <= 8
    ensures r <= Filter(tours, IsFeatured()) || r <= tours
  {
    var featured := Filter(tours, IsFeatured());
    if |featured| > 0 then Take(featured, 8) else Take(tours, 8)
  }

  /** `tours.find(t => t.id === id)`. */
  function FindById(tours: seq<Tour>, id: string): (r: Option<Tour>)
    ensures r.Some? ==> r.value.id == id
    ensures r.None? <==> forall i :: 0 <= i < |tours| ==> tours[i].id != id
    decreases |tours|
  {
    if tours == [] then None
    else if tours[0].id == id then Some(tours[0])
    else FindById(tours[1..], id)
  }

  class Cache {
    var cachedTours: seq<Tour>
    var lastSyncTime: Option<string>
    var isSyncing: bool
    const toursTable: string

    constructor(envTable: string)
      ensures cachedTours == [] && lastSyncTime.None? && !isSyncing
      ensures toursTable == ToursTableName(envTable)
    {
      cachedTours := [];
      lastSyncTime := None;
      isSyncing := false;
      toursTable := ToursTableName(envTable);
    }

    /** `getSyncStatus()`. */
    function Status(): (s: SyncStatus)
      reads this
      ensures s.tourCount == |cachedTours| && s.isSyncing == isSyncing && s.lastSyncTime == lastSyncTime
    {
      SyncStatus(lastSyncTime, isSyncing, |cachedTours|)
    }

    /** The entry of `syncToursFromAirtable`: refuse when a sync is under way,
        else raise the flag. */
    method StartSync() returns (started: bool)
      modifies this
      ensures started <==> !old(isSyncing)
      ensures isSyncing
      ensures cachedTours == old(cachedTours) && lastSyncTime == old(lastSyncTime)
    {
      if isSyncing {
        return false;
      }
      isSyncing := true;
      return true;
    }

    /** The rest of `syncToursFromAirtable`, once the fetch has answered: on
        success the cache is replaced wholesale and the time recorded, on
        error both stay; the `finally` lowers the flag either way. */
    method FinishSync(fetched: FetchResult, now: string) returns (out: TourSyncOutcome)
      requires isSyncing
      modifies this
      ensures out == FetchOutcome(fetched)
      ensures !isSyncing
      ensures fetched.Ok? ==> cachedTours == ToursOf(fetched.value) && lastSyncTime == Some(now)
      ensures fetched.Err? ==> cachedTours == old(cachedTours) && lastSyncTime == old(lastSyncTime)
    {
      if fetched.Err? {
        isSyncing := false;
        return TourSyncOutcome(false, "Error: " + fetched.error, 0);
      }
      var tours := ConvertAll(fetched.value);
      cachedTours := tours;
      lastSyncTime := Some(now);
      out := TourSyncOutcome(true, "Successfully synced " + NatText(|tours|) + " tours", |tours|);
      isSyncing := false;
    }

    /** `syncToursFromAirtable()` run to the end without another caller in between. */
    method SyncTours(fetch: string -> FetchResult, now: string) returns (out: TourSyncOutcome)
      modifies this
      ensures old(isSyncing) ==>
                out == InProgress && cachedTours == old(cachedTours) && lastSyncTime == old(lastSyncTime) && isSyncing
      ensures !old(isSyncing) ==> out == FetchOutcome(fetch(toursTable)) && !isSyncing
      ensures !old(isSyncing) && fetch(toursTable).Ok? ==>
                cachedTours == ToursOf(fetch(toursTable).value) && lastSyncTime == Some(now)
      ensures !old(isSyncing) && fetch(toursTable).Err? ==>
                cachedTours == old(cachedTours) && lastSyncTime == old(lastSyncTime)
    {
      var started := StartSync();
      if !started {
        return InProgress;
      }
      out := FinishSync(fetch(toursTable), now);
    }

    /** The lazy fill every query starts with: a sync only when the cache is empty. */
    method FillIfEmpty(fetch: string -> FetchResult, now: string)
      modifies this
      ensures isSyncing == old(isSyncing)
      ensures |old(cachedTours)| > 0 ==> cachedTours == old(cachedTours) && lastSyncTime == old(lastSyncTime)
      ensures |old(cachedTours)| == 0 && !old(isSyncing) && fetch(toursTable).Ok? ==>
                cachedTours == ToursOf(fetch(toursTable).value) && lastSyncTime == Some(now)
      ensures |old(cachedTours)| == 0 && (old(isSyncing) || fetch(toursTable).Err?) ==>
                cachedTours == [] && lastSyncTime == old(lastSyncTime)
    {
      if |cachedTours| == 0 {
        var _ := SyncTours(fetch, now);
      }
    }

    /** `getAllTours(category?)`. */
    method GetAllTours(category: Option<string>, fetch: string -> FetchResult, now: string)
      returns (r: seq<Tour>)
      modifies this
      ensures isSyncing == old(isSyncing)
      ensures |old(cachedTours)| > 0 ==> cachedTours == old(cachedTours) && lastSyncTime == old(lastSyncTime)
      ensures |old(cachedTours)| == 0 && !old(isSyncing) && fetch(toursTable).Ok? ==>
                cachedTours == ToursOf(fetch(toursTable).value) && lastSyncTime == Some(now)
      ensures |old(cachedTours)| == 0 && (old(isSyncing) || fetch(toursTable).Err?) ==>
                cachedTours == [] && lastSyncTime == old(lastSyncTime)
      ensures r == ToursInCategory(cachedTours, category)
    {
      FillIfEmpty(fetch, now);
      if category.Some? && category.value != "" {
        return Filter(cachedTours, InCategory(category.value));
      }
      return cachedTours;
    }

    /** `getFeaturedTours()`. */
    method GetFeaturedTours(fetch: string -> FetchResult, now: string) returns (r: seq<Tour>)
      modifies this
      ensures isSyncing == old(isSyncing)
      ensures |old(cachedTours)| > 0 ==> cachedTours == old(cachedTours) && lastSyncTime == old(lastSyncTime)
      ensures |old(cachedTours)| == 0 && !old(isSyncing) && fetch(toursTable).Ok? ==>
                cachedTours == ToursOf(fetch(toursTable).value) && lastSyncTime == Some(now)
      ensures |old(cachedTours)| == 0 && (old(isSyncing) || fetch(toursTable).Err?) ==>
                cachedTours == [] && lastSyncTime == old(lastSyncTime)
      ensures r == FeaturedOf(cachedTours)
    {
      FillIfEmpty(fetch, now);
      var featuredTours := Filter(cachedTours, IsFeatured());
      if |featuredTours| > 0 {
        return Take(featuredTours, 8);
      }
      return Take(cachedTours, 8);
    }

    /** `getTourById(id)`: the cached tour, else the directly looked-up record
        converted, else null when the lookup throws (None). The looked-up
        tour is not written to the cache: the cache is what the fill left. */
    method GetTourById(id: string, fetch: string -> FetchResult, lookup: string -> Option<RawRecord>, now: string)
      returns (r: Option<Tour>)
      modifies this
      ensures isSyncing == old(isSyncing)
      ensures |old(cachedTours)| > 0 ==> cachedTours == old(cachedTours) && lastSyncTime == old(lastSyncTime)
      ensures |old(cachedTours)| == 0 && !old(isSyncing) && fetch(toursTable).Ok? ==>
                cachedTours == ToursOf(fetch(toursTable).value) && lastSyncTime == Some(now)
      ensures |old(cachedTours)| == 0 && (old(isSyncing) || fetch(toursTable).Err?) ==>
                cachedTours == [] && lastSyncTime == old(lastSyncTime)
      ensures FindById(cachedTours, id).Some? ==> r == FindById(cachedTours, id)
      ensures FindById(cachedTours, id).None? && lookup(id).Some? ==> r == Some(TourOf(lookup(id).value))
      ensures FindById(cachedTours, id).None? && lookup(id).None? ==> r.None?
    {
      FillIfEmpty(fetch, now);
      var tour := FindById(cachedTours, id);
      if tour.Some? {
        return tour;
      }
      var record := lookup(id);
      if record.None? {
        return None;
      }
      var converted := RecordToTour(record.value);
      return Some(converted);
    }
  }

  // ----- properties of the queries -----

  /** The featured query prefers featured tours: when any exists, all it
      returns are featured, and it returns 8 of them when there are that many. */
  lemma FeaturedPrefersFeatured(tours: seq<Tour>)
    requires |Filter(tours, IsFeatured())| > 0
    ensures forall i :: 0 <= i < |FeaturedOf(tours)| ==> FeaturedOf(tours)[i].featured
    ensures |FeaturedOf(tours)| == if |Filter(tours, IsFeatured())| < 8 then |Filter(tours, IsFeatured())| else 8
  {
  }

  /** With no featured tour, the first 8 tours stand in. */
  lemma FeaturedFallsBack(tours: seq<Tour>)
    requires forall i :: 0 <= i < |tours| ==> !tours[i].featured
    ensures FeaturedOf(tours) == Take(tours, 8)
  {
    FilterNone(tours, IsFeatured());
  }

  /** Every tour with a matching category is returned by the category query,
      and the match ignores letter case. */
  lemma {:induction false} CategoryQueryComplete(tours: seq<Tour>, category: string, i: nat)
    requires category != "" && i < |tours| && HasCategory(tours[i], category)
    ensures tours[i] in ToursInCategory(tours, Some(category))
    decreases |tours|
  {
    if i > 0 {
      CategoryQueryComplete(tours[1..], category, i - 1);
    }
  }

  /** The match ignores the case of the query. */
  lemma CategoryIgnoresCase(tour: Tour, category: string)
    ensures HasCategory(tour, ToLower(category)) <==> HasCategory(tour, category)
  {
    ToLowerIdempotent(category);
  }

  /** The first cached tour with the id is the one found. */
  lemma {:induction false} FindByIdFirst(tours: seq<Tour>, id: string, i: nat)
    requires i < |tours| && tours[i].id == id
    requires forall j :: 0 <= j < i ==> tours[j].id != id
    ensures FindById(tours, id) == Some(tours[i])
    decreases i
  {
    if i > 0 {
      FindByIdFirst(tours[1..], id, i - 1);
    }
  }
}
