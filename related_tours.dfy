/** The "related tours" strip under a tour page: every other tour of the
    cache, in cache order, cut to the first four. */
module RelatedTours {
  import opened Seqs
  import opened Tours

  /** Number of cards the strip shows at most. */
  const MaxRelated: nat := 4

  function OtherThan(currentTourId: string): Tour -> bool {
    (t: Tour) => t.id != currentTourId
  }

  /** `allTours.filter(tour => tour.id !== currentTourId).slice(0, 4)`. */
  function Related(allTours: seq<Tour>, currentTourId: string): (r: seq<Tour>)
    ensures |r| <= MaxRelated
    ensures forall i :: 0 <= i < |r| ==> r[i].id != currentTourId
  {
    Take(Filter(allTours, OtherThan(currentTourId)), MaxRelated)
  }

  /** Every related tour is a tour of the cache, and the strip is the start
      of the list of other tours: no other tour is skipped to reach a later
      one, and when fewer than four are shown they are all the others. */
  lemma RelatedIsPrefixOfOthers(allTours: seq<Tour>, currentTourId: string)
    ensures Related(allTours, currentTourId) <= Filter(allTours, OtherThan(currentTourId))
    ensures |Related(allTours, currentTourId)| < MaxRelated ==>
      Related(allTours, currentTourId) == Filter(allTours, OtherThan(currentTourId))
    ensures forall i :: 0 <= i < |Related(allTours, currentTourId)| ==>
      Related(allTours, currentTourId)[i] in allTours
  {
    FilterSubset(allTours, OtherThan(currentTourId));
  }

  /** When at least four tours other than the current one exist, the strip
      is full. */
  lemma RelatedFillsFour(allTours: seq<Tour>, currentTourId: string, a: nat, b: nat, c: nat, d: nat)
    requires a < b < c < d < |allTours|
    requires allTours[a].id != currentTourId && allTours[b].id != currentTourId
    requires allTours[c].id != currentTourId && allTours[d].id != currentTourId
    ensures |Related(allTours, currentTourId)| == MaxRelated
  {
    FilterKeepsMarked(allTours, OtherThan(currentTourId), [a, b, c, d]);
  }

  /** A cache holding only the current tour has nothing related to show. */
  lemma {:induction false} RelatedOfOnlyCurrent(allTours: seq<Tour>, currentTourId: string)
    requires forall i :: 0 <= i < |allTours| ==> allTours[i].id == currentTourId
    ensures Related(allTours, currentTourId) == []
  {
    FilterNone(allTours, OtherThan(currentTourId));
  }
}
