/** The saved-trips page: an empty state when nothing is saved, otherwise one
    row per saved itinerary in list order, each with a load action and a
    delete action guarded by a confirmation. */
module SavedTrips {
  import opened Types
  import Browser

  /** What one row shows. */
  datatype TripRow = TripRow(title: string, dayCount: nat, cost: real, currency: string)

  datatype SavedTripsView = EmptyState | TripList(rows: seq<TripRow>)

  function RowSummary(it: Itinerary): TripRow
  {
    TripRow(it.tripTitle, |it.itinerary|, it.totalEstimatedCost, it.currency)
  }

  /** `savedItineraries.map(...)`. */
  function Rows(saved: seq<Itinerary>): (r: seq<TripRow>)
    ensures |r| == |saved|
    ensures forall i :: 0 <= i < |saved| ==> r[i] == RowSummary(saved[i])
  {
    if saved == [] then [] else [RowSummary(saved[0])] + Rows(saved[1..])
  }

  /** What the page renders. */
  function View(saved: seq<Itinerary>): (v: SavedTripsView)
    ensures v.EmptyState? <==> saved == []
    ensures v.TripList? ==> |v.rows| == |saved|
    ensures v.TripList? ==> forall i :: 0 <= i < |saved| ==> v.rows[i] == RowSummary(saved[i])
  {
    if |saved| == 0 then EmptyState else TripList(Rows(saved))
  }

  /** A row's day count is the number of day plans, and its other fields are
      the itinerary's own title, cost and currency. */
  lemma RowShowsItinerary(saved: seq<Itinerary>, i: nat)
    requires i < |saved|
    ensures View(saved).TripList?
    ensures View(saved).rows[i].dayCount == |saved[i].itinerary|
    ensures View(saved).rows[i].title == saved[i].tripTitle
    ensures View(saved).rows[i].cost == saved[i].totalEstimatedCost && View(saved).rows[i].currency == saved[i].currency
  {
  }

  /** Rows follow the list: the rows of two lists placed one after the other
      are the rows of each, in order. */
  lemma {:induction false} RowsConcat(a: seq<Itinerary>, b: seq<Itinerary>)
    ensures Rows(a + b) == Rows(a) + Rows(b)
  {
    if a != [] {
      assert (a + b)[1..] == a[1..] + b;
      RowsConcat(a[1..], b);
    } else {
      assert a + b == b;
    }
  }

  /** The callback a click makes. */
  datatype Callback = LoadCall(itinerary: Itinerary) | DeleteCall(id: string)

  /** A click on a row's first button, the one showing the title and the
      summary. */
  function RowClicked(it: Itinerary): (c: Callback)
    ensures c.LoadCall? && c.itinerary == it
  {
    LoadCall(it)
  }

  /** A click on a row's delete button, a sibling of the load button;
      `confirmed` is the answer to the confirmation dialog. Its handler makes
      no load call, so such a click never loads the trip. */
  function DeleteClicked(it: Itinerary, confirmed: bool): (c: Option<Callback>)
    ensures c.Some? <==> confirmed
    ensures c.Some? ==> c.value == DeleteCall(it.id)
  {
    if confirmed then Some(DeleteCall(it.id)) else None
  }

  /** The delete button never loads a trip, and deletes only with consent. */
  lemma DeleteNeverLoads(it: Itinerary, confirmed: bool)
    ensures forall c :: DeleteClicked(it, confirmed) == Some(c) ==> !c.LoadCall?
    ensures !confirmed ==> DeleteClicked(it, confirmed) == None
  {
  }

  /** "Plan a New Trip": the fragment becomes `#`. */
  method PlanNewTrip(location: Browser.Location)
    modifies location
    ensures location.hash == "#"
  {
    location.hash := "#";
  }
}
