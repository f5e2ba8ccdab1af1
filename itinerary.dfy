/** The itinerary page: the icon shown for an activity's category, the map
    link, the save toggle, the day tabs and the selected day, and the plain
    text summary the share button hands to the browser. */
module ItineraryPage {
  import opened Types
  import Store

  // ------------------------------------------------------------------
  // Category icons
  // ------------------------------------------------------------------

  datatype Icon =
    | FoodIcon | MuseumIcon | NatureIcon | SightseeingIcon
    | AdventureIcon | ArtAndCultureIcon | NightlifeIcon | HistoryIcon

  /** The eight categories with an icon of their own. */
  const NamedCategories: seq<string> :=
    ["Food", "Museum", "Nature", "Sightseeing", "Adventure", "Art & Culture", "Nightlife", "History"]

  /** `categoryIcons`. */
  const CategoryIcons: map<string, Icon> := map[
    "Food" := FoodIcon,
    "Museum" := MuseumIcon,
    "Nature" := NatureIcon,
    "Sightseeing" := SightseeingIcon,
    "Adventure" := AdventureIcon,
    "Art & Culture" := ArtAndCultureIcon,
    "Nightlife" := NightlifeIcon,
    "History" := HistoryIcon,
    "Default" := SightseeingIcon]

  /** The icon `ActivityCard` draws: the table's entry, or the default one. */
  function IconFor(category: string): (r: Icon)
    ensures category in CategoryIcons ==> r == CategoryIcons[category]
    ensures category !in NamedCategories ==> r == SightseeingIcon
  {
    if category in CategoryIcons then CategoryIcons[category] else CategoryIcons["Default"]
  }

  /** An independent statement of the table: which icon each named category
      gets. */
  function IconOfNamed(i: nat): Icon
    requires i < |NamedCategories|
  {
    [FoodIcon, MuseumIcon, NatureIcon, SightseeingIcon, AdventureIcon, ArtAndCultureIcon, NightlifeIcon, HistoryIcon][i]
  }

  /** The lookup is exact and case-sensitive: a named category gets its own
      icon, and any other string (a different spelling, `Travel`, `food`)
      gets the sightseeing icon. Only `Sightseeing` and the default share an
      icon. */
  lemma IconLookup(category: string)
    ensures forall i :: 0 <= i < |NamedCategories| && category == NamedCategories[i] ==> IconFor(category) == IconOfNamed(i)
    ensures IconFor(category) == SightseeingIcon <==> category == "Sightseeing" || category !in NamedCategories
    ensures IconFor("Travel") == SightseeingIcon && IconFor("food") == SightseeingIcon
  {
  }

  // ------------------------------------------------------------------
  // Map link
  // ------------------------------------------------------------------

  const MapsSearchPrefix := "https://www.google.com/maps/search/?api=1&query="

  /** The activity's map link; `encode` is `encodeURIComponent`. */
  function MapLink(location: string, encode: string -> string): (r: string)
    ensures |r| == |MapsSearchPrefix| + |encode(location)|
  {
    MapsSearchPrefix + encode(location)
  }

  /** The link is the search prefix followed by the encoded location, so two
      locations share a link exactly when they encode alike. */
  lemma MapLinkQuery(a: string, b: string, encode: string -> string)
    ensures MapLink(a, encode)[..|MapsSearchPrefix|] == MapsSearchPrefix
    ensures MapLink(a, encode)[|MapsSearchPrefix|..] == encode(a)
    ensures MapLink(a, encode) == MapLink(b, encode) <==> encode(a) == encode(b)
  {
    var la, lb := MapLink(a, encode), MapLink(b, encode);
    if la == lb {
      assert la[|MapsSearchPrefix|..] == encode(a);
      assert lb[|MapsSearchPrefix|..] == encode(b);
    }
  }

  // ------------------------------------------------------------------
  // Save toggle
  // ------------------------------------------------------------------

  /** `isSaved`: some stored trip has this trip's id. */
  predicate IsSaved(saved: seq<Itinerary>, it: Itinerary): (b: bool)
    ensures b <==> exists x :: x in saved && x.id == it.id
  {
    Store.HasId(saved, it.id)
  }

  /** The callback the toggle makes. */
  datatype StoreCall = SaveCall(itinerary: Itinerary) | DeleteCall(id: string)

  /** `handleSaveToggle`. */
  function SaveToggle(saved: seq<Itinerary>, it: Itinerary): (c: StoreCall)
    ensures c.DeleteCall? <==> IsSaved(saved, it)
    ensures c.DeleteCall? ==> c.id == it.id
    ensures c.SaveCall? ==> c.itinerary == it
  {
    if IsSaved(saved, it) then DeleteCall(it.id) else SaveCall(it)
  }

  /** What the controller's handlers do with the call. */
  function ApplyStoreCall(saved: seq<Itinerary>, c: StoreCall): seq<Itinerary>
  {
    match c
    case SaveCall(it) => Store.Save(saved, it)
    case DeleteCall(id) => Store.Delete(saved, id)
  }

  /** A toggle flips whether the itinerary is saved. */
  lemma ToggleFlipsSaved(saved: seq<Itinerary>, it: Itinerary)
    ensures IsSaved(ApplyStoreCall(saved, SaveToggle(saved, it)), it) <==> !IsSaved(saved, it)
  {
    if IsSaved(saved, it) {
      Store.DeleteRemovesId(saved, it.id);
    } else {
      var r := saved + [it];
      assert r[|saved|] == it;
    }
  }

  /** Two toggles starting from an unsaved itinerary restore the store. */
  lemma ToggleTwiceRestores(saved: seq<Itinerary>, it: Itinerary)
    requires !IsSaved(saved, it)
    ensures var once := ApplyStoreCall(saved, SaveToggle(saved, it));
            ApplyStoreCall(once, SaveToggle(once, it)) == saved
  {
    ToggleFlipsSaved(saved, it);
    Store.DeleteUndoesSave(saved, it);
  }

  // ------------------------------------------------------------------
  // Day tabs and the selected day
  // ------------------------------------------------------------------

  /** `itinerary.itinerary.findIndex(day => day.day === d)`, as an option. */
  function FindDayIndex(days: seq<DayPlan>, d: int): (r: Option<nat>)
    ensures r.Some? ==> r.value < |days| && days[r.value].day == d
                        && forall j :: 0 <= j < r.value ==> days[j].day != d
    ensures r.None? <==> forall j :: 0 <= j < |days| ==> days[j].day != d
  {
    if days == [] then None
    else if days[0].day == d then Some(0)
    else
      match FindDayIndex(days[1..], d)
      case None => None
      case Some(k) => Some(k + 1)
  }

  /** `selectedDayData`: the first plan for day `d`, None when none matches
      and no day is drawn. */
  function SelectedDay(days: seq<DayPlan>, d: int): (r: Option<DayPlan>)
    ensures r.Some? ==> r.value in days && r.value.day == d
    ensures r.None? <==> forall j :: 0 <= j < |days| ==> days[j].day != d
  {
    match FindDayIndex(days, d)
    case None => None
    case Some(i) => Some(days[i])
  }

  /** The selected day is the first plan with the wanted number. */
  lemma SelectedDayIsFirstMatch(days: seq<DayPlan>, d: int)
    ensures SelectedDay(days, d).Some? ==>
              exists i :: 0 <= i < |days| && SelectedDay(days, d).value == days[i]
                          && days[i].day == d && forall j :: 0 <= j < i ==> days[j].day != d
    ensures SelectedDay(days, d).None? <==> forall j :: 0 <= j < |days| ==> days[j].day != d
  {
    var r := FindDayIndex(days, d);
    if r.Some? {
      var i := r.value;
      assert SelectedDay(days, d).value == days[i];
    }
  }

  /** The day labels of the tab bar, one per plan in array order. */
  function DayTabs(days: seq<DayPlan>): (r: seq<int>)
    ensures |r| == |days|
    ensures forall i :: 0 <= i < |days| ==> r[i] == days[i].day
  {
    if days == [] then [] else [days[0].day] + DayTabs(days[1..])
  }

  predicate DistinctDays(days: seq<DayPlan>)
  {
    forall i, j :: 0 <= i < j < |days| ==> days[i].day != days[j].day
  }

  /** With distinct day numbers, clicking tab `i` shows exactly plan `i`. */
  lemma TabSelectsDay(days: seq<DayPlan>, i: nat)
    requires DistinctDays(days) && i < |days|
    ensures SelectedDay(days, DayTabs(days)[i]) == Some(days[i])
  {
    var k := FindDayIndex(days, days[i].day).value;
    assert days[k].day == days[i].day;
  }

  /** The page's own state: the itinerary shown and the active day. */
  class ItineraryView {
    const itinerary: Itinerary
    var activeDay: int

    constructor (itinerary: Itinerary)
      ensures this.itinerary == itinerary && activeDay == 1
    {
      this.itinerary := itinerary;
      activeDay := 1;
    }

    /** `selectedDayData`, for the active day. */
    function SelectedDayData(): Option<DayPlan>
      reads this
    {
      SelectedDay(itinerary.itinerary, activeDay)
    }

    /** A click on tab `i`: its day number becomes the active day, so a plan
        with that number is drawn, and with distinct day numbers it is the
        plan of the clicked tab. */
    method SelectTab(i: nat)
      requires i < |itinerary.itinerary|
      modifies this
      ensures activeDay == DayTabs(itinerary.itinerary)[i]
      ensures SelectedDayData().Some? && SelectedDayData().value.day == itinerary.itinerary[i].day
      ensures DistinctDays(itinerary.itinerary) ==> SelectedDayData() == Some(itinerary.itinerary[i])
    {
      activeDay := itinerary.itinerary[i].day;
      assert itinerary.itinerary[i].day == activeDay;
      if DistinctDays(itinerary.itinerary) {
        TabSelectsDay(itinerary.itinerary, i);
      }
    }
  }

  // ------------------------------------------------------------------
  // Share text
  // ------------------------------------------------------------------

  /** One activity's line. */
  function ActivityLine(a: Activity): string
  {
    "- " + a.time + ": " + a.description + " at " + a.location + "\n"
  }

  function ActivityLines(acts: seq<Activity>): string
  {
    if acts == [] then "" else ActivityLines(acts[..|acts| - 1]) + ActivityLine(acts[|acts| - 1])
  }

  /** A day's header; the day number goes through the same `numberText`. */
  function DayHeader(d: DayPlan, numberText: real -> string): string
  {
    "**Day " + numberText(d.day as real) + ": " + d.title + "**\n"
  }

  /** One day's block: the header, its activity lines, a blank line. */
  function DayBlock(d: DayPlan, numberText: real -> string): string
  {
    DayHeader(d, numberText) + ActivityLines(d.activities) + "\n"
  }

  function DaysText(days: seq<DayPlan>, numberText: real -> string): string
  {
    if days == [] then "" else DaysText(days[..|days| - 1], numberText) + DayBlock(days[|days| - 1], numberText)
  }

  /** The title and the total-cost line, each followed by a blank line;
      `numberText` is JavaScript's conversion of a number to text. */
  function ShareHeader(it: Itinerary, numberText: real -> string): string
  {
    it.tripTitle + "\n\n" + CostLine(it, numberText)
  }

  function CostLine(it: Itinerary, numberText: real -> string): string
  {
    "Total Estimated Cost: " + numberText(it.totalEstimatedCost) + " " + it.currency + "\n\n"
  }

  /** The summary `shareItinerary` builds: the header, then one block per
      day after it. */
  function ShareText(it: Itinerary, numberText: real -> string): (r: string)
    ensures ShareHeader(it, numberText) <= r
    ensures |r| == |ShareHeader(it, numberText)| + |DaysText(it.itinerary, numberText)|
  {
    ShareHeader(it, numberText) + DaysText(it.itinerary, numberText)
  }

  /** Adding an activity adds its line at the end. */
  lemma ActivityLinesSnoc(acts: seq<Activity>, x: Activity)
    ensures ActivityLines(acts + [x]) == ActivityLines(acts) + ActivityLine(x)
  {
    assert (acts + [x])[..|acts|] == acts;
  }

  /** The activity lines of a day follow its activities in order. */
  lemma {:induction false} ActivityLinesConcat(a: seq<Activity>, b: seq<Activity>)
    ensures ActivityLines(a + b) == ActivityLines(a) + ActivityLines(b)
  {
    if b == [] {
      assert a + b == a;
    } else {
      var b', x := b[..|b| - 1], b[|b| - 1];
      assert b == b' + [x];
      assert a + b == (a + b') + [x];
      ActivityLinesConcat(a, b');
      ActivityLinesSnoc(a + b', x);
      ActivityLinesSnoc(b', x);
      AppendAssoc(ActivityLines(a), ActivityLines(b'), ActivityLine(x));
    }
  }

  lemma AppendAssoc(a: string, b: string, c: string)
    ensures (a + b) + c == a + (b + c)
  {
  }

  /** Adding a day adds its block at the end. */
  lemma DaysTextSnoc(days: seq<DayPlan>, d: DayPlan, numberText: real -> string)
    ensures DaysText(days + [d], numberText) == DaysText(days, numberText) + DayBlock(d, numberText)
  {
    assert (days + [d])[..|days|] == days;
  }

  lemma {:induction false} DaysTextConcat(a: seq<DayPlan>, b: seq<DayPlan>, numberText: real -> string)
    ensures DaysText(a + b, numberText) == DaysText(a, numberText) + DaysText(b, numberText)
  {
    if b == [] {
      assert a + b == a;
    } else {
      var b', d := b[..|b| - 1], b[|b| - 1];
      assert b == b' + [d];
      assert a + b == (a + b') + [d];
      DaysTextConcat(a, b', numberText);
      DaysTextSnoc(a + b', d, numberText);
      DaysTextSnoc(b', d, numberText);
      AppendAssoc(DaysText(a, numberText), DaysText(b', numberText), DayBlock(d, numberText));
    }
  }

  /** The summary's layout: it opens with the title and a blank line, then the
      cost line and a blank line; then come the days in array order, each one
      a block of its header, one line per activity in order, and a blank
      line. */
  lemma ShareTextLayout(it: Itinerary, numberText: real -> string, i: nat)
    requires i < |it.itinerary|
    ensures var t := ShareText(it, numberText);
            var h := it.tripTitle + "\n\n";
            |h| <= |t| && t[..|h|] == h
    ensures ShareText(it, numberText)
            == ShareHeader(it, numberText)
               + DaysText(it.itinerary[..i], numberText)
               + DayBlock(it.itinerary[i], numberText)
               + DaysText(it.itinerary[i + 1..], numberText)
  {
    var days := it.itinerary;
    var h := it.tripTitle + "\n\n";
    var sh, dt := ShareHeader(it, numberText), DaysText(days, numberText);
    AppendAssoc(h, CostLine(it, numberText), dt);
    assert (h + (CostLine(it, numberText) + dt))[..|h|] == h;
    var front, rest := DaysText(days[..i], numberText), DaysText(days[i + 1..], numberText);
    var block := DayBlock(days[i], numberText);
    assert days == (days[..i] + [days[i]]) + days[i + 1..];
    DaysTextConcat(days[..i] + [days[i]], days[i + 1..], numberText);
    DaysTextSnoc(days[..i], days[i], numberText);
    assert dt == (front + block) + rest;
    AppendAssoc(sh, front + block, rest);
    AppendAssoc(sh, front, block);
  }

  /** `day.activities.forEach(...)`: appends one line per activity. */
  method AppendActivityLines(text: string, acts: seq<Activity>) returns (r: string)
    ensures r == text + ActivityLines(acts)
  {
    r := text;
    var j := 0;
    while j < |acts|
      invariant 0 <= j <= |acts|
      invariant r == text + ActivityLines(acts[..j])
    {
      assert acts[..j + 1][..j] == acts[..j];
      r := r + ("- " + acts[j].time + ": " + acts[j].description + " at " + acts[j].location + "\n");
      j := j + 1;
    }
    assert acts[..j] == acts;
  }

  /** `shareItinerary`'s text building: the outer `forEach` over the days,
      each appending its header, its activity lines and a blank line. */
  method ShareItinerary(it: Itinerary, numberText: real -> string) returns (text: string)
    ensures text == ShareText(it, numberText)
  {
    var days := it.itinerary;
    text := it.tripTitle + "\n\n";
    text := text + ("Total Estimated Cost: " + numberText(it.totalEstimatedCost) + " " + it.currency + "\n\n");
    var i := 0;
    while i < |days|
      invariant 0 <= i <= |days|
      invariant text == ShareHeader(it, numberText) + DaysText(days[..i], numberText)
    {
      var day := days[i];
      ghost var before := text;
      var header := "**Day " + numberText(day.day as real) + ": " + day.title + "**\n";
      text := text + header;
      text := AppendActivityLines(text, day.activities);
      text := text + "\n";
      ghost var lines := ActivityLines(day.activities);
      AppendAssoc(before, header, lines);
      AppendAssoc(before, header + lines, "\n");
      DaysTextSnoc(days[..i], day, numberText);
      AppendAssoc(ShareHeader(it, numberText), DaysText(days[..i], numberText), DayBlock(day, numberText));
      assert days[..i + 1] == days[..i] + [day];
      i := i + 1;
    }
    assert days[..i] == days;
  }
}
