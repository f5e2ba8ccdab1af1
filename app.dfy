/** The top-level controller: the current path, the itinerary on display,
    the loading flag, the last error and the saved trips, the handlers that
    change them, and the router that picks the screen.

    `AppState` is the controller's state as a value together with the
    browser fragment; the transition functions below say what each handler
    leaves behind, and `AppController`'s methods are proved to do exactly
    that, step by step, on its fields. */
module App {
  import opened Types
  import Browser
  import Store
  import Navbar
  import Gemini

  const ItineraryPath := "#/itinerary"
  const SavedPath := Navbar.SavedHref
  const ConverterPath := Navbar.ConverterHref
  const HomePath := Navbar.HomeHref

  datatype AppState = AppState(
    currentPath: string,
    hash: string,                     // window.location.hash
    itinerary: Option<Itinerary>,
    isLoading: bool,
    error: Option<string>,
    saved: seq<Itinerary>)

  /** An empty fragment stands for `#`. */
  function NormalizeHash(hash: string): string
  {
    if hash == "" then HomePath else hash
  }

  /** The state `handleHashChange` leaves: the fragment is the current
      path, the itinerary is kept only on the itinerary and saved paths, and
      nothing else changes. */
  function HashChanged(s: AppState): (r: AppState)
    ensures Settled(r)
    ensures r.itinerary == s.itinerary || r.itinerary == None
    ensures r.currentPath != ItineraryPath && r.currentPath != SavedPath ==> r.itinerary == None
    ensures r.hash == s.hash && r.saved == s.saved && r.isLoading == s.isLoading && r.error == s.error
  {
    var h := NormalizeHash(s.hash);
    s.(itinerary := if h != ItineraryPath && h != SavedPath then None else s.itinerary,
       currentPath := h)
  }

  /** The message shown for a failed generation: the failure's own message,
      or the generic one when that is empty. */
  function ErrorText(message: string): (r: string)
    ensures r != ""
    ensures message != "" ==> r == message
  {
    if message == "" then UnexpectedError else message
  }

  /** The state `handleGenerateItinerary` leaves once the request settled
      with `outcome`. */
  function Generated(s: AppState, outcome: Result<Itinerary, string>): (r: AppState)
    ensures !r.isLoading && r.saved == s.saved && r.currentPath == s.currentPath
    ensures outcome.Success? <==> r.itinerary.Some?
    ensures outcome.Success? ==> r.itinerary == Some(outcome.value) && r.error == None && r.hash == ItineraryPath
    ensures outcome.Failure? ==> r.error.Some? && r.error.value != "" && r.hash == HomePath
  {
    match outcome
    case Success(it) => s.(isLoading := false, error := None, itinerary := Some(it), hash := ItineraryPath)
    case Failure(m) => s.(isLoading := false, error := Some(ErrorText(m)), itinerary := None, hash := HomePath)
  }

  function Saved(s: AppState, it: Itinerary): AppState
  {
    s.(saved := Store.Save(s.saved, it))
  }

  function Deleted(s: AppState, id: string): AppState
  {
    s.(saved := Store.Delete(s.saved, id))
  }

  /** The state `handleLoadItinerary` leaves: the trip is on display once the
      fragment change is reported, and the saved list and flags are kept. */
  function Loaded(s: AppState, it: Itinerary): (r: AppState)
    ensures r.itinerary == Some(it) && r.hash == ItineraryPath
    ensures r.currentPath == s.currentPath && r.saved == s.saved && r.isLoading == s.isLoading && r.error == s.error
  {
    s.(itinerary := Some(it), hash := ItineraryPath)
  }

  /** No `hashchange` is pending: the current path reflects the fragment. */
  predicate Settled(s: AppState)
  {
    s.currentPath == NormalizeHash(s.hash)
  }

  /** The browser's part after a handler ran: a fragment that no longer
      matches the current path makes it fire `hashchange`, whose handler
      changes only the path and possibly drops the itinerary. */
  function Settle(s: AppState): (r: AppState)
    ensures Settled(r)
    ensures r.hash == s.hash && r.saved == s.saved && r.isLoading == s.isLoading && r.error == s.error
    ensures r.itinerary == s.itinerary || r.itinerary == None
    ensures Settled(s) ==> r == s
  {
    if Settled(s) then s else HashChanged(s)
  }

  /** A click on a navigation link to `href`, followed by the event it causes. */
  function NavigatedTo(s: AppState, href: string): AppState
  {
    Settle(s.(hash := href))
  }

  datatype Screen =
    | HomeScreen(isLoading: bool, error: Option<string>)
    | ConverterScreen
    | SavedTripsScreen(saved: seq<Itinerary>)
    | ItineraryScreen(itinerary: Itinerary, saved: seq<Itinerary>)

  /** `renderPage`. */
  function RenderPage(s: AppState): (r: Screen)
    ensures r.ConverterScreen? <==> s.currentPath == ConverterPath
    ensures r.SavedTripsScreen? <==> s.currentPath == SavedPath
    ensures r.ItineraryScreen? <==> s.currentPath == ItineraryPath && s.itinerary.Some?
    ensures r.HomeScreen? <==> s.currentPath !in {ConverterPath, SavedPath} && !(s.currentPath == ItineraryPath && s.itinerary.Some?)
    ensures r.ItineraryScreen? ==> r.itinerary == s.itinerary.value && r.saved == s.saved
    ensures r.SavedTripsScreen? ==> r.saved == s.saved
    ensures r.HomeScreen? ==> r.isLoading == s.isLoading && r.error == s.error
  {
    var home := HomeScreen(s.isLoading, s.error);
    if s.currentPath == HomePath then home
    else if s.currentPath == ConverterPath then ConverterScreen
    else if s.currentPath == SavedPath then SavedTripsScreen(s.saved)
    else if s.currentPath == ItineraryPath then
      (if s.itinerary.Some? then ItineraryScreen(s.itinerary.value, s.saved) else home)
    else home
  }

  // ------------------------------------------------------------------
  // Properties of the router and the handlers
  // ------------------------------------------------------------------

  /** A hash change makes the fragment (empty read as `#`) the current path,
      drops the held itinerary unless the new path is the itinerary or the
      saved list, and touches nothing else. */
  lemma HashChangeEffect(s: AppState)
    ensures var r := HashChanged(s);
            && r.currentPath == NormalizeHash(s.hash)
            && (s.hash == "" ==> r.currentPath == HomePath)
            && (r.currentPath != ItineraryPath && r.currentPath != SavedPath ==> r.itinerary == None)
            && (r.currentPath == ItineraryPath || r.currentPath == SavedPath ==> r.itinerary == s.itinerary)
            && r.hash == s.hash && r.saved == s.saved && r.isLoading == s.isLoading && r.error == s.error
            && Settled(r)
  {
  }

  /** Once the user has gone anywhere but the itinerary or the saved list,
      coming back to the itinerary path shows the planner, not an empty view. */
  lemma LeavingDropsItineraryView(s: AppState)
    requires NormalizeHash(s.hash) != ItineraryPath && NormalizeHash(s.hash) != SavedPath
    ensures RenderPage(HashChanged(HashChanged(s).(hash := ItineraryPath))).HomeScreen?
  {
  }

  /** A successful generation shows the new itinerary once the browser has
      reported the fragment change. */
  lemma GenerateSuccessShowsItinerary(s: AppState, it: Itinerary)
    requires Settled(s)
    ensures var r := Settle(Generated(s, Success(it)));
            && RenderPage(r) == ItineraryScreen(it, s.saved)
            && !r.isLoading && r.error == None && r.hash == ItineraryPath
  {
  }

  /** A failed generation returns to the planner with the error message (or
      the generic one when the message is empty) and holds no itinerary. */
  lemma GenerateFailureShowsHome(s: AppState, message: string)
    requires Settled(s)
    ensures var r := Settle(Generated(s, Failure(message)));
            && RenderPage(r) == HomeScreen(false, Some(if message == "" then UnexpectedError else message))
            && r.itinerary == None && r.hash == HomePath
  {
  }

  /** Whatever made the service call fail, the planner shows the service's
      one message. */
  lemma GenerationFailureMessage(s: AppState, prefs: TravelerPreferences,
                                 respond: Gemini.ItineraryPrompt -> Option<string>,
                                 parse: string -> Option<Gemini.ParsedItinerary>, freshId: string)
    requires Gemini.GenerateItinerary(prefs, respond, parse, freshId).Failure?
    ensures Generated(s, Gemini.GenerateItinerary(prefs, respond, parse, freshId)).error
            == Some(Gemini.GenerateFailedMessage)
  {
  }

  /** Loading a saved trip shows it. */
  lemma LoadShowsItinerary(s: AppState, it: Itinerary)
    requires Settled(s)
    ensures RenderPage(Settle(Loaded(s, it))) == ItineraryScreen(it, s.saved)
  {
  }

  /** After a click on a navigation link the path is the link's target and
      exactly that link is highlighted; a click on the current link changes
      nothing. */
  lemma NavigationHighlightsLink(s: AppState, i: nat)
    requires Settled(s) && i < |Navbar.Links|
    ensures var r := NavigatedTo(s, Navbar.Links[i]);
            && r.currentPath == Navbar.Links[i]
            && Navbar.IsActive(Navbar.Links[i], r.currentPath)
            && Navbar.ActiveCount(Navbar.Links, r.currentPath) == 1
    ensures s.hash == Navbar.Links[i] ==> NavigatedTo(s, Navbar.Links[i]) == s
  {
    var href := Navbar.Links[i];
    assert NormalizeHash(href) == href;
    Navbar.OneActiveLink(href);
  }

  /** Saving and deleting keep the saved ids distinct. */
  lemma StoreKeepsIdsDistinct(s: AppState, it: Itinerary, id: string)
    requires Store.DistinctIds(s.saved)
    ensures Store.DistinctIds(Saved(s, it).saved)
    ensures Store.DistinctIds(Deleted(s, id).saved)
  {
    Store.SavePreservesDistinctIds(s.saved, it);
    Store.DeletePreservesDistinctIds(s.saved, id);
  }

  // ------------------------------------------------------------------
  // The controller
  // ------------------------------------------------------------------

  class AppController {
    const location: Browser.Location
    var currentPath: string
    var itinerary: Option<Itinerary>
    var isLoading: bool
    var error: Option<string>
    var saved: seq<Itinerary>

    function State(): AppState
      reads this, location
    {
      AppState(currentPath, location.hash, itinerary, isLoading, error, saved)
    }

    /** The first render: the path comes from the fragment; the saved list
        from storage, empty when it is absent or unreadable (`stored` is
        None then). */
    constructor (location: Browser.Location, stored: Option<seq<Itinerary>>)
      ensures this.location == location
      ensures State() == AppState(NormalizeHash(location.hash), location.hash, None, false, None,
                                  if stored.Some? then stored.value else [])
      ensures Settled(State())
    {
      this.location := location;
      currentPath := NormalizeHash(location.hash);
      itinerary := None;
      isLoading := false;
      error := None;
      saved := if stored.Some? then stored.value else [];
    }

    method HandleHashChange()
      modifies this
      ensures State() == HashChanged(old(State()))
    {
      var hash := NormalizeHash(location.hash);
      if hash != ItineraryPath && hash != SavedPath {
        itinerary := None;
      }
      currentPath := hash;
    }

    /** `handleGenerateItinerary`, with the settled service call as `outcome`. */
    method HandleGenerateItinerary(outcome: Result<Itinerary, string>)
      modifies this, location
      ensures State() == Generated(old(State()), outcome)
    {
      isLoading := true;
      error := None;
      itinerary := None;
      match outcome {
        case Success(result) =>
          itinerary := Some(result);
          location.hash := ItineraryPath;
        case Failure(message) =>
          error := Some(ErrorText(message));
          location.hash := HomePath;
      }
      isLoading := false;
    }

    method HandleSaveItinerary(it: Itinerary)
      modifies this
      ensures State() == Saved(old(State()), it)
    {
      if Store.HasId(saved, it.id) {
        return;
      }
      saved := saved + [it];
    }

    method HandleDeleteItinerary(id: string)
      modifies this
      ensures State() == Deleted(old(State()), id)
    {
      saved := Store.Delete(saved, id);
    }

    method HandleLoadItinerary(it: Itinerary)
      modifies this, location
      ensures State() == Loaded(old(State()), it)
    {
      itinerary := Some(it);
      location.hash := ItineraryPath;
    }
  }
}
