/** The search and current-location state of the navigation bar (components/Navbar.tsx).

    Every asynchronous step of a handler is a separate event: the synchronous part of a
    handler, the arrival of a place lookup, the geolocation callback, the arrival of a
    reverse lookup and the firing of a 500 ms timer. Between events nothing runs, so the
    component is a sequential state machine. */
module Navbar {

  /** The message the submit path shows when there is nothing to submit. */
  const NotFound: string := "Location not found"

  /** A pending 500 ms timer and the commit its callback performs. */
  datatype Timer =
    | CommitSearch(candidate: string)  // the `city` captured by the submit that scheduled it
    | CommitLocation(name: string)     // the name the reverse lookup returned

  /** The outcome of a `/find` request: the `name` of each item in API order, or a failure. */
  datatype Lookup = Names(names: seq<string>) | LookupFailed

  /** The outcome of a `/weather?lat=..&lon=..` request: the `name` it returned, or a failure. */
  datatype Reverse = Resolved(name: string) | ReverseFailed

  datatype Event =
    | Typed(value: string)            // handleChange, up to the `await`
    | LookupDone(lookup: Lookup)      // handleChange, after the `await`
    | SuggestionClicked(item: string) // handleSuggestionClick
    | Submitted                       // handleSubmitSearch
    | LocationRequested(available: bool) // handleCurrentLocation; `available` is `navigator.geolocation`
    | PositionDone(granted: bool)     // the device answers getCurrentPosition
    | ReverseDone(reverse: Reverse)   // handleCurrentLocation, after the `await`
    | TimerFired                      // the oldest pending 500 ms timer runs

  /** The component's four local fields, the two shared atoms, and what is still outstanding:
      pending timers (oldest first) and the number of lookups, position requests and
      reverse lookups in flight. */
  datatype State = State(
    city: string,
    error: string,
    suggestions: seq<string>,
    showSuggestions: bool,
    place: string,
    loadingCity: bool,
    timers: seq<Timer>,
    lookups: nat,
    positions: nat,
    reverses: nat)

  /** The state on mount: empty input, no error, no suggestions, loading off. */
  function Init(initialPlace: string): (s: State)
  {
    State("", "", [], false, initialPlace, false, [], 0, 0, 0)
  }

  /** A response or a timer can only arrive for something outstanding. */
  predicate Enabled(s: State, e: Event)
  {
    match e
    case LookupDone(_) => s.lookups > 0
    case PositionDone(_) => s.positions > 0
    case ReverseDone(_) => s.reverses > 0
    case TimerFired => |s.timers| > 0
    case _ => true
  }

  /** The effect of one event. */
  function Step(s: State, e: Event): (r: State)
    requires Enabled(s, e)
  {
    match e
    case Typed(value) =>
      if |value| >= 3 then s.(city := value, lookups := s.lookups + 1)
      else s.(city := value, suggestions := [], showSuggestions := false)
    case LookupDone(Names(names)) =>
      s.(lookups := s.lookups - 1, suggestions := names, showSuggestions := true, error := "")
    case LookupDone(LookupFailed) =>
      s.(lookups := s.lookups - 1, suggestions := [], showSuggestions := false)
    case SuggestionClicked(item) =>
      s.(city := item, showSuggestions := false)
    case Submitted =>
      if |s.suggestions| == 0 then s.(error := NotFound, loadingCity := false)
      else s.(error := "", loadingCity := true, timers := s.timers + [CommitSearch(s.city)])
    case LocationRequested(available) =>
      if available then s.(positions := s.positions + 1) else s
    case PositionDone(granted) =>
      if granted then s.(positions := s.positions - 1, loadingCity := true, reverses := s.reverses + 1)
      else s.(positions := s.positions - 1)
    case ReverseDone(Resolved(name)) =>
      s.(reverses := s.reverses - 1, timers := s.timers + [CommitLocation(name)])
    case ReverseDone(ReverseFailed) =>
      s.(reverses := s.reverses - 1, loadingCity := false)
    case TimerFired =>
      match s.timers[0]
      case CommitSearch(candidate) =>
        s.(timers := s.timers[1..], loadingCity := false, place := candidate,
           showSuggestions := false, city := "")
      case CommitLocation(name) =>
        s.(timers := s.timers[1..], loadingCity := false, place := name)
  }

  /** Whether SuggestionBox renders its dropdown: suggestions are listed only when there
      are at least two of them, while an error is always shown. */
  predicate DropdownShown(showSuggestions: bool, suggestions: seq<string>, error: string)
  {
    (showSuggestions && |suggestions| > 1) || error != ""
  }

  /** The loading flag is only on while something outstanding will turn it off: a pending
      timer, or a reverse lookup in flight whose failure or timer does. */
  predicate LoadingAccounted(s: State)
  {
    s.loadingCity ==> |s.timers| > 0 || s.reverses > 0
  }

  /** A sequence of events each of which is enabled when it arrives. */
  predicate ValidTrace(s: State, es: seq<Event>)
    decreases |es|
  {
    es == [] || (Enabled(s, es[0]) && ValidTrace(Step(s, es[0]), es[1..]))
  }

  function Run(s: State, es: seq<Event>): (r: State)
    requires ValidTrace(s, es)
    decreases |es|
  {
    if es == [] then s else Run(Step(s, es[0]), es[1..])
  }

  /** Lets every pending timer fire, oldest first, with no other event in between. */
  function Drain(s: State): (r: State)
    decreases |s.timers|
  {
    if |s.timers| == 0 then s else Drain(Step(s, TimerFired))
  }

  /** How many timers fire during a trace. */
  function Fired(es: seq<Event>): (n: nat)
    decreases |es|
  {
    if es == [] then 0 else (if es[0] == TimerFired then 1 else 0) + Fired(es[1..])
  }

  /** The place a timer's callback commits. */
  function Target(t: Timer): (place: string)
  {
    match t
    case CommitSearch(candidate) => candidate
    case CommitLocation(name) => name
  }

  /* ---------------------------------------------------------------------------------
     What each handler does, and what it leaves alone.
     --------------------------------------------------------------------------------- */

  /** handleChange sets `city` to the typed value on every path; a short value makes no
      lookup and clears the dropdown without touching error, place or loading. */
  lemma TypedEffect(s: State, value: string)
    ensures Step(s, Typed(value)).city == value
    ensures |value| < 3 ==>
      (Step(s, Typed(value)) == s.(city := value, suggestions := [], showSuggestions := false))
    ensures |value| >= 3 ==> Step(s, Typed(value)) == s.(city := value, lookups := s.lookups + 1)
  {
  }

  /** A lookup that succeeds installs the names in API order, duplicates kept, opens the
      dropdown and clears the error; one that fails empties and hides it and keeps the error. */
  lemma LookupEffect(s: State, r: Lookup)
    requires s.lookups > 0
    ensures r.Names? ==> (Step(s, LookupDone(r)) ==
      s.(lookups := s.lookups - 1, suggestions := r.names, showSuggestions := true, error := ""))
    ensures r.LookupFailed? ==> (Step(s, LookupDone(r)) ==
      s.(lookups := s.lookups - 1, suggestions := [], showSuggestions := false))
  {
  }

  /** Clicking a suggestion puts it in the input and hides the dropdown; the list and the
      error stay. */
  lemma SuggestionClickEffect(s: State, item: string)
    ensures Step(s, SuggestionClicked(item)) == s.(city := item, showSuggestions := false)
  {
  }

  /** Submitting with no suggestions reports "Location not found" and leaves loading off and
      nothing scheduled; with suggestions it clears the error, turns loading on and schedules
      a commit of the current input, whether or not that input is one of the suggestions. */
  lemma SubmitEffect(s: State)
    ensures |s.suggestions| == 0 ==> Step(s, Submitted) == s.(error := NotFound, loadingCity := false)
    ensures |s.suggestions| > 0 ==> (Step(s, Submitted) ==
      s.(error := "", loadingCity := true, timers := s.timers + [CommitSearch(s.city)]))
  {
  }

  /** The submit timer commits the captured candidate, turns loading off, hides the dropdown
      and empties the input; it does not clear the suggestion list or the error. */
  lemma CommitSearchEffect(s: State, candidate: string)
    requires |s.timers| > 0 && s.timers[0] == CommitSearch(candidate)
    ensures Step(s, TimerFired) == s.(timers := s.timers[1..], loadingCity := false,
      place := candidate, showSuggestions := false, city := "")
  {
  }

  /** Without geolocation nothing happens; a denied position changes nothing but the count of
      outstanding requests; a granted one turns loading on and starts the reverse lookup,
      whose failure turns loading off with the place kept and whose success schedules a
      commit; that commit sets the place and turns loading off, and touches neither the
      suggestions, the input nor the error. */
  lemma LocationEffect(s: State, name: string)
    ensures Step(s, LocationRequested(false)) == s
    ensures s.positions > 0 ==> Step(s, PositionDone(false)) == s.(positions := s.positions - 1)
    ensures s.positions > 0 ==> (Step(s, PositionDone(true)) ==
      s.(positions := s.positions - 1, loadingCity := true, reverses := s.reverses + 1))
    ensures s.reverses > 0 ==> (Step(s, ReverseDone(ReverseFailed)) ==
      s.(reverses := s.reverses - 1, loadingCity := false))
    ensures s.reverses > 0 ==> (Step(s, ReverseDone(Resolved(name))) ==
      s.(reverses := s.reverses - 1, timers := s.timers + [CommitLocation(name)]))
    ensures |s.timers| > 0 && s.timers[0] == CommitLocation(name) ==>
      (Step(s, TimerFired) == s.(timers := s.timers[1..], loadingCity := false, place := name))
  {
  }

  /** With no error the dropdown opens exactly when suggestions are to be shown and there are
      two or more of them; any error opens it, even with the suggestions hidden. */
  lemma DropdownCases(showSuggestions: bool, suggestions: seq<string>, error: string)
    ensures error == "" ==>
      (DropdownShown(showSuggestions, suggestions, error) <==> showSuggestions && |suggestions| >= 2)
    ensures error != "" ==> DropdownShown(showSuggestions, suggestions, error)
  {
  }

  /** A single suggestion on its own never opens the dropdown. */
  lemma SingleSuggestionHidden(item: string, showSuggestions: bool)
    ensures !DropdownShown(showSuggestions, [item], "")
  {
  }

  /** A failed submit always opens the dropdown, to show its error. */
  lemma NotFoundIsShown(s: State)
    requires |s.suggestions| == 0
    ensures var t := Step(s, Submitted); DropdownShown(t.showSuggestions, t.suggestions, t.error)
  {
  }

  /* ---------------------------------------------------------------------------------
     The loading flag.
     --------------------------------------------------------------------------------- */

  lemma StepKeepsLoadingAccounted(s: State, e: Event)
    requires Enabled(s, e) && LoadingAccounted(s)
    ensures LoadingAccounted(Step(s, e))
  {
  }

  /** Every trace keeps the loading flag accounted for. */
  lemma {:induction false} RunKeepsLoadingAccounted(s: State, es: seq<Event>)
    requires LoadingAccounted(s) && ValidTrace(s, es)
    ensures LoadingAccounted(Run(s, es))
    decreases |es|
  {
    if es != [] {
      StepKeepsLoadingAccounted(s, es[0]);
      RunKeepsLoadingAccounted(Step(s, es[0]), es[1..]);
    }
  }

  /** Once every timer has fired and no reverse lookup is in flight, loading is off,
      whatever happened since mount. */
  lemma SettledIsNotLoading(initialPlace: string, es: seq<Event>)
    requires ValidTrace(Init(initialPlace), es)
    requires Run(Init(initialPlace), es).timers == [] && Run(Init(initialPlace), es).reverses == 0
    ensures !Run(Init(initialPlace), es).loadingCity
  {
    RunKeepsLoadingAccounted(Init(initialPlace), es);
  }

  /** Letting the pending timers fire leaves none pending and, when there was at least one,
      commits the place of the newest and turns loading off; the suggestion list and the
      reverse lookups in flight stay as they were. */
  lemma {:induction false} DrainEffect(s: State)
    ensures Drain(s).timers == []
    ensures |s.timers| > 0 ==> Drain(s).place == Target(s.timers[|s.timers| - 1])
    ensures |s.timers| > 0 ==> !Drain(s).loadingCity
    ensures Drain(s).reverses == s.reverses && Drain(s).suggestions == s.suggestions
    decreases |s.timers|
  {
    if |s.timers| > 0 {
      var t := Step(s, TimerFired);
      assert t.timers == s.timers[1..];
      DrainEffect(t);
    }
  }

  /** The flag is never left on: from any accounted state with no reverse lookup in flight,
      letting the timers fire turns it off. */
  lemma DrainClearsLoading(s: State)
    requires LoadingAccounted(s) && s.reverses == 0
    ensures !Drain(s).loadingCity
  {
    DrainEffect(s);
  }

  /** Every event other than a timer firing keeps the pending timers as a prefix of the
      queue; a timer firing removes exactly the oldest one. */
  lemma StepKeepsPendingTimers(s: State, e: Event)
    requires Enabled(s, e)
    ensures e != TimerFired ==>
      (|Step(s, e).timers| >= |s.timers| && Step(s, e).timers[..|s.timers|] == s.timers)
    ensures e == TimerFired ==> Step(s, e).timers == s.timers[1..]
  {
  }

  /** A pending timer is neither dropped nor reordered by whatever happens next: after a
      trace in which `Fired(es)` timers fire, the timer that was `k`-th in the queue is
      `k - Fired(es)`-th, for every `k` not yet reached. */
  lemma {:induction false} PendingSurvives(s: State, es: seq<Event>, k: nat)
    requires ValidTrace(s, es) && Fired(es) <= k < |s.timers|
    ensures k - Fired(es) < |Run(s, es).timers|
    ensures Run(s, es).timers[k - Fired(es)] == s.timers[k]
    decreases |es|
  {
    if es != [] {
      var t := Step(s, es[0]);
      StepKeepsPendingTimers(s, es[0]);
      if es[0] == TimerFired {
        assert t.timers[k - 1] == s.timers[k];
        PendingSurvives(t, es[1..], k - 1);
      } else {
        assert t.timers[k] == t.timers[..|s.timers|][k] == s.timers[k];
        PendingSurvives(t, es[1..], k);
      }
    }
  }

  /** A successful submit commits the input it was made with, whatever happens before its
      timer fires (typing, clicks, lookups, other submits, location events): once as many
      timers have fired as were pending at the submit, its commit is next, and firing it
      sets the place to the captured input, turns loading off, hides the dropdown and
      empties the input while keeping the suggestion list. */
  lemma SubmitEventuallyCommits(s: State, es: seq<Event>)
    requires |s.suggestions| > 0
    requires ValidTrace(Step(s, Submitted), es) && Fired(es) == |s.timers|
    ensures var t := Run(Step(s, Submitted), es);
      |t.timers| > 0 && t.timers[0] == CommitSearch(s.city) &&
      var u := Step(t, TimerFired);
      u.place == s.city && !u.loadingCity && !u.showSuggestions && u.city == "" &&
      u.suggestions == t.suggestions
  {
    PendingSurvives(Step(s, Submitted), es, |s.timers|);
  }

  /** A resolved current location becomes the place whatever happens before its timer
      fires: once the timers pending at the resolution have fired, its commit is next, and
      firing it sets the place to the returned name and turns loading off, leaving the
      suggestions, the input and the error alone. */
  lemma LocationEventuallyCommits(s: State, name: string, es: seq<Event>)
    requires s.reverses > 0
    requires ValidTrace(Step(s, ReverseDone(Resolved(name))), es) && Fired(es) == |s.timers|
    ensures var t := Run(Step(s, ReverseDone(Resolved(name))), es);
      |t.timers| > 0 && t.timers[0] == CommitLocation(name) &&
      var u := Step(t, TimerFired);
      u.place == name && !u.loadingCity &&
      u.suggestions == t.suggestions && u.city == t.city && u.error == t.error
  {
    PendingSurvives(Step(s, ReverseDone(Resolved(name))), es, |s.timers|);
  }

  /** With nothing but timer firings after a successful submit, loading ends off and the
      place ends as the submitted input. */
  lemma SubmitThenDrainCommits(s: State)
    requires |s.suggestions| > 0
    ensures Drain(Step(s, Submitted)).place == s.city
    ensures !Drain(Step(s, Submitted)).loadingCity
  {
    DrainEffect(Step(s, Submitted));
  }

  /* ---------------------------------------------------------------------------------
     Consequences of the closures and of the shared flag, as the code is written.
     --------------------------------------------------------------------------------- */

  /** The commit leaves the suggestion list in place, so submitting again with the now empty
      input passes the check and commits the empty string as the place. */
  lemma ResubmitCommitsEmptyPlace(s: State)
    requires |s.suggestions| > 0 && s.timers == []
    ensures var once := Step(Step(s, Submitted), TimerFired);
      once.suggestions == s.suggestions && once.city == "" &&
      Step(Step(once, Submitted), TimerFired).place == ""
  {
  }

  /** The shared flag can drop while a commit is still pending: clearing the suggestions and
      submitting again turns loading off before the first submit's timer fires. */
  lemma LoadingDropsWhileCommitPending(s: State)
    requires |s.suggestions| > 0 && s.timers == []
    ensures var t := Step(Step(Step(s, Submitted), Typed("")), Submitted);
      !t.loadingCity && t.timers == [CommitSearch(s.city)] && t.error == NotFound
  {
  }

  /* ---------------------------------------------------------------------------------
     Scenarios.
     --------------------------------------------------------------------------------- */

  /** Typing "Lon", receiving two names and submitting "London" ends with "London" as the
      place and loading off. */
  lemma LondonScenario(initialPlace: string)
    ensures var typed := Step(Init(initialPlace), Typed("Lon"));
      var found := Step(typed, LookupDone(Names(["London", "Londonderry"])));
      var chosen := Step(found, Typed("London"));
      var submitted := Step(chosen, Submitted);
      var done := Step(submitted, TimerFired);
      found.showSuggestions && found.error == "" &&
      DropdownShown(found.showSuggestions, found.suggestions, found.error) &&
      submitted.loadingCity && done.place == "London" && !done.loadingCity
  {
  }

  /** Typing "zzz", receiving no names and submitting reports "Location not found" and keeps
      the place. */
  lemma NoMatchScenario(initialPlace: string)
    ensures var typed := Step(Init(initialPlace), Typed("zzz"));
      var found := Step(typed, LookupDone(Names([])));
      var submitted := Step(found, Submitted);
      submitted.error == NotFound && submitted.place == initialPlace &&
      !submitted.loadingCity && submitted.timers == []
  {
  }

  /** A located device resolved to "London" commits "London" without ever filling the
      suggestion list. */
  lemma LocationScenario(initialPlace: string)
    ensures var asked := Step(Init(initialPlace), LocationRequested(true));
      var located := Step(asked, PositionDone(true));
      var resolved := Step(located, ReverseDone(Resolved("London")));
      var done := Step(resolved, TimerFired);
      located.loadingCity && done.place == "London" && !done.loadingCity && done.suggestions == []
  {
  }

  /* ---------------------------------------------------------------------------------
     The component itself.
     --------------------------------------------------------------------------------- */

  class Component {
    var city: string
    var error: string
    var suggestions: seq<string>
    var showSuggestions: bool
    var place: string
    var loadingCity: bool
    var timers: seq<Timer>
    var lookups: nat
    var positions: nat
    var reverses: nat

    function Snapshot(): (s: State)
      reads this
    {
      State(city, error, suggestions, showSuggestions, place, loadingCity,
            timers, lookups, positions, reverses)
    }

    ghost predicate Valid()
      reads this
    {
      LoadingAccounted(Snapshot())
    }

    constructor (initialPlace: string)
      ensures Valid() && Snapshot() == Init(initialPlace)
    {
      city, error, suggestions, showSuggestions := "", "", [], false;
      place, loadingCity := initialPlace, false;
      timers, lookups, positions, reverses := [], 0, 0, 0;
    }

    /** The synchronous part of handleChange; reports whether a lookup was sent. */
    method HandleChange(value: string) returns (lookupSent: bool)
      requires Valid()
      modifies this
      ensures Valid() && Snapshot() == Step(old(Snapshot()), Typed(value))
      ensures lookupSent <==> |value| >= 3
    {
      city := value;
      lookupSent := |value| >= 3;
      if lookupSent {
        lookups := lookups + 1;
      } else {
        suggestions := [];
        showSuggestions := false;
      }
    }

    /** The part of handleChange after its lookup settles. */
    method ReceiveLookup(response: Lookup)
      requires Valid() && lookups > 0
      modifies this
      ensures Valid() && Snapshot() == Step(old(Snapshot()), LookupDone(response))
    {
      lookups := lookups - 1;
      match response
      case Names(names) =>
        suggestions := names;
        showSuggestions := true;
        error := "";
      case LookupFailed =>
        suggestions := [];
        showSuggestions := false;
    }

    method HandleSuggestionClick(item: string)
      requires Valid()
      modifies this
      ensures Valid() && Snapshot() == Step(old(Snapshot()), SuggestionClicked(item))
    {
      city := item;
      showSuggestions := false;
    }

    /** handleSubmitSearch: the flag goes on first and back off on the failing path. */
    method HandleSubmitSearch()
      requires Valid()
      modifies this
      ensures Valid() && Snapshot() == Step(old(Snapshot()), Submitted)
    {
      loadingCity := true;
      if |suggestions| == 0 {
        error := NotFound;
        loadingCity := false;
      } else {
        error := "";
        timers := timers + [CommitSearch(city)];
      }
    }

    /** handleCurrentLocation; reports whether a position was requested. */
    method HandleCurrentLocation(geolocationAvailable: bool) returns (requested: bool)
      requires Valid()
      modifies this
      ensures Valid() && Snapshot() == Step(old(Snapshot()), LocationRequested(geolocationAvailable))
      ensures requested == geolocationAvailable
    {
      requested := geolocationAvailable;
      if requested {
        positions := positions + 1;
      }
    }

    /** The getCurrentPosition callback up to its `await`; a denial has no callback. */
    method ReceivePosition(granted: bool)
      requires Valid() && positions > 0
      modifies this
      ensures Valid() && Snapshot() == Step(old(Snapshot()), PositionDone(granted))
    {
      positions := positions - 1;
      if granted {
        loadingCity := true;
        reverses := reverses + 1;
      }
    }

    /** The getCurrentPosition callback after its reverse lookup settles. */
    method ReceiveReverseLookup(response: Reverse)
      requires Valid() && reverses > 0
      modifies this
      ensures Valid() && Snapshot() == Step(old(Snapshot()), ReverseDone(response))
    {
      reverses := reverses - 1;
      match response
      case Resolved(name) =>
        timers := timers + [CommitLocation(name)];
      case ReverseFailed =>
        loadingCity := false;
    }

    /** The oldest pending timer's callback. */
    method FireTimer()
      requires Valid() && |timers| > 0
      modifies this
      ensures Valid() && Snapshot() == Step(old(Snapshot()), TimerFired)
    {
      var t := timers[0];
      timers := timers[1..];
      loadingCity := false;
      match t
      case CommitSearch(candidate) =>
        place := candidate;
        showSuggestions := false;
        city := "";
      case CommitLocation(name) =>
        place := name;
    }

    /** SuggestionBox's decision whether to render the dropdown. */
    method SuggestionBoxShown() returns (shown: bool)
      ensures error != "" ==> shown
      ensures error == "" ==> (shown <==> showSuggestions && |suggestions| >= 2)
    {
      shown := DropdownShown(showSuggestions, suggestions, error);
      DropdownCases(showSuggestions, suggestions, error);
    }
  }
}
