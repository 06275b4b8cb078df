# Weather app: search bar state machine and day/night icon choice

This project models two parts of a Next.js weather client in Dafny.

- **The navigation bar's search and current-location logic** (`components/Navbar.tsx`).
  The component keeps four local fields: the input `city`, the `error` message, the
  `suggestions` list and the `showSuggestions` flag. It also writes two shared atoms: the
  current `place` and the `loadingCity` flag. Its handlers are asynchronous. Each step
  between two suspension points is one `Event`:
  - the synchronous part of a handler;
  - the arrival of a place lookup (`/find`);
  - the device's answer to `getCurrentPosition`;
  - the arrival of a reverse lookup (`/weather?lat=..&lon=..`);
  - the firing of a 500 ms timer.

  The module `Navbar` defines the `State` of the component and its environment, and
  `Step(s, e)` as the effect of one event. The `State` records what is pending: the timers,
  oldest first, each carrying the place its callback commits, and counts of the requests in
  flight. The class `Navbar.Component` holds the same fields and has one method per event.
  Each method is proved to change the fields exactly as `Step` says and to keep the
  loading invariant. Lemmas about `Step`, `Run` (a whole trace of events) and `Drain`
  (every pending timer firing) state what the handlers promise. One fact is proved for
  every trace from mount: the loading flag is only on while a timer, or a reverse lookup
  whose failure or timer turns it off, is outstanding.
- **`getDayOrNight`** (`src/utils/getDayOrNight.ts`). It treats 05:00 up to, but not
  including, 18:00 as day. It then rewrites the last character of an icon code to `'d'` or
  `'n'` with `replace(/.$/, ...)`. The module `DayNight` takes the hour as an input:
  `At(h)`, or `NotANumber` for a date that does not parse.

Four consequences of the code as written are stated as lemmas:
- The submit timer does not clear the suggestion list (Navbar.tsx:63-68). So a second
  submit with the now empty input passes validation and commits `""` as the place
  (`ResubmitCommitsEmptyPlace`), as long as the component stays mounted (see "Left out").
- `loadingCity` is one shared flag. A failed submit or a failed reverse lookup turns it off
  even while an earlier commit is still pending (`LoadingDropsWhileCommitPending`). What
  does hold is proved: loading is never left on once nothing is outstanding.
- `getCurrentPosition` is given no error callback. A denied or failed position request
  therefore changes nothing: the loading flag was never set.
- A failed place lookup does not set an error, because that line is commented out
  (Navbar.tsx:42).

## Model

| member | source | states |
|---|---|---|
| DayNight.GetDayOrNight | src/utils/getDayOrNight.ts:1-9 | the result has the input's length; all characters but the last are kept; if the input ends in an ordinary character, the last one becomes 'd' by day and 'n' by night; otherwise (empty, or ending in a line terminator) the input comes back unchanged |
| DayNight.ReplaceLast | src/utils/getDayOrNight.ts:8 | `replace(/.$/, c)` keeps the length and every character but the last, puts `c` last when the pattern matches, and returns the string unchanged when there is no match |
| DayNight.DayBoundaries | src/utils/getDayOrNight.ts:6 | hour 4 is night, 5 is day, 17 is day, 18 is night |
| DayNight.NotANumberIsNight | src/utils/getDayOrNight.ts:4-8 | an unparseable date (NaN hour) fails both comparisons and picks the night variant |
| DayNight.EmptyUnchanged | src/utils/getDayOrNight.ts:8 | an empty icon code comes back empty |
| DayNight.LaterHourWins | src/utils/getDayOrNight.ts:8 | rewriting an already rewritten code with another hour gives what the second hour alone gives |
| DayNight.Idempotent | src/utils/getDayOrNight.ts:8 | applying the rewrite twice with the same hour equals applying it once |
| Navbar.TypedEffect | components/Navbar.tsx:29-47 | `city` becomes the typed value on every path; under 3 characters no lookup is sent, the suggestions are emptied and hidden, and error, place and loading stay; from 3 characters a lookup is sent and nothing else changes |
| Navbar.LookupEffect | components/Navbar.tsx:31-43 | a successful lookup sets the suggestions to the returned names in API order with duplicates kept, shows them and clears the error; a failed one empties and hides them and leaves the error as it was |
| Navbar.SuggestionClickEffect | components/Navbar.tsx:50-53 | clicking an item puts it in the input and hides the dropdown; the list, the error, the place and loading stay |
| Navbar.SubmitEffect | components/Navbar.tsx:55-62 | with no suggestions: error "Location not found", loading off, place and input kept, nothing scheduled; with some: error cleared, loading on, a commit of the current input scheduled, with no check that the input is one of the suggestions |
| Navbar.CommitSearchEffect | components/Navbar.tsx:63-68 | the submit timer turns loading off, sets the place to the captured candidate, hides the dropdown and empties the input; the suggestion list and error are kept |
| Navbar.LocationEffect | components/Navbar.tsx:72-89 | without geolocation nothing changes; a granted position turns loading on before the reverse lookup; a failed lookup turns loading off and keeps the place; a successful one schedules a commit that sets the place to the returned name and turns loading off, leaving suggestions, input and error alone |
| Navbar.DropdownCases | components/Navbar.tsx:149 | with no error the dropdown opens iff suggestions are to be shown and there are at least two; any error opens it, whether or not the suggestions are to be shown |
| Navbar.SingleSuggestionHidden | components/Navbar.tsx:149 | one suggestion alone, with no error, never opens the dropdown |
| Navbar.NotFoundIsShown | components/Navbar.tsx:58-59 | a failed submit always leaves the dropdown open, showing its error |
| Navbar.StepKeepsLoadingAccounted | components/Navbar.tsx:29-89 | every event keeps the invariant "loading on implies a pending timer or a reverse lookup in flight" |
| Navbar.RunKeepsLoadingAccounted | components/Navbar.tsx:29-89 | every trace of events keeps that invariant |
| Navbar.SettledIsNotLoading | components/Navbar.tsx:56-86 | after any trace from mount, once no timer is pending and no reverse lookup is in flight, loading is off |
| Navbar.DrainEffect | components/Navbar.tsx:63-84 | letting every pending timer fire leaves none pending and keeps the suggestions and the reverse lookups in flight; when at least one timer was pending, it makes the newest timer's target the place and turns loading off |
| Navbar.DrainClearsLoading | components/Navbar.tsx:63-84 | from any state satisfying the invariant with no reverse lookup in flight, the timers firing turn loading off |
| Navbar.StepKeepsPendingTimers | components/Navbar.tsx:55-89 | every event but a timer firing keeps the pending timers as a prefix of the queue; a timer firing removes exactly the oldest |
| Navbar.PendingSurvives | components/Navbar.tsx:63-84 | after any trace in which `Fired(es)` timers fire, a timer that was k-th pending (k not yet reached) is (k - Fired(es))-th: no event drops or reorders a pending commit |
| Navbar.SubmitEventuallyCommits | components/Navbar.tsx:55-68 | after a submit with suggestions and ANY following events, once the timers pending at the submit have fired, its commit is next; firing it sets the place to the input captured at the submit, turns loading off, hides the dropdown, empties the input and keeps the suggestion list |
| Navbar.LocationEventuallyCommits | components/Navbar.tsx:78-84 | after a resolved reverse lookup and ANY following events, once the earlier timers have fired, its commit is next; firing it sets the place to the returned name and turns loading off, leaving suggestions, input and error alone |
| Navbar.SubmitThenDrainCommits | components/Navbar.tsx:55-68 | with only timer firings after a submit with suggestions, the place ends as the submitted input and loading ends off |
| Navbar.ResubmitCommitsEmptyPlace | components/Navbar.tsx:58-68 | a commit keeps the suggestion list and empties the input, so submitting again commits "" as the place |
| Navbar.LoadingDropsWhileCommitPending | components/Navbar.tsx:44-68 | clearing the suggestions and submitting again turns loading off while the first submit's commit is still pending |
| Navbar.LondonScenario | components/Navbar.tsx:29-68 | typing "Lon", receiving ["London", "Londonderry"] and submitting "London" shows the dropdown with no error and ends with place "London" and loading off |
| Navbar.NoMatchScenario | components/Navbar.tsx:29-60 | typing "zzz" with no matches and submitting gives "Location not found", keeps the place, leaves loading off and schedules nothing |
| Navbar.LocationScenario | components/Navbar.tsx:72-89 | a device located and resolved to "London" sets loading on, then commits "London" with loading off and the suggestion list still empty |
| Navbar.Component.constructor | components/Navbar.tsx:21-27 | the component mounts with empty input, no error, no suggestions, the given place and loading off |
| Navbar.Component.HandleChange | components/Navbar.tsx:29-31 | the synchronous part of handleChange changes the fields as `Step` does for a typed value, reports whether a lookup was sent, and keeps the invariant |
| Navbar.Component.ReceiveLookup | components/Navbar.tsx:32-43 | the rest of handleChange applies a lookup's outcome as `Step` does, and keeps the invariant |
| Navbar.Component.HandleSuggestionClick | components/Navbar.tsx:50-53 | handleSuggestionClick changes the fields as `Step` does, and keeps the invariant |
| Navbar.Component.HandleSubmitSearch | components/Navbar.tsx:55-70 | handleSubmitSearch turns loading on, then either reports the error and turns it off or schedules the commit, as `Step` does |
| Navbar.Component.HandleCurrentLocation | components/Navbar.tsx:72-74 | handleCurrentLocation requests a position exactly when geolocation is available, and otherwise changes nothing |
| Navbar.Component.ReceivePosition | components/Navbar.tsx:74-80 | a granted position turns loading on and starts the reverse lookup; a denied one changes nothing else |
| Navbar.Component.ReceiveReverseLookup | components/Navbar.tsx:80-87 | a resolved name schedules its commit; a failure turns loading off |
| Navbar.Component.FireTimer | components/Navbar.tsx:63-68 | the oldest pending timer's callback performs its commit, as `Step` does, and keeps the invariant |
| Navbar.Component.SuggestionBoxShown | components/Navbar.tsx:149 | with a non-empty error the dropdown is rendered; with no error it is rendered iff the suggestions are to be shown and there are at least two of them |

## Left out

- The forecast page (`app/page.tsx`) is not part of this model. Its fetching, caching under one constant key and refetch on a place change happen inside the query library. Its temperature and visibility arithmetic is floating point.
- `src/components/SearchBox.tsx` and `tailwind.config.ts` are not part of this model. They are presentation and styling only.
- The component is modelled as staying mounted. The forecast page renders only its loading view while the forecast query has no data (app/page.tsx:101), on the first load and when a query that never succeeded refetches. In that case page.tsx unmounts the navigation bar and mounts it again (app/page.tsx:131), which resets `city`, `error`, `suggestions` and `showSuggestions`, while timers already scheduled still write the shared atoms. On that path `ResubmitCommitsEmptyPlace` does not apply: the remounted component has no suggestions, so the second submit shows "Location not found".
- HTTP requests, the geolocation device and `setTimeout` are not modelled. Their outcomes are the parameters of the response events. The coordinates are dropped, because only the returned name is used.
- Timers: pending timers fire oldest first. All of them have the same 500 ms delay, so they run in the order they were scheduled. Wall-clock time is not modelled.
- Request races: a lookup response is applied whenever it arrives, whatever was typed since. The code does not tag or cancel requests, so no "latest response wins" guarantee is claimed.
- The initial values of the shared atoms come from `app/atom`, which is not part of this model. The constructor takes the initial place as a parameter and starts with loading off.
- A reverse-lookup body without a `name`, or a lookup item without one, is not modelled. Names are always strings.
- Strings are sequences of Unicode scalar values (`char`), while JavaScript's `length` and the regular expression's `.` count UTF-16 code units. The two agree only for text without characters outside the Basic Multilingual Plane. Such characters are not modelled: for `"😀a"` JavaScript counts 3 and sends a lookup where the model counts 2, and `"x😀".replace(/.$/, 'd')` rewrites only the low surrogate where `ReplaceLast` replaces the whole character.
- `new Date(...)` parsing and the local-time `getHours()` are not modelled. The hour is an input.
- JavaScript regular-expression semantics are modelled only as far as `/.$/` needs them. It matches the final character unless that character is a line terminator (`\n`, `\r`, U+2028, U+2029).
