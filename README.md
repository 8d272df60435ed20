# Draw simulator: pot view and pot loading, in Dafny

This project models the two parts of the draw simulator that hold its logic:

- **The pots container view** (`PotsContainer`). For every original pot it derives the
  pot number, whether it is the pot being drawn from, which teams have been picked
  (the original pot minus the teams still in the remaining pot and the teams in the
  current selection, as lodash `difference` computes it) and whether the pot is depleted.
- **The draw pages controller** (`Routes.Pages`). This is a class holding the component's
  props and state, the memo table of `getPots` and the `uniqueId` counter. It has one
  method per event:
  - mount;
  - props change: refetch, re-key or nothing;
  - start of a load, the memoised lookup, the flag prefetch;
  - success, which publishes the pots under a fresh key;
  - failure, which shows "Could not fetch data";
  - the end of the error path after its delay, which asks the router to fall back to
    the last season that loaded and clears the error.

  `getPopup` is a function of the state: offline over error over waiting.

Supporting modules:
- `Teams`: teams are objects compared by identity.
- `Lodash`: `difference` and the tokens of `uniqueId`.
- `Numerals`: decimal numerals, as used in `uniqueId` tokens, in `${season}` inside the
  memo key and in `+params.season`.

Outside inputs are parameters:
- the fetch-and-parse result is an `Outcome`;
- whether every image prefetch succeeded is a boolean;
- `getCountryFlagUrl` is a function from country to URL;
- `navigator.onLine` is a boolean;
- `currentSeason` is a constant given to the constructor.

`fetchData` up to the 1000 ms delay of `onFetchError` runs as one sequential event
(`FetchData`); the rest of `onFetchError` is a second event (`FinishFetchError`). The
`waiting` state is therefore seen between events only after a bare `StartLoad`.

Behaviour of the code worth knowing:
- A failed image prefetch rejects `Promise.all`. That takes the error path; it is not
  swallowed.
- `memoize` keeps whatever it stored, so a failed fetch is returned again for the same key.
  There is no retry (`RepeatedRequestIsServedFromCache`).
- There is no request-generation token.
- `depleted` tests `!pot` on the original pot, never on the remaining one. Because the
  same original pot has already been indexed for the key, this test is always false.
- The memo key is a dash-joined string. Requests whose names contain dashes can share an
  entry (`CacheKeyCollides`). Without dashes, keys are distinct (`CacheKeyDistinguishes`).

## Model

| member | source | states |
|---|---|---|
| `Lodash.Difference` | src/components/PotsContainer/index.tsx:45 | the result keeps exactly the elements of the first list that are not excluded, each with its multiplicity, and is no longer than the first list |
| `Lodash.DifferenceIsSubsequence` | src/components/PotsContainer/index.tsx:45 | `difference` keeps the order of the original pot (its result is a subsequence) |
| `Lodash.DifferenceKeepsAllIff` | src/components/PotsContainer/index.tsx:45-54 | nothing is removed exactly when no element of the list is excluded |
| `Lodash.UniqueIdToken` | src/routes/pages.tsx:39 | a `uniqueId` token is a decimal numeral |
| `Lodash.UniqueIdTokenFresh` | src/routes/pages.tsx:93 | a new `uniqueId` token differs from every token handed out before it |
| `Numerals.NatToStringInjective` | src/routes/pages.tsx:93 | distinct counters give distinct tokens, and back |
| `Numerals.DecimalValueOfNatToString` | src/routes/pages.tsx:78 | unary `+` on a rendered numeral gives the number back |
| `Numerals.IntToStringInjective` | src/routes/pages.tsx:122 | `${season}` renders distinct seasons as distinct strings |
| `PotsContainer.PickedTeams` | src/components/PotsContainer/index.tsx:45 | the picked teams of pot i are exactly the teams of the original pot that are in neither the remaining pot (nothing when `pots[i]` is missing) nor the selection (nothing when it is null), and are no more than the pot holds |
| `PotsContainer.Render` | src/components/PotsContainer/index.tsx:43-57 | one view per original pot, in order, with `potNum` its index, the original teams, the key from the first team's id, `isCurrent` iff the index is `currentPotNum`, `pickedTeams` the `difference` of that pot, `depleted` iff all its teams are picked |
| `PotsContainer.AtMostOneCurrent` | src/components/PotsContainer/index.tsx:44 | no two pots are current |
| `PotsContainer.PickedTeamsCharacterised` | src/components/PotsContainer/index.tsx:45 | a team is picked iff it is in the original pot and in neither the remaining pot nor the selection; picked teams keep their order and multiplicity and number at most the pot's size |
| `PotsContainer.DepletedIff` | src/components/PotsContainer/index.tsx:54 | a pot is depleted iff none of its original teams is still in the remaining pot or in the selection |
| `PotsContainer.NullSelectionActsAsEmpty` | src/components/PotsContainer/index.tsx:45 | a null selection gives the same picked teams, depletion and current flags as an empty one |
| `PotsContainer.TwoPotExample` | src/components/PotsContainer/index.tsx:43-54 | pots [[A,B],[C,D]] with remaining [[B],[C,D]] and no selection: pot 0 picked [A], not depleted; pot 1 picked nothing |
| `PotsContainer.EmptiedPotExample` | src/components/PotsContainer/index.tsx:54 | with pot 0 emptied, pot 0 has picked [A,B] and is depleted |
| `Routes.MatchParamsOf` | src/routes/pages.tsx:74-80 | keeps tournament and stage; an absent or empty season segment gives the current season, a present one a non-negative number |
| `Routes.SeasonSegmentRoundTrip` | src/routes/pages.tsx:78 | a season written into the path is read back unchanged |
| `Routes.CacheKey` | src/routes/pages.tsx:122 | the memo key is the tournament, a dash, the stage, a dash and the season's decimal rendering, in that order and nothing else |
| `Routes.CacheKeyDistinguishes` | src/routes/pages.tsx:119-122 | for dash-free tournament and stage, two memo keys are equal iff tournament, stage and season are, so the stage separates entries although the fetch does not use it |
| `Routes.CacheKeyCollides` | src/routes/pages.tsx:122 | names containing dashes can make different requests share one memo key |
| `Routes.FlagUrlsLength` | src/routes/pages.tsx:124-131 | exactly one prefetch per team: the total is the sum of the pot sizes |
| `Routes.FlagUrlsAt` | src/routes/pages.tsx:124-131 | team j of pot i is prefetched at position (teams in earlier pots) + j, so the order is pot by pot, then team by team |
| `Routes.FallbackSeason` | src/routes/pages.tsx:111-112 | the fallback is the stored season iff pots are shown and that season is not the current one, otherwise undefined |
| `Routes.PropsChange` | src/routes/pages.tsx:65-71 | refetch iff tournament, stage or season differs; otherwise re-key with the new dummy key iff it differs; otherwise nothing |
| `Routes.Pages.constructor` | src/routes/pages.tsx:38-44 | the initial state: a fresh key, no pots, not waiting, no error, the current season, an empty memo table |
| `Routes.Pages.StartLoad` | src/routes/pages.tsx:83-85 | starting a load sets `waiting` and changes nothing else in the state |
| `Routes.Pages.GetPots` | src/routes/pages.tsx:119-122 | a key already in the memo table returns the stored result, failures included, with no fetch and the table unchanged; a new key fetches with tournament and season only and stores that result; entries are never removed |
| `Routes.Pages.PrefetchImages` | src/routes/pages.tsx:124-131 | the requested URLs are the flag URLs of all teams, pot by pot and team by team, one per team |
| `Routes.Pages.LoadSucceeded` | src/routes/pages.tsx:89-97 | publishes exactly the loaded pots, clears `waiting` and `error`, records season, tournament and stage, and takes a new `uniqueId` key that differs from every earlier token and from the old key when that was a token |
| `Routes.Pages.LoadFailed` | src/routes/pages.tsx:104-107 | clears `waiting` and sets `error` to "Could not fetch data"; pots, season and key stay |
| `Routes.Pages.FetchData` | src/routes/pages.tsx:82-101 | a load goes through the memo table; prefetches happen only for loaded pots; it publishes only when the pots loaded and every prefetch succeeded, otherwise it takes the failure step |
| `Routes.Pages.FinishFetchError` | src/routes/pages.tsx:108-116 | after the delay it requests the route's tournament and stage with the fallback season, which is defined iff some load succeeded and the last season that loaded is not the current one, and is then that season; the error is cleared and nothing else changes |
| `Routes.Pages.Mount` | src/routes/pages.tsx:48-55 | mounting loads the route's tournament, stage and season, with a season of 0 meaning the current season |
| `Routes.Pages.ReceiveProps` | src/routes/pages.tsx:57-72 | new tournament, stage or season runs a load with the new props; otherwise a new dummy key replaces only the key; otherwise the state is unchanged; the props become the new ones |
| `Routes.Pages.Popup` | src/routes/pages.tsx:140-153 | offline shows "you're offline" whatever the error and waiting flags; otherwise a non-empty error shows that error; otherwise waiting shows "wait..."; with none of them there is no overlay; `noAnimation` holds while no pots are loaded |
| `Routes.RepeatedRequestIsServedFromCache` | src/routes/pages.tsx:119-122 | a second request with the same memo key returns the first result and issues no fetch, whatever the second fetch would have given |

## Left out

- React rendering is not modelled. This covers `Route`/`Switch`, the `Helmet` titles and theme colours, the `Overlay` component, the styled `Root`, and the `Pot` component that receives each view. They are presentation only.
- `src/ui/bowls/BowlBall.tsx` and `src/components/table/Header.tsx` are not part of this model. They are styling and a keyboard handler, with no data logic.
- `fetchPots`, `parseGS`, `getCountryFlagUrl`, `prefetchImage`, `currentSeason` and `delay` are not part of this model. Their results enter as parameters: an `Outcome`, a URL function, a prefetch flag and a constant. `console.error` only logs and is left out.
- The 1000 ms delay is not timed. It is the boundary between `Routes.Pages.FetchData` and `Routes.Pages.FinishFetchError`, which are separate events.
- Overlapping loads are not modelled. Neither is a caller sharing a memo entry whose fetch is still pending: the memo table stores settled outcomes, and each event runs to completion.
- Only whether every image prefetch succeeded is modelled. Individual prefetch failures are not told apart.
- lodash's `uniqueId` counter is global to the program. It is modelled as a field of `Pages` whose starting value is a constructor argument. Routes.Pages.LoadSucceeded fixes the new key to the next counter value, which assumes no other caller of `uniqueId` runs between events; with other callers the freshness guarantees still hold but the exact token differs.
- Routes.MatchParamsOf: only absent, empty or all-digit season segments are modelled; the `SeasonParamOk` precondition excludes the rest. Other segments go through JavaScript's number conversion, giving `NaN` or a hexadecimal, exponent, signed, fractional or space-padded number. The non-negative result holds only for the modelled segments.
- Routes.Pages.Mount: needs `SeasonParamOk` for the same reason. For a segment that reads as `NaN`, the code's `season ? +season : currentSeason` loads the current season; that case is not modelled.
- Seasons and the `uniqueId` counter are unbounded integers. JavaScript numbers are exact only below 2^53, and `${}` switches to exponent form from 1e21.
- Routes.Pages.LoadSucceeded: the new key is shown to differ from every earlier `uniqueId` token, and from the old key when the old key was such a token. A dummy key that happens to spell a future token is not excluded, and the code does not exclude it either.
- The `initialPots &&` guard in the render is not modelled, because `initialPots` is typed as an array. The `!pot` test is not modelled either, because an original pot that is an array is never falsy.
- Only a team's `id` and `country` are used. `GSTeam` and `Team` are modelled as one `Team` class.
