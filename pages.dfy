/**
 * The draw pages controller: loads the pots of a (tournament, stage, season)
 * through a memoised fetch, warms the flag images, publishes the pots with a
 * fresh React key, and on failure shows an error and asks the router to fall
 * back to the last season that loaded.
 *
 * `fetchData` up to the 1000 ms delay of `onFetchError` runs here as one
 * sequential event, and the rest of `onFetchError` as another; the fetch,
 * the parse and the image prefetches are outcomes passed in by the caller.
 */
module Routes {
  import opened Wrappers
  import opened Teams
  import opened Numerals
  import opened Lodash

  const FetchErrorMessage := "Could not fetch data"
  const OfflineMessage := "you're offline"
  const WaitMessage := "wait..."

  /** The router's match parameters; the season segment is optional text. */
  datatype RouteParams = RouteParams(tournament: string, stage: string, season: Option<string>)

  /** The component's props; `routeMatch` is the router's `match`, and `onSeasonChange` is the returned `SeasonChange`. */
  datatype Props = Props(tournament: string, stage: string, season: int, dummyKey: string, routeMatch: RouteParams)

  /** The component's state. `tournament` and `stage` are written on success only. */
  datatype State = State(
    key: string,
    pots: Option<PotSet>,
    waiting: bool,
    error: Option<string>,
    season: int,
    tournament: Option<string>,
    stage: Option<string>)

  /** `getMatchParams()`: the route parameters with the season as a number. */
  datatype MatchParams = MatchParams(tournament: string, stage: string, season: int)

  datatype FetchError = NetworkError | FormatError

  /** What fetching and parsing one pot set gives. */
  datatype Outcome = Loaded(pots: PotSet) | Failed(reason: FetchError)

  /** The arguments of the one network fetch that a cache miss issues. */
  datatype FetchRequest = FetchRequest(tournament: string, season: int)

  /** A call of the `onSeasonChange` prop; `None` is an `undefined` season. */
  datatype SeasonChange = SeasonChange(tournament: string, stage: string, season: Option<int>)

  /** What a props change does. */
  datatype PropsDecision = Refetch(tournament: string, stage: string, season: int) | Rekey(key: string) | Unchanged

  /** What `getPopup` renders. */
  datatype Overlay = NoOverlay | Shown(message: string, noAnimation: bool)

  /** Season segments handled by the model: absent, empty or decimal digits. */
  predicate SeasonParamOk(season: Option<string>)
  {
    season.None? || AllDigits(season.value)
  }

  /** `getMatchParams`: a present, non-empty season segment is read as a number, otherwise the current season. */
  function MatchParamsOf(route: RouteParams, currentSeason: int): (m: MatchParams)
    requires SeasonParamOk(route.season)
    ensures m.tournament == route.tournament && m.stage == route.stage
    ensures route.season.None? || route.season == Some("") ==> m.season == currentSeason
    ensures route.season.Some? && route.season.value != "" ==> m.season >= 0
  {
    var season :=
      match route.season
      case Some(s) => if s != "" then DecimalValue(s) else currentSeason
      case None => currentSeason;
    MatchParams(route.tournament, route.stage, season)
  }

  /** A season written into the path as a numeral is read back unchanged. */
  lemma SeasonSegmentRoundTrip(tournament: string, stage: string, season: nat, currentSeason: int)
    ensures MatchParamsOf(RouteParams(tournament, stage, Some(NatToString(season))), currentSeason)
      == MatchParams(tournament, stage, season)
  {
    DecimalValueOfNatToString(season);
  }

  /** The memo key of `getPots`: `${tournament}-${stage}-${season}`. */
  function CacheKey(tournament: string, stage: string, season: int): (k: string)
    ensures var n, m := |tournament|, |stage|;
      |k| == n + m + 2 + |IntToString(season)|
      && k[..n] == tournament && k[n] == '-'
      && k[n + 1..n + 1 + m] == stage && k[n + 1 + m] == '-'
      && k[n + m + 2..] == IntToString(season)
  {
    tournament + "-" + stage + "-" + IntToString(season)
  }

  /** The position of the first dash in s, or |s| when there is none. */
  function DashPosition(s: string): (k: nat)
    ensures k <= |s|
  {
    if s == [] || s[0] == '-' then 0 else 1 + DashPosition(s[1..])
  }

  lemma {:induction false} DashPositionAfter(x: string, y: string)
    requires '-' !in x
    ensures DashPosition(x + "-" + y) == |x|
  {
    if x != [] {
      assert (x + "-" + y)[1..] == x[1..] + "-" + y;
      DashPositionAfter(x[1..], y);
    }
  }

  /** Two strings without a dash, each followed by a dash, can be told apart. */
  lemma SplitAtFirstDash(x1: string, y1: string, x2: string, y2: string)
    requires '-' !in x1 && '-' !in x2
    requires x1 + "-" + y1 == x2 + "-" + y2
    ensures x1 == x2 && y1 == y2
  {
    var s := x1 + "-" + y1;
    DashPositionAfter(x1, y1);
    DashPositionAfter(x2, y2);
    assert x1 == s[..|x1|] && x2 == s[..|x2|];
    assert y1 == s[|x1| + 1..] && y2 == s[|x2| + 1..];
  }

  /** The memo key splits as tournament, dash, then the rest. */
  lemma CacheKeyShape(tournament: string, stage: string, season: int)
    ensures CacheKey(tournament, stage, season) == tournament + "-" + (stage + "-" + IntToString(season))
  {
  }

  /**
   * When neither tournament nor stage contains a dash (as with the route
   * names), equal memo keys mean equal requests, so the stage separates
   * entries even though the fetch itself ignores it.
   */
  lemma CacheKeyDistinguishes(t1: string, st1: string, se1: int, t2: string, st2: string, se2: int)
    requires '-' !in t1 && '-' !in t2 && '-' !in st1 && '-' !in st2
    ensures CacheKey(t1, st1, se1) == CacheKey(t2, st2, se2) <==> t1 == t2 && st1 == st2 && se1 == se2
  {
    if CacheKey(t1, st1, se1) == CacheKey(t2, st2, se2) {
      var rest1, rest2 := st1 + "-" + IntToString(se1), st2 + "-" + IntToString(se2);
      CacheKeyShape(t1, st1, se1);
      CacheKeyShape(t2, st2, se2);
      SplitAtFirstDash(t1, rest1, t2, rest2);
      SplitAtFirstDash(st1, IntToString(se1), st2, IntToString(se2));
      IntToStringInjective(se1, se2);
    }
  }

  /** With dashes inside the names, different requests share one memo entry. */
  lemma CacheKeyCollides(a: string, b: string, c: string, season: int)
    ensures CacheKey(a + "-" + b, c, season) == CacheKey(a, b + "-" + c, season)
  {
  }

  /** The URLs `prefetchImages` requests for one pot, in team order. */
  function PotFlagUrls(pot: Pot, flagUrl: string -> string): seq<string>
  {
    seq(|pot|, j requires 0 <= j < |pot| => flagUrl(pot[j].country))
  }

  /** The URLs `prefetchImages` requests for a pot set: pot by pot, team by team. */
  function FlagUrls(pots: PotSet, flagUrl: string -> string): seq<string>
  {
    if pots == [] then [] else FlagUrls(pots[..|pots| - 1], flagUrl) + PotFlagUrls(pots[|pots| - 1], flagUrl)
  }

  /** One prefetch per team. */
  lemma {:induction false} FlagUrlsLength(pots: PotSet, flagUrl: string -> string)
    ensures |FlagUrls(pots, flagUrl)| == TeamCount(pots)
  {
    if pots != [] {
      FlagUrlsLength(pots[..|pots| - 1], flagUrl);
    }
  }

  /** Team j of pot i is prefetched after every team of the earlier pots and the earlier teams of its own pot. */
  lemma {:induction false} FlagUrlsAt(pots: PotSet, flagUrl: string -> string, i: nat, j: nat)
    requires i < |pots| && j < |pots[i]|
    ensures TeamCount(pots[..i]) + j < |FlagUrls(pots, flagUrl)|
    ensures FlagUrls(pots, flagUrl)[TeamCount(pots[..i]) + j] == flagUrl(pots[i][j].country)
  {
    var init := pots[..|pots| - 1];
    FlagUrlsLength(init, flagUrl);
    FlagUrlsLength(pots, flagUrl);
    if i == |pots| - 1 {
      assert pots[..i] == init;
    } else {
      assert init[..i] == pots[..i];
      FlagUrlsAt(init, flagUrl, i, j);
    }
  }

  /** The fallback season of `onFetchError`: the stored season when pots are shown and it is not the current season. */
  function FallbackSeason(pots: Option<PotSet>, season: int, currentSeason: int): (r: Option<int>)
    ensures r.Some? <==> pots.Some? && season != currentSeason
    ensures r.Some? ==> r.value == season
  {
    if pots.Some? && season != currentSeason then Some(season) else None
  }

  /** Whether two props ask for the same pot data. */
  predicate SameData(current: Props, next: Props)
  {
    current.season == next.season && current.stage == next.stage && current.tournament == next.tournament
  }

  /** `componentWillReceiveProps`: refetch on new data, else rekey on a new dummy key, else nothing. */
  function PropsChange(current: Props, next: Props): (d: PropsDecision)
    ensures d.Refetch? <==> !SameData(current, next)
    ensures d.Refetch? ==> d == Refetch(next.tournament, next.stage, next.season)
    ensures d.Rekey? <==> SameData(current, next) && current.dummyKey != next.dummyKey
    ensures d.Rekey? ==> d.key == next.dummyKey
    ensures d.Unchanged? <==> SameData(current, next) && current.dummyKey == next.dummyKey
  {
    if !SameData(current, next) then Refetch(next.tournament, next.stage, next.season)
    else if current.dummyKey != next.dummyKey then Rekey(next.dummyKey)
    else Unchanged
  }

  /** A stored error is shown when it is a non-empty string (JavaScript truthiness). */
  predicate ErrorShown(error: Option<string>)
  {
    error.Some? && error.value != ""
  }

  class Pages {
    var props: Props
    var state: State
    /** The memo table of `getPots`, key to settled result; nothing is ever removed. */
    var potsCache: map<string, Outcome>
    /** lodash's `uniqueId` counter: the number of ids handed out so far. */
    var idCounter: nat
    const currentSeason: int
    /** The counter value whose token is the current key, or 0 when the key came from a dummy key. */
    ghost var keyOrigin: nat
    /** Seasons of the successful loads, in order. */
    ghost var loadedSeasons: seq<int>

    ghost predicate Valid()
      reads this
    {
      keyOrigin <= idCounter
      && (keyOrigin > 0 ==> state.key == UniqueIdToken(keyOrigin))
      && (state.pots.None? <==> loadedSeasons == [])
      && state.season == (if loadedSeasons == [] then currentSeason else loadedSeasons[|loadedSeasons| - 1])
    }

    /** The initial state; `idsIssued` is how many ids `uniqueId` had handed out before. */
    constructor (initialProps: Props, currentSeason: int, idsIssued: nat)
      ensures Valid()
      ensures props == initialProps && this.currentSeason == currentSeason
      ensures state == State(UniqueIdToken(idsIssued + 1), None, false, None, currentSeason, None, None)
      ensures potsCache == map[] && idCounter == idsIssued + 1 && loadedSeasons == []
    {
      props := initialProps;
      this.currentSeason := currentSeason;
      idCounter := idsIssued + 1;
      state := State(UniqueIdToken(idsIssued + 1), None, false, None, currentSeason, None, None);
      potsCache := map[];
      keyOrigin := idsIssued + 1;
      loadedSeasons := [];
    }

    /** First step of `fetchData`: show the waiting indicator, nothing else. */
    method StartLoad()
      requires Valid()
      modifies this`state
      ensures Valid()
      ensures state == old(state).(waiting := true)
    {
      state := state.(waiting := true);
    }

    /**
     * `getPots`: a key seen before returns its stored result, failures
     * included, without fetching; a new key fetches with the tournament and
     * season only and stores what came back.
     */
    method GetPots(tournament: string, stage: string, season: int, fetched: Outcome)
      returns (result: Outcome, request: Option<FetchRequest>)
      modifies this`potsCache
      ensures var k := CacheKey(tournament, stage, season);
        if k in old(potsCache) then
          result == old(potsCache)[k] && request == None && potsCache == old(potsCache)
        else
          result == fetched && request == Some(FetchRequest(tournament, season))
          && potsCache == old(potsCache)[k := fetched]
    {
      var k := CacheKey(tournament, stage, season);
      if k in potsCache {
        result, request := potsCache[k], None;
      } else {
        result, request := fetched, Some(FetchRequest(tournament, season));
        potsCache := potsCache[k := fetched];
      }
    }

    /** `prefetchImages`: one flag-image request per team, pot by pot, in team order. */
    method PrefetchImages(pots: PotSet, flagUrl: string -> string) returns (urls: seq<string>)
      ensures urls == FlagUrls(pots, flagUrl)
      ensures |urls| == TeamCount(pots)
    {
      urls := [];
      var i := 0;
      while i < |pots|
        invariant 0 <= i <= |pots|
        invariant urls == FlagUrls(pots[..i], flagUrl)
      {
        var pot := pots[i];
        var potUrls := seq(|pot|, j requires 0 <= j < |pot| => flagUrl(pot[j].country));
        urls := urls + potUrls;
        assert pots[..i + 1][..i] == pots[..i];
        i := i + 1;
      }
      assert pots[..|pots|] == pots;
      FlagUrlsLength(pots, flagUrl);
    }

    /** The successful end of `fetchData`: publish the pots under a fresh key. */
    method LoadSucceeded(tournament: string, stage: string, season: int, loaded: PotSet)
      requires Valid()
      modifies this`state, this`idCounter, this`keyOrigin, this`loadedSeasons
      ensures Valid()
      ensures idCounter == old(idCounter) + 1 && keyOrigin == idCounter
      ensures state == State(UniqueIdToken(idCounter), Some(loaded), false, None, season, Some(tournament), Some(stage))
      ensures loadedSeasons == old(loadedSeasons) + [season]
      ensures forall n: nat :: n < idCounter ==> state.key != UniqueIdToken(n)
      ensures old(keyOrigin) > 0 ==> state.key != old(state.key)
    {
      idCounter := idCounter + 1;
      keyOrigin := idCounter;
      state := State(UniqueIdToken(idCounter), Some(loaded), false, None, season, Some(tournament), Some(stage));
      loadedSeasons := loadedSeasons + [season];
      var issued := idCounter;
      forall n: nat | n < issued
        ensures UniqueIdToken(issued) != UniqueIdToken(n)
      {
        UniqueIdTokenFresh(issued, n);
      }
    }

    /** The first step of `onFetchError`: stop waiting, show the error; pots and season stay. */
    method LoadFailed()
      requires Valid()
      modifies this`state
      ensures Valid()
      ensures state == old(state).(waiting := false, error := Some(FetchErrorMessage))
    {
      state := state.(waiting := false, error := Some(FetchErrorMessage));
    }

    /** What one run of `fetchData` does, up to the delay of `onFetchError`. */
    twostate predicate LoadApplied(
      tournament: string, stage: string, season: int,
      fetched: Outcome, prefetchOk: bool, flagUrl: string -> string,
      new request: Option<FetchRequest>, new prefetched: seq<string>, new failed: bool)
      reads this
    {
      var k := CacheKey(tournament, stage, season);
      var outcome := if k in old(potsCache) then old(potsCache)[k] else fetched;
      && request == (if k in old(potsCache) then None else Some(FetchRequest(tournament, season)))
      && potsCache == (if k in old(potsCache) then old(potsCache) else old(potsCache)[k := fetched])
      && prefetched == (if outcome.Loaded? then FlagUrls(outcome.pots, flagUrl) else [])
      && failed == !(outcome.Loaded? && prefetchOk)
      && if failed then
           state == old(state).(waiting := false, error := Some(FetchErrorMessage))
           && idCounter == old(idCounter) && keyOrigin == old(keyOrigin) && loadedSeasons == old(loadedSeasons)
         else
           idCounter == old(idCounter) + 1 && keyOrigin == idCounter
           && state == State(UniqueIdToken(idCounter), Some(outcome.pots), false, None, season, Some(tournament), Some(stage))
           && loadedSeasons == old(loadedSeasons) + [season]
    }

    /**
     * `fetchData`: wait, look the pots up, prefetch their flags, then publish
     * them; a failed fetch or parse, or a failed prefetch, takes the error
     * path instead. `prefetchOk` says whether every prefetch succeeded.
     */
    method FetchData(tournament: string, stage: string, season: int,
                     fetched: Outcome, prefetchOk: bool, flagUrl: string -> string)
      returns (request: Option<FetchRequest>, prefetched: seq<string>, failed: bool)
      requires Valid()
      modifies this`state, this`potsCache, this`idCounter, this`keyOrigin, this`loadedSeasons
      ensures Valid()
      ensures LoadApplied(tournament, stage, season, fetched, prefetchOk, flagUrl, request, prefetched, failed)
    {
      StartLoad();
      var outcome;
      outcome, request := GetPots(tournament, stage, season, fetched);
      prefetched := [];
      if outcome.Loaded? {
        prefetched := PrefetchImages(outcome.pots, flagUrl);
      }
      failed := !(outcome.Loaded? && prefetchOk);
      if failed {
        LoadFailed();
      } else {
        LoadSucceeded(tournament, stage, season, outcome.pots);
      }
    }

    /**
     * The rest of `onFetchError`, after its delay: ask the router to fall back
     * to the last season that loaded, when there is one other than the current
     * season, then clear the error.
     */
    method FinishFetchError() returns (change: SeasonChange)
      requires Valid()
      modifies this`state
      ensures Valid()
      ensures state == old(state).(error := None)
      ensures change == SeasonChange(props.routeMatch.tournament, props.routeMatch.stage,
                                     FallbackSeason(old(state).pots, old(state).season, currentSeason))
      ensures change.season.Some? <==> loadedSeasons != [] && loadedSeasons[|loadedSeasons| - 1] != currentSeason
      ensures change.season.Some? ==> change.season.value == loadedSeasons[|loadedSeasons| - 1]
    {
      // Only the tournament and stage of `getMatchParams()` are used here, so the season segment is never read.
      var newSeason := FallbackSeason(state.pots, state.season, currentSeason);
      change := SeasonChange(props.routeMatch.tournament, props.routeMatch.stage, newSeason);
      state := state.(error := None);
    }

    /** `componentDidMount`: load what the route names; a season of 0 means the current season. */
    method Mount(fetched: Outcome, prefetchOk: bool, flagUrl: string -> string)
      returns (request: Option<FetchRequest>, prefetched: seq<string>, failed: bool)
      requires Valid() && SeasonParamOk(props.routeMatch.season)
      modifies this`state, this`potsCache, this`idCounter, this`keyOrigin, this`loadedSeasons
      ensures Valid()
      ensures var m := MatchParamsOf(props.routeMatch, currentSeason);
        LoadApplied(m.tournament, m.stage, if m.season != 0 then m.season else currentSeason,
                    fetched, prefetchOk, flagUrl, request, prefetched, failed)
    {
      var m := MatchParamsOf(props.routeMatch, currentSeason);
      request, prefetched, failed := FetchData(m.tournament, m.stage, if m.season != 0 then m.season else currentSeason,
                                               fetched, prefetchOk, flagUrl);
    }

    /**
     * `componentWillReceiveProps` followed by React's switch to the new
     * props: refetch when tournament, stage or season changed; otherwise
     * take a changed dummy key as the key; otherwise change nothing.
     */
    method ReceiveProps(next: Props, fetched: Outcome, prefetchOk: bool, flagUrl: string -> string)
      returns (decision: PropsDecision, request: Option<FetchRequest>, prefetched: seq<string>, failed: bool)
      requires Valid()
      modifies this`props, this`state, this`potsCache, this`idCounter, this`keyOrigin, this`loadedSeasons
      ensures Valid()
      ensures decision == PropsChange(old(props), next) && props == next
      ensures decision.Refetch? ==>
        LoadApplied(next.tournament, next.stage, next.season, fetched, prefetchOk, flagUrl, request, prefetched, failed)
      ensures !decision.Refetch? ==>
        request == None && prefetched == [] && !failed
        && potsCache == old(potsCache) && idCounter == old(idCounter) && loadedSeasons == old(loadedSeasons)
      ensures decision.Rekey? ==> state == old(state).(key := next.dummyKey)
      ensures decision.Unchanged? ==> state == old(state)
    {
      decision := PropsChange(props, next);
      request, prefetched, failed := None, [], false;
      match decision {
        case Refetch(tournament, stage, season) =>
          request, prefetched, failed := FetchData(tournament, stage, season, fetched, prefetchOk, flagUrl);
        case Rekey(key) =>
          state := state.(key := key);
          keyOrigin := 0;
        case Unchanged =>
      }
      props := next;
    }

    /** `getPopup`: offline wins over a shown error, which wins over waiting. */
    function Popup(online: bool): (o: Overlay)
      reads this
      ensures !online ==> o == Shown(OfflineMessage, state.pots.None?)
      ensures online && ErrorShown(state.error) ==> o == Shown(state.error.value, state.pots.None?)
      ensures online && !ErrorShown(state.error) && state.waiting ==> o == Shown(WaitMessage, state.pots.None?)
      ensures o == NoOverlay <==> online && !ErrorShown(state.error) && !state.waiting
    {
      if !online then Shown(OfflineMessage, state.pots.None?)
      else if ErrorShown(state.error) then Shown(state.error.value, state.pots.None?)
      else if state.waiting then Shown(WaitMessage, state.pots.None?)
      else NoOverlay
    }
  }

  /** A second request with the same memo key is answered from the table, even a stored failure. */
  method RepeatedRequestIsServedFromCache(p: Pages, tournament: string, stage: string, season: int,
                                          first: Outcome, second: Outcome)
    returns (r1: Outcome, r2: Outcome, request2: Option<FetchRequest>)
    modifies p
    ensures r2 == r1 && request2 == None
  {
    var request1;
    r1, request1 := p.GetPots(tournament, stage, season, first);
    r2, request2 := p.GetPots(tournament, stage, season, second);
  }
}
