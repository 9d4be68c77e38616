/**
 * The rounds tracker: the round list fetched from the contract's endpoint, its split into
 * active, next and past rounds, the overall state derived from them, and the delays after
 * which the buckets are recomputed because a round starts or ends.
 */
module Rounds {
  import opened Wrappers
  import opened Numerals
  import opened Json
  import opened BigNumberEntries

  /** The overall state of a contract's rounds. */
  datatype RoundsState =
    | Unknown    // rounds not loaded
    | NoRounds   // rounds were synced but none was found
    | Active     // at least one round is active
    | Soon       // a round will be active soon
    | Past       // all rounds are over

  /** A round as the tracker stores it: a decoded object. */
  type Round = seq<(string, Field)>

  /** The three buckets the round library splits a round list into. */
  datatype RoundsByState = RoundsByState(activeRounds: seq<Round>, nextRounds: seq<Round>, pastRounds: seq<Round>)

  /**
   * The round helpers of the contract-reading library. Their code is not part of this
   * model, so the tracker takes them as given functions and assumes nothing about them.
   */
  datatype RoundsLibrary = RoundsLibrary(
    getRoundsByState: (seq<Round>, int) -> RoundsByState,
    sortRoundsByPrice: seq<Round> -> seq<Round>,
    sortRoundsByStartTime: seq<Round> -> seq<Round>)

  /** What makes a sync throw before it has changed anything. */
  datatype SyncError =
    | RoundsNotAnArray          // `data.rounds.map` is not a function
    | NullRound                 // `Object.entries(null)`
    | BadBigNumber(e: DecodeError)

  datatype SyncOutcome = Skipped | Synced | Failed(error: SyncError)

  /** `if (endpoint)`: an absent or empty endpoint disables syncing. */
  predicate SyncEnabled(endpoint: Option<string>) {
    endpoint.Some? && endpoint.value != ""
  }

  /**
   * `convertBigNumberEntries(item)` for one element of the response's `rounds` array:
   * `Object.entries` throws on `null`, and a bad BigNumber string throws.
   */
  function DecodeRound(item: JVal): (r: Result<Round, SyncError>)
    ensures r == Err(NullRound) <==> item.JNull?
    ensures !item.JNull? ==>
      (r.Ok? <==> ConvertBigNumberEntries(ObjectEntries(item).value).Ok?) &&
      (r.Ok? ==> ConvertBigNumberEntries(ObjectEntries(item).value) == Ok(r.value)) &&
      (r.Err? ==> r.error.BadBigNumber? && ConvertBigNumberEntries(ObjectEntries(item).value) == Err(r.error.e))
  {
    match ObjectEntries(item)
    case None => Err(NullRound)
    case Some(entries) =>
      match ConvertBigNumberEntries(entries)
      case Ok(round) => Ok(round)
      case Err(e) => Err(BadBigNumber(e))
  }

  /** A number or a boolean in the `rounds` array becomes a round with no fields. */
  lemma ScalarRoundIsEmpty(item: JVal)
    requires item.JBool? || item.JNum?
    ensures DecodeRound(item) == Ok([])
  {
  }

  /** A string in the `rounds` array becomes a round holding its characters under their indices. */
  lemma StringRoundIsIndexed(s: string)
    ensures DecodeRound(JStr(s)).Ok?
    ensures |DecodeRound(JStr(s)).value| == |s|
    ensures forall i :: 0 <= i < |s| ==> DecodeRound(JStr(s)).value[i] == (Decimal(i), Raw(JStr([s[i]])))
  {
    var entries := ObjectEntries(JStr(s)).value;
    assert forall i :: 0 <= i < |entries| ==> !IsBigNumberWire(entries[i].1);
  }

  /** `items.map(convertBigNumberEntries)`: element by element; the first failure throws. */
  function DecodeRounds(items: seq<JVal>): (r: Result<seq<Round>, SyncError>)
    ensures r.Ok? <==> forall i :: 0 <= i < |items| ==> DecodeRound(items[i]).Ok?
    ensures r.Ok? ==> |r.value| == |items| &&
                      forall i :: 0 <= i < |items| ==> DecodeRound(items[i]) == Ok(r.value[i])
  {
    if items == [] then Ok([])
    else
      match DecodeRound(items[0])
      case Err(e) => Err(e)
      case Ok(round) =>
        assert forall i :: 1 <= i < |items| ==> items[i] == items[1..][i - 1];
        match DecodeRounds(items[1..])
        case Err(e) => Err(e)
        case Ok(rest) => Ok([round] + rest)
  }

  /** `data.rounds` when it is an array; reading it throws for `null`, and `.map` fails otherwise. */
  function ResponseRounds(data: JVal): Option<seq<JVal>> {
    if data.JObj? then
      match Get<JVal>(data.entries, "rounds")
      case Some(JArr(items)) => Some(items)
      case _ => None
    else None
  }

  /** The new round list a response body yields, or the error the sync throws. */
  function RoundsOfResponse(data: JVal): (r: Result<seq<Round>, SyncError>)
    ensures ResponseRounds(data).None? ==> r == Err(RoundsNotAnArray)
    ensures r.Ok? <==> ResponseRounds(data).Some? &&
                       forall i :: 0 <= i < |ResponseRounds(data).value| ==>
                         DecodeRound(ResponseRounds(data).value[i]).Ok?
    ensures r.Ok? ==> ResponseRounds(data).Some? &&
                      var items := ResponseRounds(data).value;
                      |r.value| == |items| &&
                      forall i :: 0 <= i < |items| ==> DecodeRound(items[i]) == Ok(r.value[i])
  {
    match ResponseRounds(data)
    case None => Err(RoundsNotAnArray)
    case Some(items) => DecodeRounds(items)
  }

  /** A response whose `rounds` array is `[]` always syncs, to an empty round list. */
  lemma EmptyRoundsDecode(data: JVal)
    requires ResponseRounds(data) == Some([])
    ensures RoundsOfResponse(data) == Ok([])
  {
  }

  /**
   * The `roundsState` rule: NO_ROUNDS when the list is empty after an update, else SOON
   * when nothing is active but something is next, else ACTIVE, else PAST, else UNKNOWN.
   */
  function RoundsStateOf(rounds: seq<Round>, activeRounds: seq<Round>, nextRounds: seq<Round>,
                         pastRounds: seq<Round>, lastUpdate: int): (r: RoundsState)
    ensures r == NoRounds <==> rounds == [] && lastUpdate > 0
    ensures r == Active <==> activeRounds != [] && !(rounds == [] && lastUpdate > 0)
    ensures r == Soon ==> activeRounds == [] && nextRounds != []
    ensures r == Past ==> activeRounds == [] && nextRounds == [] && pastRounds != []
    ensures r == Unknown ==> activeRounds == [] && nextRounds == [] && pastRounds == []
  {
    if |rounds| == 0 && lastUpdate > 0 then NoRounds
    else if |activeRounds| == 0 && |nextRounds| > 0 then Soon
    else if |activeRounds| > 0 then Active
    else if |pastRounds| > 0 then Past
    else Unknown
  }

  /**
   * The alternative precedence ACTIVE > SOON > PAST > NO_ROUNDS > UNKNOWN, checked in that
   * order, in which an active round always wins (the order the enum's comments suggest).
   */
  function RoundsStateByPrecedence(rounds: seq<Round>, activeRounds: seq<Round>, nextRounds: seq<Round>,
                                   pastRounds: seq<Round>, lastUpdate: int): RoundsState
  {
    if activeRounds != [] then Active
    else if nextRounds != [] then Soon
    else if pastRounds != [] then Past
    else if rounds == [] && lastUpdate > 0 then NoRounds
    else Unknown
  }

  /** The two orders agree whenever an empty round list comes with empty buckets. */
  lemma RoundsStateMatchesPrecedence(rounds: seq<Round>, activeRounds: seq<Round>, nextRounds: seq<Round>,
                                     pastRounds: seq<Round>, lastUpdate: int)
    requires rounds == [] ==> activeRounds == [] && nextRounds == [] && pastRounds == []
    ensures RoundsStateOf(rounds, activeRounds, nextRounds, pastRounds, lastUpdate)
         == RoundsStateByPrecedence(rounds, activeRounds, nextRounds, pastRounds, lastUpdate)
  {
  }

  /** Buckets left over from a previous list do not outrank NO_ROUNDS: the check comes first. */
  lemma NoRoundsOutranksStaleBuckets(activeRounds: seq<Round>, nextRounds: seq<Round>,
                                     pastRounds: seq<Round>, lastUpdate: int)
    requires lastUpdate > 0
    ensures RoundsStateOf([], activeRounds, nextRounds, pastRounds, lastUpdate) == NoRounds
  {
  }

  /** `round.startTime.toNumber()`; None where `startTime` is not a BigNumber (the call throws). */
  function StartTime(round: Round): Option<int> {
    match Get<Field>(round, "startTime")
    case Some(BigNumber(s)) => Some(s)
    case _ => None
  }

  /** `round.startTime.add(round.duration).toNumber()`; None where that throws. */
  function EndTime(round: Round): Option<int> {
    match (Get<Field>(round, "startTime"), Get<Field>(round, "duration"))
    case (Some(BigNumber(s)), Some(BigNumber(d))) => Some(s + d)
    case _ => None
  }

  /** `activeRounds.map(...)` of the end times, or None when one of them throws. */
  function EndTimes(rounds: seq<Round>): (r: Option<seq<int>>)
    ensures r.Some? <==> forall i :: 0 <= i < |rounds| ==> EndTime(rounds[i]).Some?
    ensures r.Some? ==> |r.value| == |rounds| &&
                        forall i :: 0 <= i < |rounds| ==> EndTime(rounds[i]) == Some(r.value[i])
  {
    if rounds == [] then Some([])
    else
      assert forall i :: 1 <= i < |rounds| ==> rounds[i] == rounds[1..][i - 1];
      match (EndTime(rounds[0]), EndTimes(rounds[1..]))
      case (Some(e), Some(es)) => Some([e] + es)
      case _ => None
  }

  /** The outcome of a timer effect: no timer, a timer after `delayMs`, or the effect throws. */
  datatype Deadline = NoDeadline | After(delayMs: int) | Throws

  /**
   * The end time `activeRounds.map(...).sort()[0]` picks: the one whose decimal string sorts
   * first. None when there is no active round or some end time cannot be computed.
   */
  function EndTimeSortedFirst(activeRounds: seq<Round>): (r: Option<int>)
    ensures r.Some? <==> activeRounds != [] && forall i :: 0 <= i < |activeRounds| ==> EndTime(activeRounds[i]).Some?
    ensures r.Some? ==> exists i :: 0 <= i < |activeRounds| && EndTime(activeRounds[i]) == Some(r.value)
    ensures r.Some? ==> forall j :: 0 <= j < |activeRounds| ==>
                          (EndTime(activeRounds[j]).Some? &&
                           LexLe(Decimal(r.value), Decimal(EndTime(activeRounds[j]).value)))
  {
    if activeRounds == [] then None
    else
      match EndTimes(activeRounds)
      case None => None
      case Some(ends) =>
        SortFirstIsLeast(ends);
        assert forall j :: 0 <= j < |activeRounds| ==> ends[j] in ends;
        assert exists k :: 0 <= k < |ends| && ends[k] == SortFirst(ends);
        Some(SortFirst(ends))
  }

  /** With end times of equal digit count, the end time chosen is the soonest one. */
  lemma EndTimeSortedFirstIsSoonest(activeRounds: seq<Round>)
    requires activeRounds != []
    requires forall i :: 0 <= i < |activeRounds| ==> EndTime(activeRounds[i]).Some?
    requires forall i :: 0 <= i < |activeRounds| ==>
               (EndTime(activeRounds[i]).value >= 0 &&
                |Decimal(EndTime(activeRounds[i]).value)| == |Decimal(EndTime(activeRounds[0]).value)|)
    ensures EndTimeSortedFirst(activeRounds).Some?
    ensures forall j :: 0 <= j < |activeRounds| ==>
              EndTimeSortedFirst(activeRounds).value <= EndTime(activeRounds[j]).value
  {
    var ends := EndTimes(activeRounds).value;
    SortFirstIsMinimum(ends);
    assert forall j :: 0 <= j < |activeRounds| ==> ends[j] in ends;
  }

  /**
   * The "round ended" timer: one second past the end time `sort()` puts first, measured
   * from `now` (seconds) and given in milliseconds.
   */
  function RoundEndDeadline(activeRounds: seq<Round>, now: int): (r: Deadline)
    ensures r == NoDeadline <==> activeRounds == []
    ensures r == Throws <==> activeRounds != [] && exists i :: 0 <= i < |activeRounds| && EndTime(activeRounds[i]).None?
    ensures r.After? ==> EndTimeSortedFirst(activeRounds).Some? &&
                         now * 1000 + r.delayMs == (EndTimeSortedFirst(activeRounds).value + 1) * 1000
  {
    if activeRounds == [] then NoDeadline
    else
      match EndTimeSortedFirst(activeRounds)
      case None => Throws
      case Some(e) => After((e - now + 1) * 1000)
  }

  /** The "round started" timer: one second past the first next round's start. */
  function RoundStartDeadline(nextRounds: seq<Round>, now: int): (r: Deadline)
    ensures r == NoDeadline <==> nextRounds == []
    ensures r == Throws <==> nextRounds != [] && StartTime(nextRounds[0]).None?
    ensures r.After? ==> now * 1000 + r.delayMs == (StartTime(nextRounds[0]).value + 1) * 1000
  {
    if nextRounds == [] then NoDeadline
    else
      match StartTime(nextRounds[0])
      case None => Throws
      case Some(s) => After((s - now + 1) * 1000)
  }

  /** A round still to start yields a timer of at least two seconds. */
  lemma RoundStartDeadlineIsFuture(nextRounds: seq<Round>, now: int)
    requires nextRounds != [] && StartTime(nextRounds[0]).Some? && StartTime(nextRounds[0]).value > now
    ensures RoundStartDeadline(nextRounds, now).After? && RoundStartDeadline(nextRounds, now).delayMs >= 2000
  {
  }

  /**
   * The state behind one `useERCRoundsData` hook. The hook's options (endpoint, whether an
   * `onSyncData` callback was given) and the round library are fixed at construction.
   */
  class RoundsTracker {
    const endpoint: Option<string>
    const hasOnSyncData: bool
    const lib: RoundsLibrary

    var rounds: seq<Round>
    var roundsState: RoundsState
    var activeRounds: seq<Round>
    var nextRounds: seq<Round>
    var pastRounds: seq<Round>
    var firstFetch: bool
    var lastUpdate: int

    /** Until the first sync succeeds the tracker keeps its initial state. */
    ghost predicate Valid()
      reads this
    {
      !firstFetch ==>
        rounds == [] && activeRounds == [] && nextRounds == [] && pastRounds == [] &&
        lastUpdate == 0 && roundsState == Unknown
    }

    constructor (endpoint: Option<string>, hasOnSyncData: bool, lib: RoundsLibrary)
      ensures Valid()
      ensures this.endpoint == endpoint && this.hasOnSyncData == hasOnSyncData && this.lib == lib
      ensures rounds == [] && activeRounds == [] && nextRounds == [] && pastRounds == []
      ensures roundsState == Unknown && !firstFetch && lastUpdate == 0
    {
      this.endpoint := endpoint;
      this.hasOnSyncData := hasOnSyncData;
      this.lib := lib;
      rounds := [];
      roundsState := Unknown;
      activeRounds := [];
      nextRounds := [];
      pastRounds := [];
      firstFetch := false;
      lastUpdate := 0;
    }

    /**
     * `syncData`, given the response body `data` the request returned. Returns the value
     * passed to `onSyncData`, if it was called. A failed sync changes nothing.
     */
    method Sync(data: JVal) returns (outcome: SyncOutcome, notified: Option<JVal>)
      requires Valid()
      modifies this`rounds, this`firstFetch
      ensures Valid()
      ensures !SyncEnabled(endpoint) ==>
        outcome == Skipped && notified == None && rounds == old(rounds) && firstFetch == old(firstFetch)
      ensures SyncEnabled(endpoint) && RoundsOfResponse(data).Err? ==>
        outcome == Failed(RoundsOfResponse(data).error) && notified == None &&
        rounds == old(rounds) && firstFetch == old(firstFetch)
      ensures SyncEnabled(endpoint) && RoundsOfResponse(data).Ok? ==>
        outcome == Synced && rounds == RoundsOfResponse(data).value && firstFetch &&
        notified == (if hasOnSyncData then Some(data) else None)
    {
      notified := None;
      if !SyncEnabled(endpoint) {
        outcome := Skipped;
        return;
      }
      match RoundsOfResponse(data)
      case Err(e) =>
        outcome := Failed(e);
      case Ok(newRounds) =>
        firstFetch := true;
        rounds := newRounds;
        if hasOnSyncData {
          notified := Some(data);
        }
        outcome := Synced;
    }

    /**
     * `updateRoundCategories`: recompute the three buckets from `rounds` at time `now`
     * (seconds). The boundary timers call this directly, so it leaves `rounds` and
     * `lastUpdate` alone.
     */
    method UpdateRoundCategories(now: int)
      requires Valid()
      modifies this`activeRounds, this`nextRounds, this`pastRounds
      ensures Valid()
      ensures rounds == [] ==> activeRounds == [] && nextRounds == [] && pastRounds == []
      ensures rounds != [] ==>
        var byState := lib.getRoundsByState(rounds, now);
        activeRounds == lib.sortRoundsByPrice(byState.activeRounds) &&
        nextRounds == lib.sortRoundsByStartTime(byState.nextRounds) &&
        pastRounds == lib.sortRoundsByStartTime(byState.pastRounds)
    {
      if |rounds| == 0 {
        activeRounds := [];
        nextRounds := [];
        pastRounds := [];
        return;
      }
      var byState := lib.getRoundsByState(rounds, now);
      activeRounds := lib.sortRoundsByPrice(byState.activeRounds);
      nextRounds := lib.sortRoundsByStartTime(byState.nextRounds);
      pastRounds := lib.sortRoundsByStartTime(byState.pastRounds);
    }

    /**
     * The effect run when `rounds` changes: nothing before the first sync; afterwards the
     * buckets are recomputed at `now` (seconds) and `lastUpdate` is stamped with `nowMs`.
     */
    method OnRoundsChange(now: int, nowMs: int)
      requires Valid()
      modifies this`activeRounds, this`nextRounds, this`pastRounds, this`lastUpdate
      ensures Valid()
      ensures !old(firstFetch) ==>
        activeRounds == old(activeRounds) && nextRounds == old(nextRounds) &&
        pastRounds == old(pastRounds) && lastUpdate == old(lastUpdate)
      ensures old(firstFetch) ==> lastUpdate == nowMs
      ensures old(firstFetch) && rounds == [] ==> activeRounds == [] && nextRounds == [] && pastRounds == []
      ensures old(firstFetch) && rounds != [] ==>
        var byState := lib.getRoundsByState(rounds, now);
        activeRounds == lib.sortRoundsByPrice(byState.activeRounds) &&
        nextRounds == lib.sortRoundsByStartTime(byState.nextRounds) &&
        pastRounds == lib.sortRoundsByStartTime(byState.pastRounds)
    {
      if !firstFetch {
        return;
      }
      UpdateRoundCategories(now);
      lastUpdate := nowMs;
    }

    /** The effect run when the buckets or `lastUpdate` change: derive `roundsState`. */
    method UpdateRoundsState()
      requires Valid()
      modifies this`roundsState
      ensures Valid()
      ensures roundsState == RoundsStateOf(rounds, activeRounds, nextRounds, pastRounds, lastUpdate)
    {
      roundsState := RoundsStateOf(rounds, activeRounds, nextRounds, pastRounds, lastUpdate);
    }
  }

  /** A client run: with an endpoint, an empty `rounds` array leads from UNKNOWN to NO_ROUNDS. */
  method EmptySyncScenario(lib: RoundsLibrary)
  {
    var t := new RoundsTracker(Some("/api/contract"), true, lib);
    t.UpdateRoundsState();
    assert t.roundsState == Unknown;
    var data := JObj([("rounds", JArr([])), ("totalSupply", JNum(0))]);
    assert ResponseRounds(data) == Some([]);
    EmptyRoundsDecode(data);
    var outcome, notified := t.Sync(data);
    assert outcome == Synced && notified == Some(data) && t.rounds == [];
    t.OnRoundsChange(1700000000, 1700000000000);
    t.UpdateRoundsState();
    assert t.roundsState == NoRounds;
  }

  /** A client run: without an endpoint nothing ever syncs and the state stays UNKNOWN. */
  method NoEndpointScenario(lib: RoundsLibrary, data: JVal, now: int, nowMs: int)
  {
    var t := new RoundsTracker(None, true, lib);
    var outcome, notified := t.Sync(data);
    assert outcome == Skipped && notified == None;
    t.OnRoundsChange(now, nowMs);
    t.UpdateRoundCategories(now);
    t.UpdateRoundsState();
    assert t.roundsState == Unknown && t.rounds == [] && t.lastUpdate == 0;
  }
}
