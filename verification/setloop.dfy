/** The loop that fills one set: repeated rounds, each over a fresh shuffle of
    the working pool, until the set is within three minutes of its target. */
module SetLoop {
  import opened Wrappers
  import opened Tracks
  import opened Validator
  import opened Rounds

  /** A set counts as full once it is this many seconds short of its target or less. */
  const MARGIN_SECONDS: int := 180
  /** Consecutive fruitless rounds after which the inner loop gives up. */
  const MAX_STALE_ROUNDS: nat := 5

  /** Every order a round scans is a permutation of the working pool, as
      `rand.Shuffle` produces; which permutation is left open. */
  predicate Shuffles(orders: seq<seq<Track>>, pool: seq<Track>)
  {
    forall k :: 0 <= k < |orders| ==> multiset(orders[k]) == multiset(pool)
  }

  /** The loop's state. `placed` records the tracks accepted into this set,
      in order, alongside the names the validator keeps. */
  datatype FillState = FillState(round: RoundState, placed: seq<Track>, staleRounds: nat, madeProgress: bool)

  /** How filling a set ends. `OutOfFuel` means the supplied shuffles ran out
      while the loop still wanted another round. */
  datatype FillOutcome =
    | Finished(state: FillState)    // within the margin of the target
    | Stalled(state: FillState)     // gave up after five fruitless rounds
    | OutOfFuel(state: FillState)
    | Fatal                          // the working pool is empty

  function StartSet(addedSongs: set<string>, requests: seq<string>, countTillRequest: int): FillState
  {
    FillState(RoundState(NewSet(addedSongs), requests, countTillRequest), [], 0, false)
  }

  function Short(fs: FillState, target: int): bool
  {
    fs.round.current.totalDuration < target - MARGIN_SECONDS
  }

  function Record(placed: seq<Track>, t: Option<Track>): seq<Track>
  {
    if t.Some? then placed + [t.value] else placed
  }

  /** One round with the source's bookkeeping: `loopMadeProgress` is sticky,
      and once set it keeps the stale counter at zero. */
  function StepAsWritten(fs: FillState, order: seq<Track>, lookup: map<string, Track>, maxDuration: int): FillState
  {
    var rr := Round(fs.round, order, lookup, maxDuration);
    var progress := fs.madeProgress || rr.placed.Some?;
    FillState(rr.state, Record(fs.placed, rr.placed), if progress then 0 else fs.staleRounds + 1, progress)
  }

  /** One round with the intended bookkeeping: a round that places nothing is
      stale, one that places a track resets the count. */
  function Step(fs: FillState, order: seq<Track>, lookup: map<string, Track>, maxDuration: int): FillState
  {
    var rr := Round(fs.round, order, lookup, maxDuration);
    FillState(rr.state, Record(fs.placed, rr.placed), if rr.placed.Some? then 0 else fs.staleRounds + 1, rr.placed.Some?)
  }

  /** The loop as written: the outer `for` re-enters the inner loop whenever
      five stale rounds leave the set short, and `loopMadeProgress` is only
      reset on that re-entry, so once one round has placed a track the stale
      counter stays at zero. The nested loops are flattened here: each step
      either finishes, re-enters, or plays one round with the next shuffle. */
  function FillAsWritten(fs: FillState, pool: seq<Track>, orders: seq<seq<Track>>,
                         lookup: map<string, Track>, target: int, maxDuration: int): (r: FillOutcome)
    requires Shuffles(orders, pool)
    decreases |orders|, if fs.staleRounds < MAX_STALE_ROUNDS then 0 else 1
    ensures !r.Stalled?
    ensures r.Finished? ==> !Short(r.state, target)
    ensures r.OutOfFuel? ==> Short(r.state, target)
    ensures r.Fatal? ==> |pool| == 0
  {
    if !Short(fs, target) then
      Finished(fs)
    else if fs.staleRounds >= MAX_STALE_ROUNDS then
      FillAsWritten(fs.(staleRounds := 0, madeProgress := false), pool, orders, lookup, target, maxDuration)
    else if |pool| == 0 then
      Fatal
    else if |orders| == 0 then
      OutOfFuel(fs)
    else
      FillAsWritten(StepAsWritten(fs, orders[0], lookup, maxDuration), pool, orders[1..], lookup, target, maxDuration)
  }

  /** The loop corrected to do what its `maxStaleRounds` counter is for: each
      round that places nothing is stale, a placement resets the count, and
      five stale rounds in a row end the set short rather than starting over. */
  function Fill(fs: FillState, pool: seq<Track>, orders: seq<seq<Track>>,
                lookup: map<string, Track>, target: int, maxDuration: int): (r: FillOutcome)
    requires Shuffles(orders, pool)
    decreases |orders|
    ensures r.Finished? ==> !Short(r.state, target)
    ensures r.Stalled? ==> Short(r.state, target) && r.state.staleRounds >= MAX_STALE_ROUNDS
    ensures r.OutOfFuel? ==> Short(r.state, target)
    ensures r.Fatal? ==> |pool| == 0
  {
    if !Short(fs, target) then
      Finished(fs)
    else if fs.staleRounds >= MAX_STALE_ROUNDS then
      Stalled(fs)
    else if |pool| == 0 then
      Fatal
    else if |orders| == 0 then
      OutOfFuel(fs)
    else
      Fill(Step(fs, orders[0], lookup, maxDuration), pool, orders[1..], lookup, target, maxDuration)
  }

  /** Names of songs the loop could still place: those in the pool or
      reachable through a request lookup, not yet placed in the build. */
  function Unused(pool: seq<Track>, lookup: map<string, Track>, addedSongs: set<string>): set<string>
  {
    ((set t | t in pool :: t.name) + (set k | k in lookup :: lookup[k].name)) - addedSongs
  }

  /** A round either uses up one of the unused names and resets the stale
      count, or changes nothing but the count. */
  lemma StepUsesName(fs: FillState, pool: seq<Track>, order: seq<Track>, lookup: map<string, Track>, maxDuration: int)
    requires multiset(order) == multiset(pool)
    ensures var next := Step(fs, order, lookup, maxDuration);
      || (next.staleRounds == 0
          && |Unused(pool, lookup, next.round.current.addedSongs)| == |Unused(pool, lookup, fs.round.current.addedSongs)| - 1)
      || (next.staleRounds == fs.staleRounds + 1 && next.round == fs.round)
  {
    var rr := Round(fs.round, order, lookup, maxDuration);
    if rr.placed.Some? {
      var t := rr.placed.value;
      var before := fs.round.current.addedSongs;
      assert t.name !in before;
      if t in order {
        assert t in multiset(order);
        assert t in pool;
      } else {
        var k :| k in lookup && lookup[k] == t;
        assert t.name in (set k | k in lookup :: lookup[k].name);
      }
      assert Unused(pool, lookup, rr.state.current.addedSongs) == Unused(pool, lookup, before) - {t.name};
    }
  }

  /** Termination of the corrected loop: every round either places a song
      not yet in the build or moves one step closer to the stall limit, so
      five rounds per unused name, plus five, always suffice. */
  lemma {:induction false} FillEndsWithinBound(fs: FillState, pool: seq<Track>, orders: seq<seq<Track>>,
                                               lookup: map<string, Track>, target: int, maxDuration: int)
    requires Shuffles(orders, pool)
    requires |orders| + fs.staleRounds >= MAX_STALE_ROUNDS * (|Unused(pool, lookup, fs.round.current.addedSongs)| + 1)
    decreases |orders|
    ensures var r := Fill(fs, pool, orders, lookup, target, maxDuration);
      && !r.OutOfFuel?
      && (|pool| > 0 ==> r.Finished? || r.Stalled?)
  {
    if Short(fs, target) && fs.staleRounds < MAX_STALE_ROUNDS && |pool| > 0 {
      StepUsesName(fs, pool, orders[0], lookup, maxDuration);
      FillEndsWithinBound(Step(fs, orders[0], lookup, maxDuration), pool, orders[1..], lookup, target, maxDuration);
    }
  }

  // ---------------------------------------------------------------------
  // Invariants of a filled set.
  // ---------------------------------------------------------------------

  /** The set invariants hold of a loop state: the validator state describes
      the recorded tracks, which keep the set's rules and are new to the build. */
  ghost predicate Sound(fs: FillState, before: set<string>, maxDuration: int)
  {
    && Describes(fs.round.current, fs.placed, before)
    && SetRules(fs.placed, maxDuration)
    && FreshSongs(fs.placed, before)
  }

  /** A round, under either bookkeeping, keeps the set invariants. */
  lemma StepKeepsSound(fs: FillState, order: seq<Track>, lookup: map<string, Track>,
                       before: set<string>, maxDuration: int)
    requires Sound(fs, before, maxDuration)
    ensures Sound(Step(fs, order, lookup, maxDuration), before, maxDuration)
    ensures Sound(StepAsWritten(fs, order, lookup, maxDuration), before, maxDuration)
  {
    var rr := Round(fs.round, order, lookup, maxDuration);
    if rr.placed.Some? {
      AcceptKeepsSetRules(fs.round.current, fs.placed, before, rr.placed.value, maxDuration);
    }
  }

  /** Filling a set as written keeps every invariant: whatever state it
      stops in, no artist repeats in the set, no two consecutive tracks share
      a non-empty key, no song repeats in the build, and the total stays
      within the overfill margin. */
  lemma {:induction false} FillAsWrittenKeepsSound(fs: FillState, pool: seq<Track>, orders: seq<seq<Track>>,
                                                   lookup: map<string, Track>, target: int, maxDuration: int,
                                                   before: set<string>)
    requires Shuffles(orders, pool)
    requires Sound(fs, before, maxDuration)
    decreases |orders|, if fs.staleRounds < MAX_STALE_ROUNDS then 0 else 1
    ensures var r := FillAsWritten(fs, pool, orders, lookup, target, maxDuration);
      !r.Fatal? ==> Sound(r.state, before, maxDuration)
  {
    if !Short(fs, target) {
    } else if fs.staleRounds >= MAX_STALE_ROUNDS {
      FillAsWrittenKeepsSound(fs.(staleRounds := 0, madeProgress := false), pool, orders, lookup, target, maxDuration, before);
    } else if |pool| > 0 && |orders| > 0 {
      StepKeepsSound(fs, orders[0], lookup, before, maxDuration);
      FillAsWrittenKeepsSound(StepAsWritten(fs, orders[0], lookup, maxDuration), pool, orders[1..], lookup, target, maxDuration, before);
    }
  }

  /** The same invariants for the corrected loop. */
  lemma {:induction false} FillKeepsSound(fs: FillState, pool: seq<Track>, orders: seq<seq<Track>>,
                                          lookup: map<string, Track>, target: int, maxDuration: int,
                                          before: set<string>)
    requires Shuffles(orders, pool)
    requires Sound(fs, before, maxDuration)
    decreases |orders|
    ensures var r := Fill(fs, pool, orders, lookup, target, maxDuration);
      !r.Fatal? ==> Sound(r.state, before, maxDuration)
  {
    if Short(fs, target) && fs.staleRounds < MAX_STALE_ROUNDS && |pool| > 0 && |orders| > 0 {
      StepKeepsSound(fs, orders[0], lookup, before, maxDuration);
      FillKeepsSound(Step(fs, orders[0], lookup, maxDuration), pool, orders[1..], lookup, target, maxDuration, before);
    }
  }

  // ---------------------------------------------------------------------
  // A set nothing more can be added to.
  // ---------------------------------------------------------------------

  /** No round can place anything: the scan the cadence selects finds
      nothing. When the set explores, every pool track is rejected; when it is
      owed a request, every pending request is missing from the working table
      or rejected, whatever the pool still holds. */
  ghost predicate Stuck(rs: RoundState, pool: seq<Track>, lookup: map<string, Track>, maxDuration: int)
  {
    if Explores(rs) then
      forall t :: t in pool ==> TryAdd(rs.current, t, maxDuration).Rejected?
    else
      forall i :: 0 <= i < |rs.requests| ==> !Placeable(rs.current, rs.requests[i], lookup, maxDuration)
  }

  lemma StuckRoundPlacesNothing(rs: RoundState, order: seq<Track>, pool: seq<Track>, lookup: map<string, Track>, maxDuration: int)
    requires Stuck(rs, pool, lookup, maxDuration)
    requires multiset(order) == multiset(pool)
    ensures Round(rs, order, lookup, maxDuration).placed.None?
  {
    if Explores(rs) {
      forall i | 0 <= i < |order| ensures TryAdd(rs.current, order[i], maxDuration).Rejected? {
        assert order[i] in multiset(pool);
      }
    }
  }

  /** As written, a short set that cannot grow is never finished: whatever
      shuffles are supplied, the loop is still going when they run out, in
      the state it started from. */
  lemma {:induction false} StuckSetNeverFinishes(fs: FillState, pool: seq<Track>, orders: seq<seq<Track>>,
                                                 lookup: map<string, Track>, target: int, maxDuration: int)
    requires Shuffles(orders, pool)
    requires |pool| > 0 && Short(fs, target)
    requires Stuck(fs.round, pool, lookup, maxDuration)
    decreases |orders|, if fs.staleRounds < MAX_STALE_ROUNDS then 0 else 1
    ensures var r := FillAsWritten(fs, pool, orders, lookup, target, maxDuration);
      r.OutOfFuel? && r.state.round == fs.round && r.state.placed == fs.placed
  {
    if fs.staleRounds >= MAX_STALE_ROUNDS {
      StuckSetNeverFinishes(fs.(staleRounds := 0, madeProgress := false), pool, orders, lookup, target, maxDuration);
    } else if |orders| > 0 {
      StuckRoundPlacesNothing(fs.round, orders[0], pool, lookup, maxDuration);
      StuckSetNeverFinishes(StepAsWritten(fs, orders[0], lookup, maxDuration), pool, orders[1..], lookup, target, maxDuration);
    }
  }

  /** The corrected loop reports a stuck set as stalled after five rounds. */
  lemma {:induction false} StuckSetStalls(fs: FillState, pool: seq<Track>, orders: seq<seq<Track>>,
                                          lookup: map<string, Track>, target: int, maxDuration: int)
    requires Shuffles(orders, pool)
    requires |pool| > 0 && Short(fs, target)
    requires Stuck(fs.round, pool, lookup, maxDuration)
    requires fs.staleRounds + |orders| >= MAX_STALE_ROUNDS
    decreases |orders|
    ensures var r := Fill(fs, pool, orders, lookup, target, maxDuration);
      r.Stalled? && r.state.round == fs.round && r.state.placed == fs.placed
  {
    if fs.staleRounds < MAX_STALE_ROUNDS {
      StuckRoundPlacesNothing(fs.round, orders[0], pool, lookup, maxDuration);
      StuckSetStalls(Step(fs, orders[0], lookup, maxDuration), pool, orders[1..], lookup, target, maxDuration);
    }
  }

  /** The input that shows the difference: a 30-minute set (1800 seconds)
      whose only candidate is a 40-minute song, longer than the 2100 seconds
      the validator allows. As written the loop never ends; corrected, it
      stalls after five rounds with nothing placed. */
  function OverlongSong(): Track
  {
    Track("Long Song", "Some Artist", "C", 2400)
  }

  lemma OverlongOnlySongLoopsForever(orders: seq<seq<Track>>)
    requires Shuffles(orders, [OverlongSong()])
    ensures FillAsWritten(StartSet({}, [], 0), [OverlongSong()], orders, map[], 1800, 1800).OutOfFuel?
    ensures |orders| >= MAX_STALE_ROUNDS ==>
      Fill(StartSet({}, [], 0), [OverlongSong()], orders, map[], 1800, 1800).Stalled?
  {
    var fs := StartSet({}, [], 0);
    assert Stuck(fs.round, [OverlongSong()], map[], 1800);
    StuckSetNeverFinishes(fs, [OverlongSong()], orders, map[], 1800, 1800);
    if |orders| >= MAX_STALE_ROUNDS {
      StuckSetStalls(fs, [OverlongSong()], orders, map[], 1800, 1800);
    }
  }

  // ---------------------------------------------------------------------
  // Reporting.
  // ---------------------------------------------------------------------

  datatype UnderfillWarning = UnderfillWarning(setNumber: int, minutes: int, seconds: int)

  /** The warning printed after a set whose total is below its target: the
      shortfall split into whole minutes and leftover seconds. The shortfall is
      positive, so Go's truncating `/` and `%` agree with Dafny's. */
  function Underfill(setNumber: int, target: int, totalDuration: int): (r: Option<UnderfillWarning>)
    ensures r.Some? <==> totalDuration < target
    ensures r.Some? ==>
      && r.value.setNumber == setNumber
      && r.value.minutes * 60 + r.value.seconds == target - totalDuration
      && r.value.minutes >= 0
      && 0 <= r.value.seconds < 60
  {
    if totalDuration < target then
      var underfill := target - totalDuration;
      Some(UnderfillWarning(setNumber, underfill / 60, underfill % 60))
    else
      None
  }

  // ---------------------------------------------------------------------
  // A request that can never be placed.
  // ---------------------------------------------------------------------

  /** A song the validator accepts into an empty 30-minute set. */
  function ShortSong(): Track
  {
    Track("Short Song", "Some Artist", "D", 240)
  }

  /** Once three songs have been explored, a pending request that the
      working table does not hold blocks exploration: as written, the loop
      never ends although the pool holds a song that would be accepted.
      The corrected loop stalls the set after five rounds. */
  lemma DeadRequestBlocksExploration(orders: seq<seq<Track>>)
    requires Shuffles(orders, [ShortSong()])
    ensures TryAdd(NewSet({}), ShortSong(), 1800).Accepted?
    ensures FillAsWritten(StartSet({}, ["Missing"], 3), [ShortSong()], orders, map[], 1800, 1800).OutOfFuel?
    ensures |orders| >= MAX_STALE_ROUNDS ==>
      Fill(StartSet({}, ["Missing"], 3), [ShortSong()], orders, map[], 1800, 1800).Stalled?
  {
    var fs := StartSet({}, ["Missing"], 3);
    assert Stuck(fs.round, [ShortSong()], map[], 1800);
    StuckSetNeverFinishes(fs, [ShortSong()], orders, map[], 1800, 1800);
    if |orders| >= MAX_STALE_ROUNDS {
      StuckSetStalls(fs, [ShortSong()], orders, map[], 1800, 1800);
    }
  }
}
