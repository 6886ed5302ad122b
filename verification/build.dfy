/** `RunBuild`: the sets are filled one after another. The set of placed
    songs, the pending requests and the request cadence carry over from set
    to set; the artist history, the last key and the running total do not. */
module Build {
  import opened Tracks
  import opened Validator
  import opened SetLoop
  import opened Partition

  /** What the build has assembled so far. */
  datatype Progress = Progress(
    setlist: seq<seq<string>>,          // the printed setlist, by song name
    sets: seq<seq<Track>>,              // the same sets, as the tracks placed
    warnings: seq<UnderfillWarning>,
    requests: seq<string>,              // requests still pending
    countTillRequest: int,
    addedSongs: set<string>)

  datatype BuildOutcome =
    | Built(progress: Progress, breaks: BreakReport)
    | BuildFatal        // the working pool was empty while a set was short
    | BuildOutOfFuel    // the supplied shuffles ran out

  /** Seconds in a set of `length` minutes. */
  function TargetSeconds(length: Int32): int
  {
    length * 60
  }

  /** The ceiling handed to the validator: the `int32` product `set*60`. */
  function Ceiling(length: Int32): int
  {
    WrapInt32(length * 60)
  }

  /** Record a finished set: its names join the setlist, an underfill warning
      is added if it is short of its target, and the request state and song
      history carry over to the next set. */
  function CloseSet(p: Progress, s: FillState, target: int): (next: Progress)
    ensures |next.setlist| == |p.setlist| + 1 && |next.sets| == |p.sets| + 1
    ensures next.setlist[..|p.setlist|] == p.setlist
  {
    var warning := Underfill(|p.setlist| + 1, target, s.round.current.totalDuration);
    Progress(
      p.setlist + [s.round.current.names],
      p.sets + [s.placed],
      p.warnings + (if warning.Some? then [warning.value] else []),
      s.round.requests,
      s.round.countTillRequest,
      s.round.current.addedSongs)
  }

  /** Which set loop a build runs: the source's nested loops, or the loop
      corrected to give up on a set after five fruitless rounds. */
  datatype LoopVersion = AsWritten | Corrected

  /** Fill the next set, of `length` minutes, starting from a fresh set that
      keeps the build's song history, requests and cadence. */
  function FillOne(version: LoopVersion, p: Progress, length: Int32, pool: seq<Track>, order: seq<seq<Track>>,
                   lookup: map<string, Track>): FillOutcome
    requires Shuffles(order, pool)
  {
    var start := StartSet(p.addedSongs, p.requests, p.countTillRequest);
    match version
    case AsWritten => FillAsWritten(start, pool, order, lookup, TargetSeconds(length), Ceiling(length))
    case Corrected => Fill(start, pool, order, lookup, TargetSeconds(length), Ceiling(length))
  }

  /** Fill the remaining sets, one list of shuffles per set. */
  function FillSets(version: LoopVersion, lengths: seq<Int32>, pool: seq<Track>, orders: seq<seq<seq<Track>>>,
                    lookup: map<string, Track>, p: Progress): (r: BuildOutcome)
    requires |orders| == |lengths|
    requires forall k :: 0 <= k < |orders| ==> Shuffles(orders[k], pool)
    decreases |lengths|
    ensures r.Built? ==> |r.progress.sets| == |p.sets| + |lengths| && r.breaks == Breaks(|r.progress.sets|)
    ensures r.Built? ==> |r.progress.setlist| == |p.setlist| + |lengths|
    ensures r.Built? ==> r.progress.setlist[..|p.setlist|] == p.setlist
  {
    if |lengths| == 0 then
      Built(p, Breaks(|p.sets|))
    else
      var r := FillOne(version, p, lengths[0], pool, orders[0], lookup);
      if r.Fatal? then BuildFatal
      else if r.OutOfFuel? then BuildOutOfFuel
      else FillSets(version, lengths[1..], pool, orders[1..], lookup, CloseSet(p, r.state, TargetSeconds(lengths[0])))
  }

  /** The progress a build starts from: nothing placed, the requests as
      given and a zero cadence. */
  function Start(requests: seq<string>): Progress
  {
    Progress([], [], [], requests, 0, {})
  }

  /** `RunBuild` as written: the source's partition, then each set filled in
      turn by the source's set loop. */
  function RunBuild(duration: Int32, pool: seq<Track>, orders: seq<seq<seq<Track>>>,
                    lookup: map<string, Track>, requests: seq<string>): (r: BuildOutcome)
    requires |orders| == |SetLengths(duration)|
    requires forall k :: 0 <= k < |orders| ==> Shuffles(orders[k], pool)
    ensures r.Built? ==>
      && |r.progress.sets| == |SetLengths(duration)|
      && |r.progress.setlist| == |r.progress.sets|
      && r.breaks == Breaks(|r.progress.sets|)
  {
    FillSets(AsWritten, SetLengths(duration), pool, orders, lookup, Start(requests))
  }

  /** The corrected build: the corrected partition, then each set filled in
      turn by the corrected set loop. */
  function RunCorrectedBuild(duration: Int32, pool: seq<Track>, orders: seq<seq<seq<Track>>>,
                             lookup: map<string, Track>, requests: seq<string>): (r: BuildOutcome)
    requires |orders| == |IntendedSetLengths(duration)|
    requires forall k :: 0 <= k < |orders| ==> Shuffles(orders[k], pool)
    ensures r.Built? ==>
      && |r.progress.sets| == |IntendedSetLengths(duration)|
      && |r.progress.setlist| == |r.progress.sets|
      && r.breaks == Breaks(|r.progress.sets|)
  {
    FillSets(Corrected, IntendedSetLengths(duration), pool, orders, lookup, Start(requests))
  }

  // ---------------------------------------------------------------------
  // Build-wide invariants.
  // ---------------------------------------------------------------------

  /** All placed tracks, set after set. */
  function Flatten(sets: seq<seq<Track>>): seq<Track>
  {
    if |sets| == 0 then [] else Flatten(sets[..|sets| - 1]) + sets[|sets| - 1]
  }

  ghost predicate SongsUnique(ts: seq<Track>)
  {
    forall i, j :: 0 <= i < j < |ts| ==> ts[i].name != ts[j].name
  }

  /** The progress after the sets of lengths `done`: every set keeps the set
      rules under its own ceiling, the printed names are those of the placed
      tracks, and no song name appears twice in the whole setlist. */
  ghost predicate Consistent(p: Progress, done: seq<Int32>)
  {
    && |p.sets| == |done| == |p.setlist|
    && (forall i :: 0 <= i < |p.sets| ==> p.setlist[i] == Names(p.sets[i]))
    && (forall i :: 0 <= i < |p.sets| ==> SetRules(p.sets[i], Ceiling(done[i])))
    && SongsUnique(Flatten(p.sets))
    && p.addedSongs == NameSet(Flatten(p.sets))
  }

  lemma AppendFreshSet(all: seq<Track>, placed: seq<Track>)
    requires SongsUnique(all)
    requires FreshSongs(placed, NameSet(all))
    ensures SongsUnique(all + placed)
    ensures NameSet(all + placed) == NameSet(all) + NameSet(placed)
  {
    var c := all + placed;
    forall i, j | 0 <= i < j < |c| ensures c[i].name != c[j].name {
      if j >= |all| && i < |all| {
        assert c[i].name in NameSet(all);
        assert c[j] == placed[j - |all|];
      } else if i >= |all| {
        assert c[i] == placed[i - |all|] && c[j] == placed[j - |all|];
      }
    }
    forall n | n in NameSet(c) ensures n in NameSet(all) + NameSet(placed) {
      var i :| 0 <= i < |c| && c[i].name == n;
      if i < |all| { assert all[i] == c[i]; } else { assert placed[i - |all|] == c[i]; }
    }
    forall n | n in NameSet(all) + NameSet(placed) ensures n in NameSet(c) {
      if n in NameSet(all) {
        var i :| 0 <= i < |all| && all[i].name == n;
        assert c[i] == all[i];
      } else {
        var i :| 0 <= i < |placed| && placed[i].name == n;
        assert c[|all| + i] == placed[i];
      }
    }
  }

  /** Closing a sound set keeps the progress consistent. */
  lemma CloseSetKeepsConsistent(p: Progress, done: seq<Int32>, s: FillState, target: int, length: Int32)
    requires Consistent(p, done)
    requires Sound(s, p.addedSongs, Ceiling(length))
    ensures Consistent(CloseSet(p, s, target), done + [length])
  {
    var next := CloseSet(p, s, target);
    AppendFreshSet(Flatten(p.sets), s.placed);
    assert next.sets[..|p.sets|] == p.sets;
    assert Flatten(next.sets) == Flatten(p.sets) + s.placed;
    forall i | 0 <= i < |next.sets|
      ensures next.setlist[i] == Names(next.sets[i]) && SetRules(next.sets[i], Ceiling((done + [length])[i]))
    {
      if i < |p.sets| {
        assert next.sets[i] == p.sets[i] && next.setlist[i] == p.setlist[i];
      }
    }
  }

  /** The set filled for the build keeps the set invariants, under either loop. */
  lemma FillOneSound(version: LoopVersion, p: Progress, length: Int32, pool: seq<Track>, order: seq<seq<Track>>,
                     lookup: map<string, Track>)
    requires Shuffles(order, pool)
    ensures var r := FillOne(version, p, length, pool, order, lookup);
      !r.Fatal? ==> Sound(r.state, p.addedSongs, Ceiling(length))
  {
    var start := StartSet(p.addedSongs, p.requests, p.countTillRequest);
    NewSetDescribesEmpty(p.addedSongs, Ceiling(length));
    match version
    case AsWritten =>
      FillAsWrittenKeepsSound(start, pool, order, lookup, TargetSeconds(length), Ceiling(length), p.addedSongs);
    case Corrected =>
      FillKeepsSound(start, pool, order, lookup, TargetSeconds(length), Ceiling(length), p.addedSongs);
  }

  lemma {:induction false} FillSetsKeepsConsistent(version: LoopVersion, lengths: seq<Int32>, pool: seq<Track>,
                                                   orders: seq<seq<seq<Track>>>, lookup: map<string, Track>,
                                                   p: Progress, done: seq<Int32>)
    requires |orders| == |lengths|
    requires forall k :: 0 <= k < |orders| ==> Shuffles(orders[k], pool)
    requires Consistent(p, done)
    decreases |lengths|
    ensures var r := FillSets(version, lengths, pool, orders, lookup, p);
      r.Built? ==> Consistent(r.progress, done + lengths)
  {
    if |lengths| == 0 {
      assert done + lengths == done;
    } else {
      var r := FillOne(version, p, lengths[0], pool, orders[0], lookup);
      if !r.Fatal? && !r.OutOfFuel? {
        FillOneSound(version, p, lengths[0], pool, orders[0], lookup);
        var next := CloseSet(p, r.state, TargetSeconds(lengths[0]));
        CloseSetKeepsConsistent(p, done, r.state, TargetSeconds(lengths[0]), lengths[0]);
        assert (done + [lengths[0]]) + lengths[1..] == done + lengths;
        assert forall k :: 0 <= k < |orders[1..]| ==> orders[1..][k] == orders[k + 1];
        FillSetsKeepsConsistent(version, lengths[1..], pool, orders[1..], lookup, next, done + [lengths[0]]);
      }
    }
  }

  /** The setlist invariants of a build over the set lengths `lengths`: no
      song name twice anywhere in the setlist, each printed set is the names
      of its placed tracks, and every set has no artist twice, no two
      consecutive tracks in the same non-empty key, and a total at most five
      minutes past the validator's ceiling, which is the set's target
      whenever the set has a positive length. */
  ghost predicate SetlistRules(p: Progress, lengths: seq<Int32>)
  {
    && SongsUnique(Flatten(p.sets))
    && |p.sets| == |lengths| == |p.setlist|
    && forall i :: 0 <= i < |p.sets| ==>
         && p.setlist[i] == Names(p.sets[i])
         && SetRules(p.sets[i], Ceiling(lengths[i]))
         && (lengths[i] > 0 ==> SetRules(p.sets[i], TargetSeconds(lengths[i])))
  }

  /** Filling sets of at most 180 minutes from the start of a build, with
      either loop, keeps the setlist invariants. */
  lemma FillFromStartKeepsRules(version: LoopVersion, lengths: seq<Int32>, pool: seq<Track>,
                                orders: seq<seq<seq<Track>>>, lookup: map<string, Track>, requests: seq<string>)
    requires |orders| == |lengths|
    requires forall k :: 0 <= k < |orders| ==> Shuffles(orders[k], pool)
    requires forall i :: 0 <= i < |lengths| ==> lengths[i] <= 180
    ensures var r := FillSets(version, lengths, pool, orders, lookup, Start(requests));
      r.Built? ==> SetlistRules(r.progress, lengths)
  {
    assert Consistent(Start(requests), []);
    FillSetsKeepsConsistent(version, lengths, pool, orders, lookup, Start(requests), []);
    assert [] + lengths == lengths;
    forall i | 0 <= i < |lengths| && lengths[i] > 0 ensures Ceiling(lengths[i]) == TargetSeconds(lengths[i]) {
      CeilingMatchesTarget(lengths[i]);
    }
  }

  /** Every completed build, as written, keeps the setlist invariants. The
      build may instead never complete: see `StuckSetNeverFinishes`. */
  lemma BuildKeepsInvariants(duration: Int32, pool: seq<Track>, orders: seq<seq<seq<Track>>>,
                             lookup: map<string, Track>, requests: seq<string>)
    requires |orders| == |SetLengths(duration)|
    requires forall k :: 0 <= k < |orders| ==> Shuffles(orders[k], pool)
    ensures var r := RunBuild(duration, pool, orders, lookup, requests);
      r.Built? ==> SetlistRules(r.progress, SetLengths(duration))
  {
    FillFromStartKeepsRules(AsWritten, SetLengths(duration), pool, orders, lookup, requests);
  }

  /** Every completed corrected build keeps the same invariants. */
  lemma CorrectedBuildKeepsInvariants(duration: Int32, pool: seq<Track>, orders: seq<seq<seq<Track>>>,
                                      lookup: map<string, Track>, requests: seq<string>)
    requires |orders| == |IntendedSetLengths(duration)|
    requires forall k :: 0 <= k < |orders| ==> Shuffles(orders[k], pool)
    ensures var r := RunCorrectedBuild(duration, pool, orders, lookup, requests);
      r.Built? ==> SetlistRules(r.progress, IntendedSetLengths(duration))
  {
    IntendedFitsWithinCap(duration);
    FillFromStartKeepsRules(Corrected, IntendedSetLengths(duration), pool, orders, lookup, requests);
  }
}
