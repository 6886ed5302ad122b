/** One pass of the inner assembly loop: either an exploration scan over the
    freshly shuffled pool or a scan of the pending requests. */
module Rounds {
  import opened Wrappers
  import opened Tracks
  import opened Validator

  /** Placements between two request attempts. */
  const REQUEST_CADENCE: int := 3

  /** `removeIndex`: the list without its `index`-th entry, the others in order. */
  function RemoveIndex<T>(s: seq<T>, index: nat): (r: seq<T>)
    requires index < |s|
    ensures |r| == |s| - 1
    ensures r[..index] == s[..index]
    ensures forall j :: index <= j < |r| ==> r[j] == s[j + 1]
    ensures multiset(r) + multiset{s[index]} == multiset(s)
  {
    assert s == s[..index] + [s[index]] + s[index + 1..];
    s[..index] + s[index + 1..]
  }

  /** The outcome of a scan: the position of the accepted candidate and the
      state the validator committed. */
  datatype Pick = Pick(index: nat, next: SetState)

  /** The exploration scan from position `from`: the first candidate the
      validator accepts. */
  function ExploreFrom(st: SetState, order: seq<Track>, maxDuration: int, from: nat): (r: Option<Pick>)
    requires from <= |order|
    decreases |order| - from
    ensures r.None? <==> forall i :: from <= i < |order| ==> TryAdd(st, order[i], maxDuration).Rejected?
    ensures r.Some? ==>
      && from <= r.value.index < |order|
      && TryAdd(st, order[r.value.index], maxDuration) == Accepted(r.value.next)
      && forall j :: from <= j < r.value.index ==> TryAdd(st, order[j], maxDuration).Rejected?
  {
    if from == |order| then None
    else
      match TryAdd(st, order[from], maxDuration)
      case Accepted(next) => Some(Pick(from, next))
      case Rejected(_) => ExploreFrom(st, order, maxDuration, from + 1)
  }

  /** A request is placeable when the working table has it and the validator accepts it. */
  predicate Placeable(st: SetState, request: string, lookup: map<string, Track>, maxDuration: int)
  {
    request in lookup && TryAdd(st, lookup[request], maxDuration).Accepted?
  }

  /** The request scan from position `from`: requests missing from the
      working table are skipped, as are those the validator rejects. */
  function RequestFrom(st: SetState, requests: seq<string>, lookup: map<string, Track>, maxDuration: int, from: nat): (r: Option<Pick>)
    requires from <= |requests|
    decreases |requests| - from
    ensures r.None? <==> forall i :: from <= i < |requests| ==> !Placeable(st, requests[i], lookup, maxDuration)
    ensures r.Some? ==>
      && from <= r.value.index < |requests|
      && requests[r.value.index] in lookup
      && TryAdd(st, lookup[requests[r.value.index]], maxDuration) == Accepted(r.value.next)
      && forall j :: from <= j < r.value.index ==> !Placeable(st, requests[j], lookup, maxDuration)
  {
    if from == |requests| then None
    else if requests[from] !in lookup then RequestFrom(st, requests, lookup, maxDuration, from + 1)
    else
      match TryAdd(st, lookup[requests[from]], maxDuration)
      case Accepted(next) => Some(Pick(from, next))
      case Rejected(_) => RequestFrom(st, requests, lookup, maxDuration, from + 1)
  }

  /** The state one round reads and writes: the set being filled, and the
      build-wide request list and cadence counter. */
  datatype RoundState = RoundState(current: SetState, requests: seq<string>, countTillRequest: int)

  datatype RoundResult = RoundResult(state: RoundState, placed: Option<Track>)

  /** The round explores when fewer than three tracks have been placed since
      the last request, or when no request is pending. */
  predicate Explores(rs: RoundState)
  {
    rs.countTillRequest < REQUEST_CADENCE || |rs.requests| == 0
  }

  /** One round, as a reference definition. */
  function Round(rs: RoundState, order: seq<Track>, lookup: map<string, Track>, maxDuration: int): (r: RoundResult)
    ensures r.placed.None? ==> r.state == rs
    ensures r.placed.Some? ==> TryAdd(rs.current, r.placed.value, maxDuration) == Accepted(r.state.current)
    ensures Explores(rs) ==>
      && (r.placed.None? <==> forall i :: 0 <= i < |order| ==> TryAdd(rs.current, order[i], maxDuration).Rejected?)
      && (r.placed.Some? ==>
            && r.placed.value in order
            && r.state.requests == rs.requests
            && r.state.countTillRequest == rs.countTillRequest + 1)
    ensures !Explores(rs) ==>
      && (r.placed.None? <==> forall i :: 0 <= i < |rs.requests| ==> !Placeable(rs.current, rs.requests[i], lookup, maxDuration))
      && (r.placed.Some? ==>
            && r.placed.value in lookup.Values
            && |r.state.requests| == |rs.requests| - 1
            && r.state.countTillRequest == 0)
  {
    if Explores(rs) then
      match ExploreFrom(rs.current, order, maxDuration, 0)
      case None => RoundResult(rs, None)
      case Some(p) =>
        RoundResult(RoundState(p.next, rs.requests, rs.countTillRequest + 1), Some(order[p.index]))
    else
      match RequestFrom(rs.current, rs.requests, lookup, maxDuration, 0)
      case None => RoundResult(rs, None)
      case Some(p) =>
        var t := lookup[rs.requests[p.index]];
        RoundResult(RoundState(p.next, RemoveIndex(rs.requests, p.index), 0), Some(t))
  }

  /** A successful request round removes exactly the first placeable request;
      the requests before it, which were missing or rejected, stay in the list
      in their order, and those after it move up by one. */
  lemma RequestRoundRemovesPlacedRequest(rs: RoundState, order: seq<Track>, lookup: map<string, Track>, maxDuration: int)
    ensures !Explores(rs) && Round(rs, order, lookup, maxDuration).placed.Some? ==>
      exists k :: 0 <= k < |rs.requests| && RequestPlacedAt(rs, lookup, maxDuration, k, Round(rs, order, lookup, maxDuration))
  {
    if !Explores(rs) && Round(rs, order, lookup, maxDuration).placed.Some? {
      var p := RequestFrom(rs.current, rs.requests, lookup, maxDuration, 0).value;
      assert RequestPlacedAt(rs, lookup, maxDuration, p.index, Round(rs, order, lookup, maxDuration));
    }
  }

  /** Request `k` is the one the round placed. */
  ghost predicate RequestPlacedAt(rs: RoundState, lookup: map<string, Track>, maxDuration: int, k: nat, r: RoundResult)
    requires k < |rs.requests|
  {
    && rs.requests[k] in lookup
    && r.placed == Some(lookup[rs.requests[k]])
    && r.state.requests == RemoveIndex(rs.requests, k)
    && (forall j :: 0 <= j < k ==> !Placeable(rs.current, rs.requests[j], lookup, maxDuration))
  }

  /** The round as the source runs it: two scanning loops that stop at the
      first acceptance. */
  method PlayRound(rs: RoundState, order: seq<Track>, lookup: map<string, Track>, maxDuration: int) returns (r: RoundResult)
    ensures r == Round(rs, order, lookup, maxDuration)
  {
    if rs.countTillRequest < REQUEST_CADENCE || |rs.requests| == 0 {
      var i := 0;
      while i < |order|
        invariant 0 <= i <= |order|
        invariant forall j :: 0 <= j < i ==> TryAdd(rs.current, order[j], maxDuration).Rejected?
      {
        var v := TryAdd(rs.current, order[i], maxDuration);
        if v.Accepted? {
          return RoundResult(RoundState(v.next, rs.requests, rs.countTillRequest + 1), Some(order[i]));
        }
        i := i + 1;
      }
      return RoundResult(rs, None);
    } else {
      var i := 0;
      while i < |rs.requests|
        invariant 0 <= i <= |rs.requests|
        invariant forall j :: 0 <= j < i ==> !Placeable(rs.current, rs.requests[j], lookup, maxDuration)
      {
        var request := rs.requests[i];
        if request in lookup {
          var v := TryAdd(rs.current, lookup[request], maxDuration);
          if v.Accepted? {
            return RoundResult(RoundState(v.next, RemoveIndex(rs.requests, i), 0), Some(lookup[request]));
          }
        }
        i := i + 1;
      }
      return RoundResult(rs, None);
    }
  }
}
