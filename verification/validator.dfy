/** `tryAddTrackToSet`: the four checks a candidate must pass before it joins
    the set being filled, and the state it commits when it passes them all. */
module Validator {
  import opened Tracks

  /** Seconds a set may run past its target. */
  const OVERFILL_SECONDS: int := 300

  /** The state `RunBuild` passes to the validator by reference. */
  datatype SetState = SetState(
    names: seq<string>,          // the set so far, by song name
    usedArtists: set<string>,    // artists placed in this set
    addedSongs: set<string>,     // songs placed anywhere in the build
    lastKey: string,             // key of the most recent track, "" at the start of a set
    totalDuration: int)          // seconds placed in this set

  /** The state at the start of a set: the artist history, last key and
      duration are reset, the build-wide song set carries over. */
  function NewSet(addedSongs: set<string>): SetState
  {
    SetState([], {}, addedSongs, "", 0)
  }

  /** The reason the source logs for a rejection. */
  datatype Rejection = ArtistUsed | SongAlreadyAdded | SameKeyAsLast | ExceedsMaxDuration

  datatype Verdict = Accepted(next: SetState) | Rejected(reason: Rejection)

  /** The validator. The checks run in order and the first failing one is
      reported; only if all pass is the state updated, all at once. */
  function TryAdd(st: SetState, t: Track, maxDuration: int): (v: Verdict)
    ensures v.Rejected? <==>
      || t.artist in st.usedArtists
      || t.name in st.addedSongs
      || (st.lastKey != "" && t.key == st.lastKey)
      || st.totalDuration + t.durationSeconds > maxDuration + OVERFILL_SECONDS
    ensures v == Rejected(ArtistUsed) <==> t.artist in st.usedArtists
    ensures v == Rejected(SongAlreadyAdded) <==> t.artist !in st.usedArtists && t.name in st.addedSongs
    ensures v == Rejected(SameKeyAsLast) <==>
      && t.artist !in st.usedArtists && t.name !in st.addedSongs
      && st.lastKey != "" && t.key == st.lastKey
    ensures v == Rejected(ExceedsMaxDuration) <==>
      && t.artist !in st.usedArtists && t.name !in st.addedSongs && (st.lastKey == "" || t.key != st.lastKey)
      && st.totalDuration + t.durationSeconds > maxDuration + OVERFILL_SECONDS
    ensures v.Accepted? ==>
      && v.next.names == st.names + [t.name]
      && v.next.usedArtists == st.usedArtists + {t.artist}
      && v.next.addedSongs == st.addedSongs + {t.name}
      && v.next.lastKey == t.key
      && v.next.totalDuration == st.totalDuration + t.durationSeconds
    ensures v.Accepted? ==> v.next.totalDuration <= maxDuration + OVERFILL_SECONDS
  {
    if t.artist in st.usedArtists then
      Rejected(ArtistUsed)
    else if t.name in st.addedSongs then
      Rejected(SongAlreadyAdded)
    else if st.lastKey != "" && t.key == st.lastKey then
      Rejected(SameKeyAsLast)
    else if st.totalDuration + t.durationSeconds > maxDuration + OVERFILL_SECONDS then
      Rejected(ExceedsMaxDuration)
    else
      Accepted(SetState(
        st.names + [t.name],
        st.usedArtists + {t.artist},
        st.addedSongs + {t.name},
        t.key,
        st.totalDuration + t.durationSeconds))
  }

  // ---------------------------------------------------------------------
  // Views of a sequence of placed tracks, used to state the set invariants.
  // ---------------------------------------------------------------------

  function Names(placed: seq<Track>): seq<string>
  {
    seq(|placed|, i requires 0 <= i < |placed| => placed[i].name)
  }

  function NameSet(placed: seq<Track>): set<string>
  {
    set i | 0 <= i < |placed| :: placed[i].name
  }

  function ArtistSet(placed: seq<Track>): set<string>
  {
    set i | 0 <= i < |placed| :: placed[i].artist
  }

  function LastKey(placed: seq<Track>): string
  {
    if |placed| == 0 then "" else placed[|placed| - 1].key
  }

  function Seconds(placed: seq<Track>): int
  {
    if |placed| == 0 then 0 else Seconds(placed[..|placed| - 1]) + placed[|placed| - 1].durationSeconds
  }

  /** `st` is what the validator leaves after accepting `placed`, in order,
      into a fresh set of a build that had already placed the songs `before`. */
  ghost predicate Describes(st: SetState, placed: seq<Track>, before: set<string>)
  {
    && st.names == Names(placed)
    && st.usedArtists == ArtistSet(placed)
    && st.addedSongs == before + NameSet(placed)
    && st.lastKey == LastKey(placed)
    && st.totalDuration == Seconds(placed)
  }

  /** The variety and length rules of one set with ceiling `maxDuration`: no
      artist twice, no two consecutive tracks in the same non-empty key, and
      the total at most `OVERFILL_SECONDS` past the ceiling. */
  ghost predicate SetRules(placed: seq<Track>, maxDuration: int)
  {
    && (forall i, j :: 0 <= i < j < |placed| ==> placed[i].artist != placed[j].artist)
    && (forall i :: 0 < i < |placed| ==> placed[i - 1].key == "" || placed[i - 1].key != placed[i].key)
    && (|placed| > 0 ==> Seconds(placed) <= maxDuration + OVERFILL_SECONDS)
  }

  /** No song twice in the set, and none the build had already placed. */
  ghost predicate FreshSongs(placed: seq<Track>, before: set<string>)
  {
    && (forall i, j :: 0 <= i < j < |placed| ==> placed[i].name != placed[j].name)
    && (forall i :: 0 <= i < |placed| ==> placed[i].name !in before)
  }

  lemma NewSetDescribesEmpty(before: set<string>, maxDuration: int)
    ensures Describes(NewSet(before), [], before)
    ensures SetRules([], maxDuration) && FreshSongs([], before)
  {
  }

  lemma NameSetAppend(placed: seq<Track>, t: Track)
    ensures NameSet(placed + [t]) == NameSet(placed) + {t.name}
  {
    var p := placed + [t];
    forall n | n in NameSet(p) ensures n in NameSet(placed) + {t.name} {
      var i :| 0 <= i < |p| && p[i].name == n;
      if i < |placed| { assert placed[i].name == n; }
    }
    forall n | n in NameSet(placed) + {t.name} ensures n in NameSet(p) {
      if n == t.name {
        assert p[|placed|] == t;
      } else {
        var i :| 0 <= i < |placed| && placed[i].name == n;
        assert p[i] == placed[i];
      }
    }
  }

  lemma ArtistSetAppend(placed: seq<Track>, t: Track)
    ensures ArtistSet(placed + [t]) == ArtistSet(placed) + {t.artist}
  {
    var p := placed + [t];
    forall a | a in ArtistSet(p) ensures a in ArtistSet(placed) + {t.artist} {
      var i :| 0 <= i < |p| && p[i].artist == a;
      if i < |placed| { assert placed[i].artist == a; }
    }
    forall a | a in ArtistSet(placed) + {t.artist} ensures a in ArtistSet(p) {
      if a == t.artist {
        assert p[|placed|] == t;
      } else {
        var i :| 0 <= i < |placed| && placed[i].artist == a;
        assert p[i] == placed[i];
      }
    }
  }

  /** An accepted track extends the history the state describes, and the set
      still keeps its rules: the artist was unused, the song is new to the
      build, its key differs from a non-empty previous key, and the new total
      stays within the overfill margin. */
  lemma AcceptKeepsSetRules(st: SetState, placed: seq<Track>, before: set<string>, t: Track, maxDuration: int)
    requires Describes(st, placed, before)
    requires SetRules(placed, maxDuration) && FreshSongs(placed, before)
    requires TryAdd(st, t, maxDuration).Accepted?
    ensures var next := TryAdd(st, t, maxDuration).next;
      && Describes(next, placed + [t], before)
      && SetRules(placed + [t], maxDuration)
      && FreshSongs(placed + [t], before)
  {
    var p := placed + [t];
    assert p[..|p| - 1] == placed;
    assert Names(p) == Names(placed) + [t.name];
    NameSetAppend(placed, t);
    ArtistSetAppend(placed, t);
    forall i | 0 <= i < |placed|
      ensures placed[i].artist != t.artist && placed[i].name != t.name
    {
      assert placed[i].artist in ArtistSet(placed);
      assert placed[i].name in NameSet(placed);
    }
  }
}
