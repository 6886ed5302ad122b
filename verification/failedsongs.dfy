/** `buildFailedSongsHTML`: the fragment of the extraction result page that
    lists songs that could not be downloaded. */
module FailedSongs {

  const HEADER: string := "<h3>Failed Songs:</h3><ul>"
  const FOOTER: string := "</ul>"
  const ITEM_OPEN: string := "<li>"
  const ITEM_CLOSE: string := "</li>"

  /** One list item; the song name goes in verbatim, with no escaping. */
  function Item(song: string): string
  {
    ITEM_OPEN + song + ITEM_CLOSE
  }

  function Items(songs: seq<string>): string
  {
    if |songs| == 0 then "" else Items(songs[..|songs| - 1]) + Item(songs[|songs| - 1])
  }

  /** The fragment as a reference definition: nothing for no songs, otherwise
      the heading and an unordered list with one item per song, in order. */
  function FailedSongsHtml(songs: seq<string>): string
  {
    if |songs| == 0 then "" else HEADER + Items(songs) + FOOTER
  }

  /** Total characters of the song names. */
  function NameLength(songs: seq<string>): nat
  {
    if |songs| == 0 then 0 else NameLength(songs[..|songs| - 1]) + |songs[|songs| - 1]|
  }

  /** The source's loop: start from the heading, append one item per song,
      close the list. */
  method BuildFailedSongsHtml(failedSongs: seq<string>) returns (html: string)
    ensures html == FailedSongsHtml(failedSongs)
    ensures failedSongs == [] <==> html == ""
  {
    if |failedSongs| == 0 {
      return "";
    }
    html := HEADER;
    for i := 0 to |failedSongs|
      invariant html == HEADER + Items(failedSongs[..i])
    {
      assert failedSongs[..i + 1][..i] == failedSongs[..i];
      html := html + Item(failedSongs[i]);
    }
    assert failedSongs[..|failedSongs|] == failedSongs;
    html := html + FOOTER;
  }

  /** Items of a concatenation are the concatenation of the items. */
  lemma {:induction false} ItemsAppend(a: seq<string>, b: seq<string>)
    ensures Items(a + b) == Items(a) + Items(b)
    decreases |b|
  {
    if |b| > 0 {
      var b' := b[..|b| - 1];
      assert (a + b)[..|a + b| - 1] == a + b';
      ItemsAppend(a, b');
    } else {
      assert a + b == a;
    }
  }

  lemma {:induction false} ItemsLength(songs: seq<string>)
    ensures |Items(songs)| == 9 * |songs| + NameLength(songs)
  {
    if |songs| > 0 {
      ItemsLength(songs[..|songs| - 1]);
    }
  }

  /** The fragment is 31 characters of markup plus 9 per song plus the names:
      nothing is added, escaped or dropped. */
  lemma FailedSongsHtmlLength(songs: seq<string>)
    ensures |FailedSongsHtml(songs)| == if songs == [] then 0 else 31 + 9 * |songs| + NameLength(songs)
  {
    ItemsLength(songs);
  }

  lemma MiddleOfConcat(x: string, y: string, z: string)
    ensures (x + y + z)[|x|..|x| + |y|] == y
  {
    assert (x + y + z)[|x|..|x| + |y|] == (x + y)[|x|..];
  }

  /** Song `i` appears verbatim, wrapped in its own list item, right after the
      heading and the items of the songs before it. */
  lemma SongAppearsVerbatim(songs: seq<string>, i: nat)
    requires i < |songs|
    ensures var out := FailedSongsHtml(songs);
      var at := |HEADER| + |Items(songs[..i])|;
      && at + |Item(songs[i])| <= |out|
      && out[at..at + |Item(songs[i])|] == ITEM_OPEN + songs[i] + ITEM_CLOSE
  {
    assert songs == songs[..i] + [songs[i]] + songs[i + 1..];
    ItemsAppend(songs[..i] + [songs[i]], songs[i + 1..]);
    ItemsAppend(songs[..i], [songs[i]]);
    assert [songs[i]][..0] == [];
    assert Items([songs[i]]) == Item(songs[i]);
    var x := HEADER + Items(songs[..i]);
    var z := Items(songs[i + 1..]) + FOOTER;
    assert FailedSongsHtml(songs) == x + Item(songs[i]) + z;
    MiddleOfConcat(x, Item(songs[i]), z);
  }
}
