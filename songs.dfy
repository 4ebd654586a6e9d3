/**
 * The track record the catalog returns, and the pure selections the player's
 * `render` makes from it: which audio variant to play, which image to show and
 * how the artist line reads.
 *
 * JavaScript treats `undefined`, `null` and `""` alike in `a || b`; the model
 * writes every missing string field as `""` and every missing array as `[]`.
 */
module Songs {
  import opened Optional

  /** One entry of `image` or `downloadUrl`: a quality tier and its url ("" when missing). */
  datatype Link = Link(quality: string, url: string)

  datatype Song = Song(
    id: string,                  // `id`, "" when absent
    songId: string,              // `song_id`, the legacy identifier
    name: string,
    primaryArtists: seq<string>, // names of `artists.primary`, in order
    image: seq<Link>,            // ascending resolution
    downloadUrl: seq<Link>       // ascending quality
  )

  const UnknownArtist := "Unknown Artist"
  const ArtistSeparator := ", "

  /** Track identity: `song?.id || song?.song_id`; "" stands for every falsy outcome. */
  function TrackId(song: Option<Song>): (r: string)
    ensures r == "" <==> song.None? || (song.value.id == "" && song.value.songId == "")
    ensures song.Some? && song.value.id != "" ==> r == song.value.id
    ensures r != "" && r != song.value.id ==> song.value.id == "" && r == song.value.songId
  {
    match song
    case None => ""
    case Some(s) => if s.id != "" then s.id else s.songId
  }

  /** The `src` of the audio element: the highest-quality url, else the first, else "". */
  function AudioUrl(song: Song): (r: string)
    ensures var d := song.downloadUrl;
      && (|d| > 0 && d[|d| - 1].url != "" ==> r == d[|d| - 1].url)
      && (|d| > 0 && d[|d| - 1].url == "" ==> r == d[0].url)
      && (r == "" <==> |d| == 0 || (d[|d| - 1].url == "" && d[0].url == ""))
  {
    var d := song.downloadUrl;
    if |d| > 0 && d[|d| - 1].url != "" then d[|d| - 1].url
    else if |d| > 0 && d[0].url != "" then d[0].url
    else ""
  }

  /** The album art: the second image variant, else the first, else "". */
  function ImageUrl(song: Song): (r: string)
    ensures var im := song.image;
      && (|im| > 1 && im[1].url != "" ==> r == im[1].url)
      && (|im| == 1 ==> r == im[0].url)
      && (|im| > 1 && im[1].url == "" ==> r == im[0].url)
      && (r == "" <==> |im| == 0 || (im[0].url == "" && (|im| == 1 || im[1].url == "")))
  {
    var im := song.image;
    if |im| > 1 && im[1].url != "" then im[1].url
    else if |im| > 0 && im[0].url != "" then im[0].url
    else ""
  }

  /** `Array.prototype.join`: the parts in order with `sep` between neighbours. */
  function Join(parts: seq<string>, sep: string): string
  {
    if |parts| == 0 then ""
    else if |parts| == 1 then parts[0]
    else parts[0] + sep + Join(parts[1..], sep)
  }

  /** Total length of the parts. */
  function SumLen(parts: seq<string>): nat
  {
    if |parts| == 0 then 0 else |parts[0]| + SumLen(parts[1..])
  }

  /** Where the `i`-th part starts inside `Join(parts, sep)`: past the first `i` parts and their separators. */
  function Offset(parts: seq<string>, sep: string, i: nat): nat
    requires i <= |parts|
  {
    if i == 0 then 0 else |parts[0]| + |sep| + Offset(parts[1..], sep, i - 1)
  }

  /** The joined string is exactly as long as the parts plus one separator per gap. */
  lemma {:induction false} JoinLength(parts: seq<string>, sep: string)
    ensures |parts| > 0 ==> |Join(parts, sep)| == SumLen(parts) + |sep| * (|parts| - 1)
    ensures |parts| == 0 ==> Join(parts, sep) == ""
  {
    if |parts| > 1 {
      JoinLength(parts[1..], sep);
      assert |sep| * (|parts| - 1) == |sep| + |sep| * (|parts| - 2);
    }
  }

  /** Every part appears, unchanged, at its offset in the joined string. */
  lemma {:induction false} JoinAt(parts: seq<string>, sep: string, i: nat)
    requires i < |parts|
    ensures Offset(parts, sep, i) + |parts[i]| <= |Join(parts, sep)|
    ensures Join(parts, sep)[Offset(parts, sep, i) .. Offset(parts, sep, i) + |parts[i]|] == parts[i]
  {
    if i > 0 {
      var tail := Join(parts[1..], sep);
      var k := |parts[0]| + |sep|;
      assert Join(parts, sep) == parts[0] + sep + tail;
      JoinAt(parts[1..], sep, i - 1);
      assert Join(parts, sep)[k..] == tail;
    } else if |parts| > 1 {
      assert Join(parts, sep) == parts[0] + (sep + Join(parts[1..], sep));
    }
  }

  /** Between neighbouring parts `i` and `i + 1` the joined string holds exactly the separator. */
  lemma {:induction false} JoinSeparator(parts: seq<string>, sep: string, i: nat)
    requires i + 1 < |parts|
    ensures Offset(parts, sep, i) + |parts[i]| <= Offset(parts, sep, i + 1) <= |Join(parts, sep)|
    ensures Join(parts, sep)[Offset(parts, sep, i) + |parts[i]| .. Offset(parts, sep, i + 1)] == sep
  {
    var tail := Join(parts[1..], sep);
    assert Join(parts, sep) == parts[0] + sep + tail;
    if i > 0 {
      JoinSeparator(parts[1..], sep, i - 1);
      var k := |parts[0]| + |sep|;
      assert Join(parts, sep)[k..] == tail;
    }
  }

  /** A join with a non-empty separator is empty exactly when there is nothing to show. */
  lemma JoinEmptyIff(parts: seq<string>, sep: string)
    requires sep != ""
    ensures Join(parts, sep) == "" <==> |parts| == 0 || (|parts| == 1 && parts[0] == "")
  {
    if |parts| > 1 {
      assert |Join(parts, sep)| >= |sep|;
    }
  }

  /** The artist line under the track name. */
  function ArtistLine(song: Song): (r: string)
    ensures r != ""
    ensures var names := song.primaryArtists;
      if |names| == 0 || (|names| == 1 && names[0] == "") then r == UnknownArtist
      else r == Join(names, ArtistSeparator)
  {
    JoinEmptyIff(song.primaryArtists, ArtistSeparator);
    var joined := Join(song.primaryArtists, ArtistSeparator);
    if joined != "" then joined else UnknownArtist
  }
}
