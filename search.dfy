/**
 * The `App` component: the search state (`songslist`, `loading`, `error`,
 * `hasSearched`) and the selected song (`currentSong`). The HTTP request is
 * outside the model; its outcome arrives as a `SearchOutcome`.
 */
module Search {
  import opened Optional
  import opened Songs

  /** The code points `String.prototype.trim` removes: white space and line terminators. */
  predicate IsSpace(c: char)
  {
    || c == '\t' || c == '\n' || c == '\U{000B}' || c == '\U{000C}' || c == '\r' || c == ' '
    || c == '\U{00A0}' || c == '\U{1680}' || ('\U{2000}' <= c <= '\U{200A}')
    || c == '\U{2028}' || c == '\U{2029}' || c == '\U{202F}' || c == '\U{205F}'
    || c == '\U{3000}' || c == '\U{FEFF}'
  }

  predicate AllSpace(s: string)
  {
    forall i :: 0 <= i < |s| ==> IsSpace(s[i])
  }

  function TrimStart(s: string): string
  {
    if s != "" && IsSpace(s[0]) then TrimStart(s[1..]) else s
  }

  function TrimEnd(s: string): string
  {
    if s != "" && IsSpace(s[|s| - 1]) then TrimEnd(s[..|s| - 1]) else s
  }

  /** `String.prototype.trim`. */
  function Trim(s: string): string
  {
    TrimEnd(TrimStart(s))
  }

  /**
   * `TrimStart` drops exactly the leading white space: what remains is a
   * suffix that does not start with white space, and it is empty exactly when
   * the text is all white space.
   */
  lemma {:induction false} TrimStartSpec(s: string)
    ensures var r := TrimStart(s);
      && |r| <= |s| && r == s[|s| - |r|..]
      && (r != "" ==> !IsSpace(r[0]))
      && AllSpace(s[..|s| - |r|])
      && (r == "" <==> AllSpace(s))
  {
    if s != "" && IsSpace(s[0]) {
      TrimStartSpec(s[1..]);
      var r := TrimStart(s[1..]);
      assert s[..|s| - |r|] == [s[0]] + s[1..][..|s[1..]| - |r|];
      assert AllSpace(s[1..]) ==> AllSpace(s) by {
        if AllSpace(s[1..]) {
          forall i | 0 <= i < |s| ensures IsSpace(s[i]) {
            if i > 0 { assert s[i] == s[1..][i - 1]; }
          }
        }
      }
    }
  }

  /**
   * `TrimEnd` drops exactly the trailing white space: what remains is a prefix
   * that does not end with white space, and it is empty exactly when the text
   * is all white space.
   */
  lemma {:induction false} TrimEndSpec(s: string)
    ensures var r := TrimEnd(s);
      && |r| <= |s| && r == s[..|r|]
      && (r != "" ==> !IsSpace(r[|r| - 1]))
      && AllSpace(s[|r|..])
      && (r == "" <==> AllSpace(s))
  {
    if s != "" && IsSpace(s[|s| - 1]) {
      TrimEndSpec(s[..|s| - 1]);
      var r := TrimEnd(s[..|s| - 1]);
      assert s[|r|..] == s[..|s| - 1][|r|..] + [s[|s| - 1]];
      assert AllSpace(s[..|s| - 1]) ==> AllSpace(s) by {
        if AllSpace(s[..|s| - 1]) {
          forall i | 0 <= i < |s| ensures IsSpace(s[i]) {
            if i < |s| - 1 { assert s[i] == s[..|s| - 1][i]; }
          }
        }
      }
    }
  }

  /** `!text.trim()`: a query is blank exactly when it is all white space. */
  lemma TrimEmptyIff(s: string)
    ensures Trim(s) == "" <==> AllSpace(s)
  {
    TrimStartSpec(s);
    TrimEndSpec(TrimStart(s));
  }

  /** What the HTTP request settles to. */
  datatype SearchOutcome =
    | Response(results: Option<seq<Song>>)  // `response.data.data.results`; None when missing or not an array
    | Failed                                // the request threw

  const FetchFailed := "Failed to fetch songs. Please try again."

  class App {
    var songslist: seq<Song>
    var loading: bool
    var error: Option<string>
    var hasSearched: bool
    var currentSong: Option<Song>
    ghost var inFlight: nat  // submitted searches whose outcome has not arrived

    ghost predicate Valid()
      reads this
    {
      && (loading ==> hasSearched)
      && (inFlight > 0 ==> hasSearched)
      && (error.Some? ==> hasSearched && error.value == FetchFailed)
    }

    constructor ()
      ensures Valid()
      ensures songslist == [] && !loading && error == None && !hasSearched && currentSong == None
      ensures inFlight == 0
    {
      songslist, loading, error, hasSearched, currentSong := [], false, None, false, None;
      inFlight := 0;
    }

    /**
     * `onFormSubmit`, up to the request: a blank query changes nothing;
     * otherwise the search starts loading with no error shown.
     */
    method OnFormSubmit(text: string) returns (sent: bool)
      requires Valid()
      modifies this`loading, this`error, this`hasSearched, this`inFlight
      ensures Valid()
      ensures sent <==> !AllSpace(text)
      ensures !sent ==>
        && loading == old(loading) && error == old(error) && hasSearched == old(hasSearched)
        && inFlight == old(inFlight)
      ensures sent ==> loading && error == None && hasSearched && inFlight == old(inFlight) + 1
    {
      TrimEmptyIff(text);
      if Trim(text) == "" {
        return false;
      }
      loading, error, hasSearched := true, None, true;
      inFlight := inFlight + 1;
      sent := true;
    }

    /**
     * `onFormSubmit`, after the request settles: a non-empty result array is
     * shown as it is; a missing or empty one shows no results; a failure shows
     * the error message and no results.
     */
    method ReceiveOutcome(outcome: SearchOutcome)
      requires Valid() && inFlight > 0
      modifies this`songslist, this`loading, this`error, this`inFlight
      ensures Valid() && !loading && inFlight == old(inFlight) - 1
      ensures outcome.Response? && outcome.results.Some? && |outcome.results.value| > 0 ==>
        songslist == outcome.results.value && error == old(error)
      ensures outcome.Response? && (outcome.results.None? || outcome.results.value == []) ==>
        songslist == [] && error == old(error)
      ensures outcome.Failed? ==> songslist == [] && error == Some(FetchFailed)
    {
      inFlight := inFlight - 1;
      match outcome
      case Response(results) =>
        if results.Some? && |results.value| > 0 {
          songslist, loading := results.value, false;
        } else {
          songslist, loading := [], false;
        }
      case Failed =>
        error, loading, songslist := Some(FetchFailed), false, [];
    }

    /** `handleSongClick`: the clicked song becomes current. */
    method HandleSongClick(song: Song)
      modifies this`currentSong
      ensures currentSong == Some(song)
    {
      currentSong := Some(song);
    }

    /** `handleClosePlayer`: no song is current, so the player unmounts. */
    method HandleClosePlayer()
      modifies this`currentSong
      ensures currentSong == None
    {
      currentSong := None;
    }
  }
}
