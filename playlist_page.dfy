/**
 * The playlist page of the web client: the component's state fields and the
 * event handlers that change them. The page is a class whose fields are the
 * component's `useState` slots; each handler is a method. Network calls,
 * `window.confirm` and the signed-in user are inputs, not behaviour.
 */
module PlaylistPage {
  import opened Wrappers
  import opened JsText

  /** The placeholder title of an unnamed playlist ("no title"). */
  const UNTITLED: string := "제목 없음"
  /** The error shown when nobody is signed in. */
  const NOT_LOGGED_IN: string := "User not logged in"
  /** The error shown when loading failed without a message. */
  const LOAD_ERROR: string := "Error loading playlist"
  /** The image shown for a track without album art. */
  const EMPTY_ALBUM_ART: string := "images/emptyalbumart.png"
  /** Where the page navigates after a successful delete. */
  const CREATE_ROUTE: string := "/create"

  datatype Track = Track(spotifyId: string, title: string, artist: string, albumArt: Option<string>)

  /** A playlist as the server returns it; `playlistId` is absent for a draft. */
  datatype PlaylistData = PlaylistData(playlistId: Option<int>, title: Option<string>, tracks: seq<Track>)

  datatype User = User(id: int)

  /** What the load effect's `GET /myplaylist/:userId` produced. */
  datatype FetchOutcome =
    | Fetched(playlist: Option<PlaylistData>)
    | FetchFailed(message: string)

  /** What `POST /save-playlist` produced: the response body, or a thrown error. */
  datatype SaveOutcome =
    | SaveSucceeded(response: Option<PlaylistData>)
    | SaveFailed

  /** The body of `POST /save-playlist`. */
  datatype SaveRequest = SaveRequest(title: string, userId: int, tracks: seq<Track>)

  /** What the delete handler does, beyond the component state it leaves alone. */
  datatype DeleteEffect =
    | MissingId   // logs an error and returns
    | Declined    // the confirmation was refused
    | Deleted     // DELETE sent and succeeded: alert, then navigate to CREATE_ROUTE
    | DeleteFailed  // DELETE sent and failed: alert

  /** Every state field of the component, as one value. */
  datatype PageState = PageState(
    playlist: Option<PlaylistData>,
    loading: bool,
    error: Option<string>,
    showShareOptions: bool,
    playlistName: string,
    showSavePopup: bool,
    isPlaylistSaved: bool,
    untitledCount: nat,
    isSaving: bool,
    currentTrackUri: Option<string>,
    isPlaying: bool)

  const INITIAL: PageState :=
    PageState(None, true, None, false, "", false, false, 0, false, None, false)

  /** The `a || ''` of a playlist title: absent and empty both give the empty name. */
  function TitleOrEmpty(title: Option<string>): string {
    match title
    case Some(t) => t
    case None => ""
  }

  /** A playlist id is truthy unless it is absent or zero. */
  function IdTruthy(id: Option<int>): (r: bool)
    ensures r <==> id != None && id != Some(0)
  {
    id.Some? && id.value != 0
  }

  // ---------------------------------------------------------------------------
  // Playback: the current track and the play/pause flag.

  datatype Playback = Playback(currentTrackUri: Option<string>, isPlaying: bool)

  /**
   * Pressing a track's play button: the current track toggles between playing
   * and paused; any other track becomes current and starts playing.
   */
  function Play(p: Playback, spotifyId: string): (r: Playback)
    ensures r.currentTrackUri == Some(spotifyId)
    ensures p.currentTrackUri == Some(spotifyId) ==> r.isPlaying == !p.isPlaying
    ensures p.currentTrackUri != Some(spotifyId) ==> r.isPlaying
  {
    if p.currentTrackUri == Some(spotifyId) then p.(isPlaying := !p.isPlaying)
    else Playback(Some(spotifyId), true)
  }

  /** Whether a track's button shows the pause icon rather than the play icon. */
  function ShowsPause(p: Playback, spotifyId: string): (r: bool)
    ensures r ==> p.currentTrackUri == Some(spotifyId)
    ensures !p.isPlaying ==> !r
  {
    p.currentTrackUri == Some(spotifyId) && p.isPlaying
  }

  /** Nothing plays without a current track. */
  predicate Coherent(p: Playback) {
    p.isPlaying ==> p.currentTrackUri.Some?
  }

  /** A run of button presses, oldest first. */
  function PlayAll(p: Playback, presses: seq<string>): Playback {
    if presses == [] then p
    else Play(PlayAll(p, presses[..|presses| - 1]), presses[|presses| - 1])
  }

  /**
   * After any presses, nothing plays without a current track and the last
   * track pressed is the current one. That at most one track shows the pause
   * icon holds of every playback state, since there is one current track; it
   * is stated here for the states the presses reach.
   */
  lemma PlayAllCoherent(p: Playback, presses: seq<string>)
    requires Coherent(p)
    ensures Coherent(PlayAll(p, presses))
    ensures presses != [] ==> PlayAll(p, presses).currentTrackUri == Some(presses[|presses| - 1])
    ensures forall a, b :: ShowsPause(PlayAll(p, presses), a) && ShowsPause(PlayAll(p, presses), b) ==> a == b
  {
  }

  /** Pressing a track's button flips its own icon and shows the play icon on every other track. */
  lemma PlayFlipsIcon(p: Playback, spotifyId: string, other: string)
    requires other != spotifyId
    ensures ShowsPause(Play(p, spotifyId), spotifyId) == !ShowsPause(p, spotifyId)
    ensures !ShowsPause(Play(p, spotifyId), other)
  {
  }

  /** Pressing the current track twice gives back the same playback state. */
  lemma PlayTwiceRestores(p: Playback, spotifyId: string)
    requires p.currentTrackUri == Some(spotifyId)
    ensures Play(Play(p, spotifyId), spotifyId) == p
  {
  }

  /** Pressing a different track twice leaves it current and paused. */
  lemma PlayOtherTwicePauses(p: Playback, spotifyId: string)
    requires p.currentTrackUri != Some(spotifyId)
    ensures Play(Play(p, spotifyId), spotifyId) == Playback(Some(spotifyId), false)
  {
  }

  /** The album cover source: the track's art, or the placeholder image when it is absent or empty. */
  function AlbumArtSrc(t: Track): (src: string)
    ensures src != ""
    ensures t.albumArt.Some? && t.albumArt.value != "" ==> src == t.albumArt.value
    ensures t.albumArt.None? || t.albumArt.value == "" ==> src == EMPTY_ALBUM_ART
  {
    match t.albumArt
    case Some(a) => if a != "" then a else EMPTY_ALBUM_ART
    case None => EMPTY_ALBUM_ART
  }

  // ---------------------------------------------------------------------------
  // The title a save sends, and the counter of unnamed saves.

  datatype TitleChoice = TitleChoice(title: string, untitledCount: nat)

  /** The placeholder followed by a space and a number. */
  function NumberedUntitled(n: nat): string {
    UNTITLED + " " + Decimal(n)
  }

  /** A name that is blank once trimmed, or that starts with the placeholder, gets a number. */
  predicate NeedsNumber(name: string) {
    Trim(name) == [] || StartsWith(Trim(name), UNTITLED)
  }

  /**
   * The title a save sends and the counter afterwards: a name that needs a
   * number becomes the placeholder numbered with the bumped counter; any other
   * name is sent trimmed and leaves the counter alone.
   */
  function ChooseTitle(playlistName: string, untitledCount: nat): (r: TitleChoice)
    ensures NeedsNumber(playlistName) ==>
      r == TitleChoice(NumberedUntitled(untitledCount + 1), untitledCount + 1)
    ensures !NeedsNumber(playlistName) ==>
      r == TitleChoice(Trim(playlistName), untitledCount)
  {
    var trimmed := Trim(playlistName);
    var title := if trimmed != [] then trimmed else UNTITLED;
    assert StartsWith(UNTITLED, UNTITLED);
    if StartsWith(title, UNTITLED) then
      TitleChoice(UNTITLED + " " + Decimal(untitledCount + 1), untitledCount + 1)
    else
      TitleChoice(title, untitledCount)
  }

  lemma NumberedUntitledInjective(m: nat, n: nat)
    ensures NumberedUntitled(m) == NumberedUntitled(n) ==> m == n
  {
    var p := UNTITLED + " ";
    if NumberedUntitled(m) == NumberedUntitled(n) {
      assert NumberedUntitled(m)[|p|..] == Decimal(m);
      assert NumberedUntitled(n)[|p|..] == Decimal(n);
      DecimalInjective(m, n);
    }
  }

  lemma NumberedUntitledIsTrimmed(n: nat)
    ensures Trim(NumberedUntitled(n)) == NumberedUntitled(n)
    ensures StartsWith(NumberedUntitled(n), UNTITLED)
  {
    var s := NumberedUntitled(n);
    assert s[0] == UNTITLED[0];
    assert s[|s| - 1] == Decimal(n)[|Decimal(n)| - 1];
    assert [] + s + [] == s;
    TrimOfPadded([], s, []);
    assert s[..|UNTITLED|] == UNTITLED;
  }

  /** The title sent is never blank and has no surrounding whitespace. */
  lemma ChosenTitleIsTrimmed(playlistName: string, untitledCount: nat)
    ensures var r := ChooseTitle(playlistName, untitledCount);
      r.title != [] && Trim(r.title) == r.title
  {
    if NeedsNumber(playlistName) {
      NumberedUntitledIsTrimmed(untitledCount + 1);
    } else {
      TrimIdempotent(playlistName);
    }
  }

  /**
   * Saving the title that a save sent needs a number exactly when the first
   * name did: a renamed playlist keeps its name, a numbered one is renumbered.
   */
  lemma ChosenTitleNeedsNumberAgain(playlistName: string, untitledCount: nat)
    ensures NeedsNumber(ChooseTitle(playlistName, untitledCount).title) == NeedsNumber(playlistName)
  {
    if NeedsNumber(playlistName) {
      NumberedUntitledIsTrimmed(untitledCount + 1);
    } else {
      TrimIdempotent(playlistName);
    }
  }

  /** Two unnamed saves in one visit to the page send two different titles. */
  lemma SuccessiveUntitledDistinct(first: string, second: string, untitledCount: nat)
    requires NeedsNumber(first) && NeedsNumber(second)
    ensures var a := ChooseTitle(first, untitledCount);
      var b := ChooseTitle(second, a.untitledCount);
      a.title != b.title && b.untitledCount == untitledCount + 2
  {
    NumberedUntitledInjective(untitledCount + 1, untitledCount + 2);
  }

  // ---------------------------------------------------------------------------
  // The component.

  class Page {
    /** The signed-in user, read from the global store; fixed for the page's life. */
    const user: Option<User>

    var playlist: Option<PlaylistData>
    var loading: bool
    var error: Option<string>
    var showShareOptions: bool
    var playlistName: string
    var showSavePopup: bool
    var isPlaylistSaved: bool
    var untitledCount: nat
    var isSaving: bool
    var currentTrackUri: Option<string>
    var isPlaying: bool

    function State(): PageState
      reads this
    {
      PageState(playlist, loading, error, showShareOptions, playlistName, showSavePopup,
                isPlaylistSaved, untitledCount, isSaving, currentTrackUri, isPlaying)
    }

    function NowPlaying(): Playback
      reads this
    {
      Playback(currentTrackUri, isPlaying)
    }

    /** The component's invariant: nothing plays without a current track. */
    ghost predicate Valid()
      reads this
    {
      Coherent(NowPlaying())
    }

    /** Mounting the component: every field at its `useState` initial value. */
    constructor (user: Option<User>)
      ensures Valid() && this.user == user && State() == INITIAL
    {
      this.user := user;
      playlist, loading, error := None, true, None;
      showShareOptions, playlistName, showSavePopup := false, "", false;
      isPlaylistSaved, untitledCount, isSaving := false, 0, false;
      currentTrackUri, isPlaying := None, false;
    }

    /**
     * The load effect. Without a user it reports the sign-in error. With a
     * playlist handed over by navigation it shows that one; otherwise it asks
     * the server for the user's playlist (`requested` is the user id it asks
     * with) and shows the answer or the error. Loading ends in every case.
     */
    method Load(routed: Option<PlaylistData>, fetched: FetchOutcome) returns (requested: Option<int>)
      requires Valid()
      modifies this
      ensures Valid() && !loading
      ensures requested == if user.Some? && routed.None? then Some(user.value.id) else None
      ensures user.None? ==>
        State() == old(State()).(loading := false, error := Some(NOT_LOGGED_IN))
      ensures user.Some? && routed.Some? ==>
        State() == old(State()).(loading := false, playlist := routed,
                                 playlistName := TitleOrEmpty(routed.value.title))
      ensures user.Some? && routed.None? && fetched.Fetched? ==>
        State() == old(State()).(loading := false, playlist := fetched.playlist,
                                 playlistName := if fetched.playlist.Some? then TitleOrEmpty(fetched.playlist.value.title) else "")
      ensures user.Some? && routed.None? && fetched.FetchFailed? ==>
        State() == old(State()).(loading := false,
                                 error := Some(if fetched.message != "" then fetched.message else LOAD_ERROR))
    {
      requested := None;
      if user.Some? {
        if routed.Some? {
          playlist := routed;
          playlistName := TitleOrEmpty(routed.value.title);
          loading := false;
        } else {
          requested := Some(user.value.id);
          match fetched {
            case Fetched(data) =>
              playlist := data;
              playlistName := if data.Some? then TitleOrEmpty(data.value.title) else "";
              loading := false;
            case FetchFailed(message) =>
              error := Some(if message != "" then message else LOAD_ERROR);
              loading := false;
          }
        }
      } else {
        loading := false;
        error := Some(NOT_LOGGED_IN);
      }
    }

    /** A track's play button: see `Play`; nothing else changes. */
    method SongPlay(track: Track)
      requires Valid()
      modifies this
      ensures Valid()
      ensures NowPlaying() == Play(old(NowPlaying()), track.spotifyId)
      ensures State() == old(State()).(currentTrackUri := currentTrackUri, isPlaying := isPlaying)
    {
      if currentTrackUri == Some(track.spotifyId) {
        isPlaying := !isPlaying;
      } else {
        currentTrackUri := Some(track.spotifyId);
        isPlaying := true;
      }
    }

    /** The save button opens the name popup and does nothing else. */
    method OpenSavePopup()
      requires Valid()
      modifies this
      ensures Valid() && State() == old(State()).(showSavePopup := true)
    {
      showSavePopup := true;
    }

    /** The cancel button closes the name popup and does nothing else. */
    method ClosePopup()
      requires Valid()
      modifies this
      ensures Valid() && State() == old(State()).(showSavePopup := false)
    {
      showSavePopup := false;
    }

    /** Typing in the name popup. */
    method ChangeName(value: string)
      requires Valid()
      modifies this
      ensures Valid() && State() == old(State()).(playlistName := value)
    {
      playlistName := value;
    }

    /**
     * The share button: an unsaved playlist only raises an alert (`alerted`);
     * a saved one toggles the share options.
     */
    method ShareClick() returns (alerted: bool)
      requires Valid()
      modifies this
      ensures Valid()
      ensures alerted == !isPlaylistSaved
      ensures alerted ==> State() == old(State())
      ensures !alerted ==> State() == old(State()).(showShareOptions := !old(showShareOptions))
    {
      if !isPlaylistSaved {
        alerted := true;
      } else {
        alerted := false;
        showShareOptions := !showShareOptions;
      }
    }

    /**
     * The delete button, given the playlist's id, the answer to the
     * confirmation dialog and whether the server accepted the DELETE. It
     * changes no state of the page; a request is sent only for a truthy id
     * that the user confirmed.
     */
    method DeletePlaylist(playlistId: Option<int>, confirmed: bool, serverOk: bool) returns (effect: DeleteEffect)
      ensures effect == MissingId <==> !IdTruthy(playlistId)
      ensures (effect.Deleted? || effect.DeleteFailed?) <==> IdTruthy(playlistId) && confirmed
      ensures effect == Deleted <==> IdTruthy(playlistId) && confirmed && serverOk
    {
      if !IdTruthy(playlistId) {
        return MissingId;
      }
      if confirmed {
        if serverOk {
          effect := Deleted;
        } else {
          effect := DeleteFailed;
        }
      } else {
        effect := Declined;
      }
    }

    /**
     * The first half of saving a name, up to the request: the save button is
     * disabled, the title is chosen and the counter of unnamed saves moves on.
     * Without a user or a playlist the request body cannot be built and the
     * handler stops there, leaving `isSaving` set (`request` is None).
     */
    method BeginSave() returns (request: Option<SaveRequest>)
      requires Valid()
      modifies this
      ensures Valid()
      ensures State() == old(State()).(isSaving := true,
                                       untitledCount := ChooseTitle(old(playlistName), old(untitledCount)).untitledCount)
      ensures request.Some? <==> user.Some? && playlist.Some?
      ensures request.Some? ==>
        request.value == SaveRequest(ChooseTitle(old(playlistName), old(untitledCount)).title,
                                     user.value.id, playlist.value.tracks)
    {
      var choice := ChooseTitle(playlistName, untitledCount);
      isSaving := true;
      untitledCount := choice.untitledCount;
      if user.Some? && playlist.Some? {
        request := Some(SaveRequest(choice.title, user.value.id, playlist.value.tracks));
      } else {
        request := None;
      }
    }

    /**
     * The second half: on success the playlist is saved, replaced by the
     * response and the popup closes; on failure the popup stays open and the
     * saved flag is kept. Either way the save button is enabled again.
     */
    method CompleteSave(outcome: SaveOutcome)
      requires Valid()
      modifies this
      ensures Valid() && !isSaving
      ensures outcome.SaveSucceeded? ==>
        State() == old(State()).(isSaving := false, isPlaylistSaved := true,
                                 playlist := outcome.response, showSavePopup := false)
      ensures outcome.SaveFailed? ==> State() == old(State()).(isSaving := false)
    {
      match outcome {
        case SaveSucceeded(response) =>
          isPlaylistSaved := true;
          playlist := response;
          showSavePopup := false;
        case SaveFailed =>
      }
      isSaving := false;
    }

    /** The popup's save button: `BeginSave`, then, if a request went out, `CompleteSave`. */
    method SavePlaylistName(outcome: SaveOutcome) returns (request: Option<SaveRequest>)
      requires Valid()
      modifies this
      ensures Valid()
      ensures request.Some? <==> user.Some? && old(playlist).Some?
      ensures request.Some? ==>
        request.value == SaveRequest(ChooseTitle(old(playlistName), old(untitledCount)).title,
                                     user.value.id, old(playlist).value.tracks)
      ensures request.None? ==>
        State() == old(State()).(isSaving := true,
                                 untitledCount := ChooseTitle(old(playlistName), old(untitledCount)).untitledCount)
      ensures request.Some? && outcome.SaveSucceeded? ==>
        State() == old(State()).(untitledCount := ChooseTitle(old(playlistName), old(untitledCount)).untitledCount,
                                 isSaving := false, isPlaylistSaved := true,
                                 playlist := outcome.response, showSavePopup := false)
      ensures request.Some? && outcome.SaveFailed? ==>
        State() == old(State()).(untitledCount := ChooseTitle(old(playlistName), old(untitledCount)).untitledCount,
                                 isSaving := false)
    {
      request := BeginSave();
      if request.Some? {
        CompleteSave(outcome);
      }
    }
  }
}
