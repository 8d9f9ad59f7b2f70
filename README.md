# Playlist page and server configuration, modelled in Dafny

This project models two parts of a music-playlist web application.

The first part is the client's playlist page, `Playlist.jsx`. The model covers:
- the component's state fields;
- its event handlers: play/pause, the save popup, saving under a name, sharing, deleting;
- the effect that loads the playlist.

The second part is the server's start-up configuration, `config/index.js`. The model covers:
- the choice of the `.env` file;
- the configuration object with its three defaults;
- the checks that stop start-up on a missing variable or a malformed redirect URI.

Files:
- `wrappers.dfy`: `Option` and `Result`.
- `js_text.dfy` (module `JsText`): the JavaScript string operations the page uses.
  - `trim` is proved to keep exactly the text between the leading and the trailing whitespace.
  - `startsWith` is modelled.
  - The decimal text of a counter is proved to round-trip through its value.
- `playlist_page.dfy` (module `PlaylistPage`): the component.
  - Class `Page` has one field per `useState` slot and one method per handler.
  - `State()` gives all fields as one value, so each method can say what changes and that nothing else does.
  - `Valid()` is the invariant "nothing plays without a current track". Every method keeps it.
  - Pure functions specify the play toggle (`Play`) and the title chosen on save (`ChooseTitle`). The lemmas about the page are proved about these two functions.
- `server_config.dfy` (module `ServerConfig`): the configuration as pure functions.
  - `Validate` returns the configuration, or the first failing variable.

Inputs that the source takes from outside become parameters:
- the server's answers: `FetchOutcome`, `SaveOutcome`, and `serverOk` for the delete;
- the answer to `window.confirm`: `confirmed`;
- the signed-in user, as a constructor argument;
- the process environment, as a map from names to text;
- the WHATWG URL parser behind `isValidUrl`, as a predicate `isValidUrl: string -> bool`.

What the code does in the places where a reader might expect otherwise:
- The placeholder title is `제목 없음` ("no title").
- The code numbers every save whose trimmed name is blank or starts with the placeholder. The counter goes up first, so the first such save is titled `제목 없음 1` and the second `제목 없음 2`.
- The counter also goes up when the save then fails.
- The delete handler only guards against a missing or zero id. What the server does with an unknown id is not modelled.

## Model

| member | source | states |
|---|---|---|
| `JsText.Trim` | front/src/pages/playlist/Playlist.jsx:90 | `trim` leaves no whitespace at either end; the result is empty exactly when the input is all whitespace |
| `JsText.TrimOfPadded` | front/src/pages/playlist/Playlist.jsx:90 | whitespace, then a part with non-blank ends, then whitespace, trims to exactly that part |
| `JsText.TrimSplits` | front/src/pages/playlist/Playlist.jsx:90 | every string is leading whitespace, its trimmed form, and trailing whitespace |
| `JsText.TrimIdempotent` | front/src/pages/playlist/Playlist.jsx:90 | trimming twice is the same as trimming once |
| `JsText.StartsWithDecomposes` | front/src/pages/playlist/Playlist.jsx:92 | `startsWith` holds exactly when the string is the prefix followed by the rest of the string |
| `JsText.StartsWithAppend` | front/src/pages/playlist/Playlist.jsx:92 | a prefix followed by any text starts with that prefix |
| `JsText.Decimal` | front/src/pages/playlist/Playlist.jsx:94 | the rendered counter is non-empty, all digits, and has no leading zero |
| `JsText.DecimalRoundTrip` | front/src/pages/playlist/Playlist.jsx:94 | reading the rendered digits back gives the counter's value |
| `JsText.DecimalInjective` | front/src/pages/playlist/Playlist.jsx:94 | different counter values render as different texts |
| `PlaylistPage.Play` | front/src/pages/playlist/Playlist.jsx:57-64 | the pressed track is always current afterwards; pressing the current track flips play/pause; pressing any other track starts it playing |
| `PlaylistPage.ShowsPause` | front/src/pages/playlist/Playlist.jsx:168 | a track shows the pause icon only when it is the current track and playback is on |
| `PlaylistPage.PlayFlipsIcon` | front/src/pages/playlist/Playlist.jsx:57-64 | pressing a track's button flips that track's icon between play and pause, and every other track then shows the play icon |
| `PlaylistPage.PlayAllCoherent` | front/src/pages/playlist/Playlist.jsx:57-64 | over any run of presses: nothing plays without a current track, and the last pressed track is current. It also states that at most one track shows the pause icon; the representation guarantees that for every state, since there is only one current track |
| `PlaylistPage.PlayTwiceRestores` | front/src/pages/playlist/Playlist.jsx:58-59 | pressing the current track twice restores the playback state |
| `PlaylistPage.PlayOtherTwicePauses` | front/src/pages/playlist/Playlist.jsx:60-63 | pressing another track twice leaves that track current and paused |
| `PlaylistPage.AlbumArtSrc` | front/src/pages/playlist/Playlist.jsx:155 | an album cover source is never empty; it is the track's art when that is set and not empty, and the placeholder image otherwise |
| `PlaylistPage.ChooseTitle` | front/src/pages/playlist/Playlist.jsx:90-95 | a name that is blank after trimming or starts with the placeholder is sent as the placeholder numbered `count + 1`, and the counter grows by one; any other name is sent trimmed and the counter is unchanged |
| `PlaylistPage.NumberedUntitledInjective` | front/src/pages/playlist/Playlist.jsx:94 | numbered placeholder titles with different numbers are different |
| `PlaylistPage.NumberedUntitledIsTrimmed` | front/src/pages/playlist/Playlist.jsx:92-94 | a numbered placeholder title has no surrounding whitespace and starts with the placeholder |
| `PlaylistPage.ChosenTitleIsTrimmed` | front/src/pages/playlist/Playlist.jsx:90-95 | the title a save sends is never empty and has no surrounding whitespace |
| `PlaylistPage.ChosenTitleNeedsNumberAgain` | front/src/pages/playlist/Playlist.jsx:90-95 | saving a sent title again numbers it exactly when the first name was numbered: real names stay, placeholder titles get renumbered |
| `PlaylistPage.SuccessiveUntitledDistinct` | front/src/pages/playlist/Playlist.jsx:92-94 | two unnamed saves in a row send two different titles, and the counter ends two higher |
| `PlaylistPage.Page.constructor` | front/src/pages/playlist/Playlist.jsx:14-25 | a mounted page has every field at its initial value and satisfies the invariant |
| `PlaylistPage.Page.Load` | front/src/pages/playlist/Playlist.jsx:30-55 | loading always ends. With no user, only the sign-in error is set. A playlist passed in by navigation is shown with its title as the name, and no request is made. Otherwise the user's playlist is requested: the answer (or none) is shown, or the error message is set, falling back to the default message when it is empty |
| `PlaylistPage.Page.SongPlay` | front/src/pages/playlist/Playlist.jsx:57-64 | the playback state becomes `Play` of the old one; no other field changes; the invariant is kept |
| `PlaylistPage.Page.OpenSavePopup` | front/src/pages/playlist/Playlist.jsx:66-68 | opens the name popup and changes nothing else |
| `PlaylistPage.Page.ClosePopup` | front/src/pages/playlist/Playlist.jsx:137-139 | closes the name popup and changes nothing else |
| `PlaylistPage.Page.ChangeName` | front/src/pages/playlist/Playlist.jsx:125-127 | sets the typed name and changes nothing else |
| `PlaylistPage.Page.ShareClick` | front/src/pages/playlist/Playlist.jsx:129-135 | an unsaved playlist raises the alert and changes nothing; a saved one toggles the share options and changes nothing else |
| `PlaylistPage.IdTruthy` | front/src/pages/playlist/Playlist.jsx:71 | an id passes the `!playlistId` guard exactly when it is present and not zero |
| `PlaylistPage.Page.DeletePlaylist` | front/src/pages/playlist/Playlist.jsx:70-86 | changes no page state. A missing or zero id does nothing more. A request is sent exactly when the id is truthy and the user confirmed. The delete succeeds (alert, then go to `/create`) exactly when the server also accepts it |
| `PlaylistPage.Page.BeginSave` | front/src/pages/playlist/Playlist.jsx:88-101 | `isSaving` is set and the counter takes `ChooseTitle`'s value; nothing else changes. The request carries the chosen title, the user id and the playlist's tracks. Without a user or a playlist no request is built |
| `PlaylistPage.Page.CompleteSave` | front/src/pages/playlist/Playlist.jsx:103-114 | on success the playlist is marked saved, replaced by the response, and the popup closes. On failure only `isSaving` changes, so the popup stays open and the saved flag is kept. `isSaving` is false afterwards in both cases |
| `PlaylistPage.Page.SavePlaylistName` | front/src/pages/playlist/Playlist.jsx:88-115 | the whole handler. A request is sent exactly when there is a user and a playlist; it carries the title chosen by `ChooseTitle`, the user's id and the playlist's tracks. Each path is given as the whole new state: the counter always takes `ChooseTitle`'s value. With no request, `isSaving` stays set and nothing else changes. On success the playlist is marked saved, replaced by the response, and the popup closes. On failure nothing else changes. `isSaving` is false again after both |
| `ServerConfig.EnvFile` | server/src/config/index.js:5 | the file is `.env.` followed by NODE_ENV when NODE_ENV is set and not empty, and `.env` otherwise |
| `ServerConfig.BuildConfig` | server/src/config/index.js:8-25 | NODE_ENV and FRONTEND_URL use their defaults only when unset, so an empty value is kept. PORT becomes the number 8888 when unset or empty. Every other entry is copied from the environment, unset included |
| `ServerConfig.FirstWhere` | server/src/config/index.js:42-46 | the position found satisfies the test and no earlier element does; None means no element does |
| `ServerConfig.MissingAt` | server/src/config/index.js:42-46 | the required check stops at a required entry that is falsy, and every entry before it is truthy; None means every required entry is truthy |
| `ServerConfig.RejectedAt` | server/src/config/index.js:49-54 | the URL check stops at a redirect URI that is set, not empty and rejected, and no earlier one is; None means neither is |
| `ServerConfig.ErrorMessage` | server/src/config/index.js:42-54 | the missing-variable message ends with the variable's name; the invalid-URL message ends with the rejected text |
| `ServerConfig.Validate` | server/src/config/index.js:27-54 | success returns the built configuration; a missing-variable error names a required variable; an invalid-URL error names a redirect URI |
| `ServerConfig.RequiredTruthy` | server/src/config/index.js:10-23 | a required entry is truthy exactly when its variable is set and not empty, and then it holds that text |
| `ServerConfig.RequiredDistinct` | server/src/config/index.js:27-40 | no variable appears twice in the required list |
| `ServerConfig.MissingAtFirstAbsent` | server/src/config/index.js:42-46 | the required check passes exactly when every required variable is present; otherwise it stops at an absent variable, and every variable before it is present |
| `ServerConfig.RejectedAtOrder` | server/src/config/index.js:49-54 | with every required variable present, the URL check rejects Google's redirect URI first, then Spotify's, and reads their environment text |
| `ServerConfig.MissingIsFirstAbsent` | server/src/config/index.js:27-46 | validation fails on a given required variable exactly when it is unset or empty and all earlier ones are present |
| `ServerConfig.ValidateSucceedsIff` | server/src/config/index.js:27-54 | validation succeeds exactly when all required variables are present and both redirect URIs are accepted |
| `ServerConfig.SuccessCopiesRequired` | server/src/config/index.js:8-46 | after success, every required entry is the environment's non-empty text |
| `ServerConfig.InvalidUrlOrder` | server/src/config/index.js:42-54 | a URL error happens exactly when all required variables are present and some redirect URI is rejected. The error carries the rejected text. It names Google's URI exactly when that one is rejected |
| `ServerConfig.BuildConfigExceptDatabaseUrl` | server/src/config/index.js:8-25 | environments that differ only in DATABASE_URL give the same required entries |
| `ServerConfig.MissingAtReadsOnlyRequired` | server/src/config/index.js:42-46 | the required check depends only on the required entries |
| `ServerConfig.RejectedAtReadsOnlyRequired` | server/src/config/index.js:49-54 | the URL check depends only on the two redirect-URI entries |
| `ServerConfig.ValidateReadsOnlyRequired` | server/src/config/index.js:27-54 | configurations with the same required entries fail in the same way |
| `ServerConfig.DatabaseUrlNeverRequired` | server/src/config/index.js:24-46 | DATABASE_URL never affects whether start-up fails, or with which error |

## Left out

- Token refresh, the credential store, the OAuth exchange and the playlist persistence service are not part of this model. Their code (`tokenMiddlware.js`, `authController.js`, `spotifyAuth.js`, the models) is not among the files modelled.
- `server/src/app.js`, `server/src/routes/*.js` and `front/src/pages/login/Login.jsx` are not modelled. They only wire up middleware and routes, or redirect the browser.
- Rendering (JSX, CSS) is not modelled. The two exceptions are the album-art fallback (`AlbumArtSrc`) and the pause/play icon choice (`ShowsPause`).
- The commented-out `handleLatestPlaylist` is not modelled.
- The `alert`, `console` and `navigate` calls are not modelled as behaviour. They appear as the `DeleteEffect` value and the `alerted` result of `ShareClick`. The save handler's alerts are not modelled.
- React scheduling is not modelled. Each handler runs to completion, and its state updates take effect at once.
  - The save handler numbers the title from the counter value of the last render. Two saves started from the same render would send the same number. This is not modelled.
  - The load effect may run again when its dependencies change. The model lets `Load` be called at any time instead.
- The save and the delete are split at their network call. A save still in flight while other handlers run is not modelled.
- `SpotifyPlayback` can change `isPlaying` through its callback. This is not modelled. It is only shown while a track is current, so the invariant would still hold.
- PlaylistPage.Page.BeginSave: a missing user or playlist makes the source throw a TypeError outside its `try`. The model returns no request and leaves `isSaving` set. It does not model the rejected promise itself. The page never shows the popup without a playlist, so users cannot reach this path.
- PlaylistPage.ChooseTitle: the counter is an unbounded natural number. JavaScript numbers lose integer precision above 2^53 and switch to exponent notation from 10^21. Neither is modelled.
- JavaScript strings are sequences of UTF-16 code units, while the model uses Unicode scalar values. The two agree on the placeholder and on every character that `trim` removes.
- Playlist ids are modelled as integers that are falsy when absent or zero. String ids are not modelled. Every track is assumed to have a `spotify_id` string.
- A thrown error without a message is modelled as `FetchFailed("")`.
- dotenv's file loading and `process.env` are parameters. `EnvFile` takes the environment before the file is loaded, and `BuildConfig` takes it after. The WHATWG URL parsing behind `isValidUrl` is the parameter `isValidUrl`.
