# Music player and search state, modelled in Dafny

This project models the client-side core of a music search-and-playback web
client: the `MusicPlayer` component, which drives an `<audio>` element, and the
`App` component, which holds the search results and the selected song.

- **`MusicPlayer`** (`player.dfy`) is a class with the component's state (`isPlaying`,
  `currentTime`, `duration`, `volume`, `isMuted`, `previousVolume`,
  `hasAutoPlayed`, `hasRestoredPosition`), its instance fields `animationFrameId` and
  `lastSaveTime`, and one method per handler. Each handler is one atomic update.
  - The audio element and the animation-frame queue are host objects (`host.dfy`).
  - The play promise's two outcomes are separate events, `PlayResolved` and `PlayRejected`.
  - Wall-clock time reaches the progress loop as the `now` argument of `UpdateProgress`.
  - Calls to `onPlaybackUpdate` are recorded in the ghost sequence `reports`. The loop's reports are also timestamped in `saveTimes`.
  - The class invariant `Valid()` keeps these properties:
    - the volume/mute invariant (muted exactly at volume 0, a positive volume remembered);
    - non-negative displayed times;
    - the current frame handle is one the scheduler has issued;
    - the 2000 ms spacing of loop reports, with `lastSaveTime` equal to the last report's time (`SavesSpaced`).
- **The pure parts of the player** are functions with lemmas:
  - `formatTime` (`clock.dfy`), with a digit parser as its inverse;
  - the variant selection in `render` (`songs.dfy`): audio url, image url and artist line;
  - the volume and mute transitions (`volume.dfy`), which the class methods are proved against;
  - the report spacing (`throttle.dfy`).
- **`App`** (`search.dfy`) is a class with `songslist`, `loading`, `error`, `hasSearched`
  and `currentSong`. A submitted search is split into the submit step (`OnFormSubmit`)
  and the arrival of its outcome (`ReceiveOutcome`). The outcome is a non-empty
  result array, a missing or empty one, or a failure.
  - `String.prototype.trim` is modelled over the code points JavaScript treats as white space.

JavaScript's falsy values are mapped as follows:
- A missing id, url or name is `""`.
- A missing array is `[]`.
- A `null` animation-frame handle is `0`; real handles are positive.
- The `onPlaybackUpdate` callback is a flag, `reportsPosition`.
- The `savedPlaybackTime` prop is a `real` that is `0` when absent.
- `App` renders the player with only `song` and `onClose` (src/App.js:98-101). So in this application `reportsPosition` is false and `savedPlaybackTime` is 0.

## Model

| member | source | states |
|---|---|---|
| Songs.TrackId | src/component/MusicPlayer.js:45-46 | identity is `id`, falling back to `song_id`; empty exactly when neither is present |
| Songs.AudioUrl | src/component/MusicPlayer.js:232-233 | the last (highest-quality) `downloadUrl` url when present, else the first entry's, and "" exactly when neither exists |
| Songs.ImageUrl | src/component/MusicPlayer.js:236 | `image[1]`'s url when present, else `image[0]`'s, and "" exactly when neither exists |
| Songs.ArtistLine | src/component/MusicPlayer.js:239 | never empty; "Unknown Artist" exactly when there are no primary artists or one with an empty name, otherwise the names joined by ", " |
| Songs.JoinEmptyIff | src/component/MusicPlayer.js:239 | a join with ", " is empty iff there is no part or one empty part |
| Songs.JoinLength | src/component/MusicPlayer.js:239 | the joined line is as long as the names plus one separator per gap |
| Songs.JoinSeparator | src/component/MusicPlayer.js:239 | between neighbouring names the joined line holds exactly ", " and nothing else |
| Songs.JoinAt | src/component/MusicPlayer.js:239 | every artist name appears unchanged at its offset in the joined line |
| Clock.Trunc | src/component/MusicPlayer.js:221 | the rounding JavaScript's `%` uses: the integer toward zero, within 1 of the input on the side of 0, for both signs |
| Clock.PadStart | src/component/MusicPlayer.js:222 | `padStart`: a short string is filled on the left to the width; a long one is unchanged |
| Clock.FormatTime | src/component/MusicPlayer.js:218-223 | a NaN time is shown as "0:00" |
| Clock.NatToStringRoundTrip | src/component/MusicPlayer.js:222 | the decimal text of a number is all digits and parses back to the number |
| Clock.SplitMinutes | src/component/MusicPlayer.js:220-221 | for t >= 0, minutes*60 + seconds = floor(t) with 0 <= seconds < 60 |
| Clock.TwoDigits | src/component/MusicPlayer.js:222 | a seconds value below 60, padded to two with '0', is exactly two digits that read back as the value |
| Clock.ShowFields | src/component/MusicPlayer.js:222 | the `${minutes}:${seconds}` text of whole minutes and seconds below 60 splits at its third-last character, a ':', into both numbers |
| Clock.FormatTimeFields | src/component/MusicPlayer.js:218-223 | for t >= 0 the text is digits, ':' and exactly two digits; the seconds are below 60 and minutes*60 + seconds = floor(t) |
| Clock.FormatTimeNegative | src/component/MusicPlayer.js:220-222 | below zero the minutes floor but the seconds keep the input's sign: -30 s shows as "-1:-30" |
| Volume.Change | src/component/MusicPlayer.js:169-180 | the slider value becomes the volume, muted iff it is 0; a positive value is remembered even while muted; validity is preserved for values in [0,1] |
| Volume.ToggleMute | src/component/MusicPlayer.js:182-203 | toggles muted; muting remembers the volume and sets 0; unmuting restores the remembered volume, or 1 when the remembered volume is 0; validity is preserved |
| Volume.MuteThenUnmute | src/component/MusicPlayer.js:182-203 | muting then unmuting from a valid unmuted state restores exactly the previous volume |
| Volume.RunKeepsValid | src/component/MusicPlayer.js:169-203 | any sequence of slider moves in [0,1] and mute toggles preserves muted <=> volume = 0 and a positive remembered volume |
| Volume.SessionKeepsValid | src/component/MusicPlayer.js:10-12 | starting from volume 1, not muted, remembered 1, every session of volume actions stays valid |
| Throttle.AppendDue | src/component/MusicPlayer.js:99-101 | a report made when more than 2000 ms have passed keeps the report times spaced |
| Throttle.SpacedApart | src/component/MusicPlayer.js:97-102 | any two loop reports i < j are more than 2000*(j-i) ms apart, so no 2-second window holds two |
| Host.Audio.Load | src/component/MusicPlayer.js:57 | `audio.load()` restarts the source at position 0 with unknown duration |
| Host.Audio.Play | src/component/MusicPlayer.js:111 | `audio.play()` leaves one more promise to settle |
| Host.Audio.Settle | src/component/MusicPlayer.js:113-121 | a play promise settles |
| Host.FrameScheduler.Request | src/component/MusicPlayer.js:104 | `requestAnimationFrame` queues a fresh positive handle |
| Host.FrameScheduler.Cancel | src/component/MusicPlayer.js:39 | `cancelAnimationFrame` removes exactly that handle from the queue |
| Player.MusicPlayer.constructor | src/component/MusicPlayer.js:4-29 | the initial state: stopped, times 0, volume 1 unmuted, remembered volume 1, guard flags false, no frame handle, `lastSaveTime` 0 |
| Player.MusicPlayer.CancelFrame | src/component/MusicPlayer.js:38-40 | the last requested frame is no longer queued |
| Player.MusicPlayer.ReceiveSong | src/component/MusicPlayer.js:43-67 | a new non-empty identity cancels the loop, reloads the source and resets currentTime, duration, isPlaying, hasAutoPlayed and hasRestoredPosition, leaving volume, isMuted and previousVolume alone; the same or an empty identity changes nothing |
| Player.MusicPlayer.Reload | src/component/MusicPlayer.js:55-65 | the element restarts at 0 with unknown duration; currentTime, duration, isPlaying and both guard flags are reset and the volume fields are untouched |
| Player.MusicPlayer.PlayAudio | src/component/MusicPlayer.js:108-124 | a play attempt is made when the element exists; nothing else changes |
| Player.MusicPlayer.HandleCanPlay | src/component/MusicPlayer.js:69-86 | a positive saved position is applied only once per track; auto-play is attempted only when not yet attempted, and the flag is then set; with both flags set nothing changes; `isPlaying` is untouched |
| Player.MusicPlayer.RestorePosition | src/component/MusicPlayer.js:72-79 | the element and the displayed time jump to a positive saved position only when it has not yet been restored for this track and the element exists, and the flag is then set |
| Player.MusicPlayer.PlayResolved | src/component/MusicPlayer.js:114-117 | the only transition that sets `isPlaying` (not after unmount), and it queues a new frame |
| Player.MusicPlayer.ScheduleFrame | src/component/MusicPlayer.js:104 | the loop's handle is a fresh one the scheduler had not queued, and exactly that handle is added |
| Player.MusicPlayer.PlayRejected | src/component/MusicPlayer.js:118-121 | a rejected attempt leaves `isPlaying` false and queues no frame |
| Player.MusicPlayer.PauseAudio | src/component/MusicPlayer.js:126-140 | stops, cancels the loop and reports the element's position only when it is positive |
| Player.MusicPlayer.ReportPositive | src/component/MusicPlayer.js:136-138 | `onPlaybackUpdate` receives the position exactly when the callback is given and the position is positive |
| Player.MusicPlayer.TogglePlayPause | src/component/MusicPlayer.js:142-148 | pauses exactly when playing, otherwise makes a play attempt without setting `isPlaying` |
| Player.MusicPlayer.HandleTimeUpdate | src/component/MusicPlayer.js:150-158 | copies the element's time and its duration (NaN as 0) |
| Player.MusicPlayer.UpdateProgress | src/component/MusicPlayer.js:88-106 | while playing, copies the clock, reports only when more than 2000 ms since the last report (then and only then updating `lastSaveTime`) and requeues itself; otherwise it ends and changes nothing |
| Player.MusicPlayer.Sample | src/component/MusicPlayer.js:90-105 | one running frame copies the element's time and duration (NaN as 0), reports under the throttle and queues exactly one new frame |
| Player.MusicPlayer.SaveIfDue | src/component/MusicPlayer.js:97-102 | a report and a new `lastSaveTime` happen together, exactly when the callback is given and more than 2000 ms have passed; the spacing invariant is kept |
| Player.MusicPlayer.HandleSeek | src/component/MusicPlayer.js:160-167 | both clocks move to the slider position; nothing is reported |
| Player.MusicPlayer.HandleVolumeChange | src/component/MusicPlayer.js:169-180 | the volume fields follow `Volume.Change` and the element's volume is the slider value |
| Player.MusicPlayer.ToggleMute | src/component/MusicPlayer.js:182-203 | the volume fields follow `Volume.ToggleMute` and the element's volume matches |
| Player.MusicPlayer.OnEnded | src/component/MusicPlayer.js:247-256 | cancels the loop, reports exactly 0, sets currentTime 0 and isPlaying false |
| Player.MusicPlayer.HandleClose | src/component/MusicPlayer.js:205-216 | reports the displayed position if positive, then the element's position if positive (up to two reports), stops, cancels the loop and calls `onClose` once |
| Player.MusicPlayer.WillUnmount | src/component/MusicPlayer.js:31-41 | reports the displayed position only when positive and cancels the loop |
| Player.TwoLoops | src/component/MusicPlayer.js:81-85 | an auto-play attempt and a click on play made before it settles both resolve: the player is playing with two loops queued, handles 1 and 2, and keeps only handle 2 |
| Player.PlayingWithReports | src/component/MusicPlayer.js:81-85 | with `onPlaybackUpdate` given, can-play and the resolved auto-play leave the player playing with frame 1 queued and nothing reported yet |
| Player.ThrottledTicks | src/component/MusicPlayer.js:97-102 | of two frames 1000 ms apart, the first (more than 2000 ms after `lastSaveTime` 0) reports and sets `lastSaveTime`; the second only copies the element's time |
| Player.OverlappingPlays | src/component/MusicPlayer.js:108-124 | two play attempts settling one after the other queue two loops; a pause cancels only the second, and the first ends on its next frame |
| Search.TrimStartSpec | src/App.js:22 | the leading trim keeps a suffix that does not start with white space, drops only white space, and is empty exactly when the text is all white space |
| Search.TrimEndSpec | src/App.js:22 | the trailing trim keeps a prefix that does not end with white space, drops only white space, and is empty exactly when the text is all white space |
| Search.TrimEmptyIff | src/App.js:22 | a query trims to "" exactly when it is all white space |
| Search.App.constructor | src/App.js:10-19 | no results, not loading, no error, not searched, no current song |
| Search.App.OnFormSubmit | src/App.js:21-26 | a blank query changes nothing; otherwise loading is true, error is null and hasSearched is true, with the results and current song untouched |
| Search.App.ReceiveOutcome | src/App.js:28-51 | a non-empty result array is stored as it is; a missing or empty one stores []; both keep the error; a failure stores [] and the fixed message; loading ends in every case; current song and hasSearched are untouched |
| Search.App.HandleSongClick | src/App.js:54-56 | the clicked song becomes current; nothing else changes |
| Search.App.HandleClosePlayer | src/App.js:58-60 | no song is current; nothing else changes |

## Left out

- Rendering is not modelled: JSX, the SVG icons, the volume-icon thresholds (src/component/MusicPlayer.js:241-355) and the App layout (src/App.js:62-104).
- The HTTP request to the search endpoint is not modelled (src/App.js:29-31). Its settled outcome is the argument of `ReceiveOutcome`.
- A `results` value that is not an array but has a positive `length` is not modelled. It is treated like a missing array.
- Host internals are not modelled:
  - decoding, when events fire, and the element's `paused` flag;
  - `pause()` or `load()` rejecting a pending play promise (the rejection still arrives as a `PlayRejected` event);
  - the clamping of `currentTime` to the duration.
- `Date.now()` is not modelled. It is the `now` argument of `UpdateProgress`.
- React's `setState` batching and lifecycle scheduling are not modelled. Each handler is one atomic update. A `setState` after unmount is dropped.
- Numbers are `real`, and NaN appears only as a `Clock.Num` case: a not-yet-known duration or a `formatTime` input. The model leaves out:
  - `parseFloat` on the slider values;
  - IEEE rounding;
  - infinite durations.
- The `onPlaybackUpdate` and `savedPlaybackTime` props are fixed when the player is built. A later change to them is not modelled.
- componentDidMount is folded into the constructor. Its missing-element branch is not modelled.
- src/component/SearchBar.js, src/component/SongList.js and src/component/Song.js are not part of this model. They hold form plumbing, a pure map to cards, and a redirect to a fixed `downloadUrl[2]`.
- A persisted playback snapshot, auto-resume on startup and a file download have no code in src/App.js or src/component/MusicPlayer.js, so they are not modelled.
- Player.MusicPlayer.PlayAudio: assumes `audio.play()` always returns a promise, as current browsers do. The branch where it returns `undefined` (src/component/MusicPlayer.js:112) is not modelled; there the player would never set `isPlaying` or start the loop.

## Where the model follows the code

- The volume handler remembers any positive slider value even while muted (src/component/MusicPlayer.js:177), not only while unmuted. `Volume.Change` states that rule.
- Pause, close and unmount report a position only when it is positive (src/component/MusicPlayer.js:33, 136, 207). `ReportPositive` states that guard.
