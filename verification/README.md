# Player page transport: a Dafny model

This project models the playback core of the music web application's
player page:

- `Player` (site-web/src/assets/js/player.js) is the playback engine. It
  holds an ordered list of `{id, src}` entries, the id of the current song
  (`currentIndex` is an id, not a position), a shuffle flag and one audio
  element.
- `PlayListManager` (site-web/src/assets/js/playlist.js) is the transport
  controller. It drives a `Player`, keeps the play, mute and shuffle buttons
  and the timeline in step with it, and routes page events and keyboard
  shortcuts to its methods.

Layout:

- `wrappers.dfy` has the `Option` type.
- `decimal.dfy` has the decimal text JavaScript writes when it concatenates
  an integer to a string. It proves that the text determines the number.
- `media.dfy` is the part of the HTML audio element the core touches:
  `src`, `paused`, `muted`, `volume`, `currentTime` and `duration`.
  `duration == None` stands for NaN.
- `player.dfy` (module `Playback`) holds the `Player` class.
- `playlist.dfy` (module `PlaylistPage`) holds the `PlayListManager` class
  and the start-up sequence of the page.

How the model is specified:

- Each class has a `State()` function that returns its abstract value:
  `PlayerState` for a player, `View` for a manager.
- Every method that changes state ensures that the new `State()` equals a
  specification function of the old one, such as `Played`, `Stepped` or
  `AfterMuteToggle`.
- The lemmas then state what the source promises about those functions.

How the helpers and unseen parts are modelled:

- `utils.random(0, n)` is an arbitrary position `pick` in `[0, n)`. The
  navigation methods ensure that some pick explains the new state.
- `utils.modulo` is Euclidean modulo, Dafny's `%`.
- `formatTime`, `SKIP_TIME` and `SHORTCUTS` are parameters of the manager.
  utils.js and consts.js are not part of this model.
- Where the source throws a `TypeError`, the methods return `ok == false`
  and leave the state as it was. This covers `songsInPlayList[0]` on an
  empty input, and `[randomIndex]` or `[newIndex]` on an empty list.
- Assigning `undefined` to `audio.src` stores the text `"undefined"`.

What the code does at its edges, and the model with it:

- `loadSongs` appends to the list that is already there (player.js:16-19).
- An empty input runs the loop zero times and then throws on
  `songsInPlayList[0]` (player.js:20). Nothing has changed by then.
- A lookup miss yields `undefined` (player.js:29-35). `playAudio` then
  assigns it to `src` (player.js:51).
- `audioSeek` takes any value as "the percentage of the total duration"
  (player.js:96) and checks no range (player.js:98-101).
- The `currentSong` getter indexes the list by id; see Findings.

## Model

| member | source | states |
|---|---|---|
| Playback.Player.constructor | site-web/src/assets/js/player.js:4-9 | a fresh audio element, current id 0, an empty list, shuffle off |
| Playback.Player.LoadSongs | site-web/src/assets/js/player.js:15-21 | the loop appends `EntriesOf(ids)` after the existing entries and makes the first id current; `ok` is false (the source throws) exactly on an empty input |
| Playback.LoadedAppends | site-web/src/assets/js/player.js:15-20 | for a non-empty input, one entry per input id, in input order, after the unchanged old entries, each with the src named after its id; the first id becomes current and is listed; entries named after their ids stay so |
| Playback.LoadedEmptyUnchanged | site-web/src/assets/js/player.js:15-20 | an empty input changes nothing |
| Playback.EntriesFollowIds | site-web/src/assets/js/player.js:16-19 | every entry built by the load has src `"./assets/media/0" + (id + 1) + "_song.mp3"` |
| Playback.SongSrcInjective | site-web/src/assets/js/player.js:17 | different ids get different media srcs |
| Decimal.NatToString | site-web/src/assets/js/player.js:17 | the text is non-empty, starts with a digit, and has one character exactly for numbers below 10 |
| Decimal.NatToStringDigits | site-web/src/assets/js/player.js:17 | every character of the text is a decimal digit |
| Decimal.IntToString | site-web/src/assets/js/player.js:17 | the text starts with `-` exactly for negative numbers |
| Decimal.NatToStringInjective | site-web/src/assets/js/player.js:17 | equal texts come from equal natural numbers |
| Decimal.IntToStringInjective | site-web/src/assets/js/player.js:17 | equal texts come from equal integers |
| Playback.Player.GetSongFromIndex | site-web/src/assets/js/player.js:28-36 | the scanning loop returns `Lookup(songsInPlayList, index)` |
| Playback.LookupFindsLastMatch | site-web/src/assets/js/player.js:28-35 | nothing exactly when no entry has the id; otherwise the src of an entry with the id after which no entry has it (the last match) |
| Playback.LookupNoneIffAbsent | site-web/src/assets/js/player.js:28-35 | the lookup fails if and only if no entry has the id |
| Playback.LookupLastMatch | site-web/src/assets/js/player.js:28-35 | a successful lookup returns the src of the last entry with the id |
| Playback.LookupFollowsId | site-web/src/assets/js/player.js:28-35 | on a list whose srcs follow their ids, a listed id yields the media src named after it |
| Playback.Player.PlayAudio | site-web/src/assets/js/player.js:43-56 | the new player state is `Played(old state, index)` |
| Playback.PlayMinusOneWhilePlayingPauses | site-web/src/assets/js/player.js:45-46 | `-1` on playing audio only pauses: the current id, src, time, list and flag are unchanged |
| Playback.PlayOtherwiseLoadsAndPlays | site-web/src/assets/js/player.js:47-54 | otherwise the audio plays, `index` is current, src is the looked-up one (or `"undefined"`), and the time is kept if the src is unchanged and 0 if not |
| Playback.PlaySameIdTwiceResumes | site-web/src/assets/js/player.js:48-53 | for an id other than -1, playing it twice in a row keeps the time and changes nothing more |
| Playback.PlayOtherIdRestarts | site-web/src/assets/js/player.js:48-53 | on a list whose srcs follow their ids, moving from the song with id i (whose src the element holds) to a different listed id j other than -1 restarts at time 0 |
| Playback.PlayedKeepsAssignedIndex | site-web/src/assets/js/player.js:87-90 | the id written before `playAudio` is current afterwards, and the list and flag are unchanged |
| Playback.FindIndex | site-web/src/assets/js/player.js:64-66 | -1 exactly when no entry has the id, else the first position holding it |
| Playback.FindIndexOfPosition | site-web/src/assets/js/player.js:82-84 | with unique ids, the id at position q is found at q |
| Playback.TargetPosition | site-web/src/assets/js/player.js:67-72 | the position moved to lies in the list, and is the drawn position when shuffling |
| Playback.Player.Step | site-web/src/assets/js/player.js:81-92 | `ok` exactly when the list is non-empty, and the new state is `Stepped(old state, forward, pick)` for some draw |
| Playback.Player.PlayPreviousSong | site-web/src/assets/js/player.js:63-74 | the same as Step, backwards |
| Playback.Player.PlayNextSong | site-web/src/assets/js/player.js:81-92 | the same as Step, forwards |
| Playback.OrderedStepPosition | site-web/src/assets/js/player.js:88-90 | with shuffle off, on a non-empty list of n entries, with p the first position of the current id or -1 when it is unlisted, next (previous) makes the id at position (p + 1) mod n ((p - 1) mod n) current, and the list and flag are unchanged |
| Playback.OrderedStepIgnoresPick | site-web/src/assets/js/player.js:70-72 | with shuffle off, the random draw plays no part |
| Playback.PreviousFromFirstWrapsToLast | site-web/src/assets/js/player.js:70-72 | with ids 0, 1, 2 and 0 current, previous makes 2 current |
| Playback.PreviousUndoesNext | site-web/src/assets/js/player.js:63-92 | with shuffle off, unique ids and the current id listed, previous after next, or next after previous, returns to the starting id |
| Playback.OneMoreNextPress | site-web/src/assets/js/player.js:88-90 | with shuffle off and unique ids, one press of next moves from position p + k - 1 to p + k, wrapping around |
| Playback.NextPressesAt | site-web/src/assets/js/player.js:88-90 | with shuffle off and unique ids, k presses of next from position p (holding the current id) land on position (p + k) mod n |
| Playback.NextPressesPosition | site-web/src/assets/js/player.js:81-92 | with shuffle off, unique ids and the current id listed, k presses of next reach the id k positions after the current one, wrapping around |
| Playback.IdAfterFullTurn | site-web/src/assets/js/player.js:89 | n positions after a listed id is that id again |
| Playback.NextCycleReturnsToStart | site-web/src/assets/js/player.js:81-92 | with shuffle off, unique ids and the current id listed, n presses of next return to the starting id |
| Playback.ShuffleStepIgnoresDirection | site-web/src/assets/js/player.js:85-87 | with shuffle on, on a non-empty list, next and previous coincide and make the id at the drawn position current |
| Playback.ShuffleCanStay | site-web/src/assets/js/player.js:85-87 | with shuffle on and the current id listed, some draw keeps the current song current |
| Playback.StepKeepsCurrentListed | site-web/src/assets/js/player.js:63-92 | on a non-empty list, next and previous always leave a listed id current |
| Playback.Player.AudioSeek | site-web/src/assets/js/player.js:98-102 | the new state is `Seeked(old state, value)`; `ok` is false (NaN time) exactly when the duration is unknown |
| Playback.SeekHalfway | site-web/src/assets/js/player.js:99 | 50 on a 200-second track seeks to 100 |
| Playback.SeekIsProportional | site-web/src/assets/js/player.js:98-101 | an unknown duration changes nothing; a percentage in [0, 100] of a positive duration lands inside the track |
| Playback.Player.MuteToggle | site-web/src/assets/js/player.js:108-111 | returns the unchanged `muted`; the new state is `MuteToggled(old state)` |
| Playback.MuteToggleFollowsMuted | site-web/src/assets/js/player.js:108-111 | the volume becomes 1 if muted and 0 if not, `muted` is unchanged, and a second call changes nothing |
| Playback.Player.ShuffleToggle | site-web/src/assets/js/player.js:117-120 | returns the negated flag; the new state is `ShuffleToggled(old state)` |
| Playback.ShuffleToggleTwice | site-web/src/assets/js/player.js:117-120 | the flag is negated, and two toggles restore the state |
| Playback.Player.ScrubTime | site-web/src/assets/js/player.js:126-128 | the new state is `Scrubbed(old state, delta)` |
| Playback.ScrubBackRestores | site-web/src/assets/js/player.js:126-128 | the time moves by exactly delta with no clamping, and scrubbing back restores the state |
| Playback.CurrentSong | site-web/src/assets/js/player.js:134-136 | as written: an entry of the list, and none exactly when the current id is not a valid position |
| Playback.CurrentSongById | site-web/src/assets/js/player.js:130-136 | the documented getter: some entry exactly when the current id is listed, and that entry has the current id |
| Playback.CurrentSongAgreesOnDenseIds | site-web/src/assets/js/player.js:134-136 | the getter as written agrees with the documented one when every id equals its position |
| Playback.CurrentSongMissesListedId | site-web/src/assets/js/player.js:134-136 | with songs 3 and 1 and 3 current, the getter as written finds nothing, while song 3 is listed |
| PlaylistPage.PlayListManager.constructor | site-web/src/assets/js/playlist.js:7-13 | the given player, an empty shortcut table |
| PlaylistPage.PlayListManager.PlayAudio | site-web/src/assets/js/playlist.js:80-85 | the new view is `AfterPlayAudio(old view, index)` |
| PlaylistPage.PlayListManager.UpdatePlayButton | site-web/src/assets/js/playlist.js:87-92 | the new view is `PlayButtonUpdated(old view)` |
| PlaylistPage.PlayListManager.PlayPreviousSong | site-web/src/assets/js/playlist.js:97-101 | the new view is `AfterStep(old view, backwards, pick)` for some draw |
| PlaylistPage.PlayListManager.PlayNextSong | site-web/src/assets/js/playlist.js:106-110 | the new view is `AfterStep(old view, forwards, pick)` for some draw |
| PlaylistPage.PlayListManager.TimelineUpdate | site-web/src/assets/js/playlist.js:131-139 | the new view is `AfterTimelineUpdate(old view, formatTime)` |
| PlaylistPage.PlayListManager.AudioSeek | site-web/src/assets/js/playlist.js:145-147 | the new view is `AfterAudioSeek(old view, value)` |
| PlaylistPage.PlayListManager.MuteToggle | site-web/src/assets/js/playlist.js:153-159 | the new view is `AfterMuteToggle(old view)` |
| PlaylistPage.PlayListManager.ShuffleToggle | site-web/src/assets/js/playlist.js:166-171 | the new view is `AfterShuffleToggle(old view)` |
| PlaylistPage.PlayListManager.ScrubTime | site-web/src/assets/js/playlist.js:177-179 | the new view is `AfterScrubTime(old view, delta)` |
| PlaylistPage.PlayListManager.BindShortcuts | site-web/src/assets/js/playlist.js:227-234 | the table becomes `ShortcutTable(old table, keys, skipTime, current id)` |
| PlaylistPage.PlayListManager.RunCommand | site-web/src/assets/js/playlist.js:229-234 | the new view is `AfterCommand(old view, command, pick)` for some draw |
| PlaylistPage.PlayListManager.KeyDown | site-web/src/assets/js/playlist.js:235-240 | an unregistered key changes nothing; a registered key runs exactly its command |
| PlaylistPage.PlayListManager.HandleEvent | site-web/src/assets/js/playlist.js:184-222 | the new view is `AfterEvent(old view, event, formatTime, pick)` for some draw |
| PlaylistPage.Startup | site-web/src/assets/js/playlist.js:244-260 | the new manager's view is the constructor's player (paused, no src, id 0, shuffle off) after loading the playlist, if there is one, next to the given page; the shortcuts were bound with id 0 before the load |
| PlaylistPage.PlayPressWhilePlayingPauses | site-web/src/assets/js/playlist.js:80-82 | a press while playing pauses whatever the index, and keeps the current id, src and time; the button shows `fa-play` |
| PlaylistPage.PlayPressWhilePausedPlays | site-web/src/assets/js/playlist.js:80-82 | a press while paused makes the index current and plays; the button shows `fa-pause` |
| PlaylistPage.PlayButtonMatchesAudio | site-web/src/assets/js/playlist.js:87-92 | after play/pause, and after next or previous on a non-empty list, the button shows `fa-play` exactly when the audio is paused |
| PlaylistPage.StepEndsPlaying | site-web/src/assets/js/playlist.js:97-110 | on a non-empty list with no listed id -1, next and previous leave the audio playing and the button on `fa-pause` |
| PlaylistPage.MuteToggleKeepsInSync | site-web/src/assets/js/playlist.js:153-159 | `muted` flips; afterwards the volume is 0 and the icon `fa-volume-mute` exactly when muted |
| PlaylistPage.MuteToggleTwice | site-web/src/assets/js/playlist.js:153-159 | two toggles restore `muted`, and restore volume and icon when they agreed with `muted` before |
| PlaylistPage.ShuffleToggleKeepsInSync | site-web/src/assets/js/playlist.js:166-171 | the button is toggled exactly when shuffle is on, and two toggles restore the player |
| PlaylistPage.TimelineUpdateWithoutDuration | site-web/src/assets/js/playlist.js:131-139 | with a NaN duration the duration label keeps its text, while the time label is rewritten |
| PlaylistPage.TimelineUpdateInRange | site-web/src/assets/js/playlist.js:131-137 | a time inside a track of positive duration shows a timeline value in [0, 100], and the duration label is written |
| PlaylistPage.SeekThenTimelineShowsValue | site-web/src/assets/js/playlist.js:131-147 | on a track whose duration is known and positive, seeking to v percent and then updating the timeline shows v again |
| PlaylistPage.ShortcutTableRoutes | site-web/src/assets/js/playlist.js:227-234 | with distinct keys, each key maps to its own command, no other key is added, and the other entries are unchanged |
| PlaylistPage.ForwardThenBackRestoresTime | site-web/src/assets/js/playlist.js:229-230 | with distinct keys, GO_FORWARD then GO_BACK restores the view |
| PlaylistPage.PlayPauseShortcutUsesStartupId | site-web/src/assets/js/playlist.js:228-231 | with distinct keys, the play/pause shortcut bound at start-up carries id 0, and when paused it plays song 0 |
| PlaylistPage.StartupPlayPausePlaysSongZero | site-web/src/assets/js/playlist.js:256-259 | with distinct keys and a non-empty playlist, right after start-up the element is paused, so the play/pause shortcut plays song 0 even when the playlist starts with another id |
| PlaylistPage.EndedIsNext | site-web/src/assets/js/playlist.js:201-218 | the `ended` event takes the same path as a click on next |
| PlaylistPage.PauseThenPlayResumes | site-web/src/assets/js/playlist.js:205-207 | when the element plays and holds the src of the current song, two presses of play pause and then resume that song at the same time |

## Left out

- The audio element's `load()` effects, src URL resolution, the promise returned by `play()`, and the timing of `timeupdate` and `ended` are not modelled. Events are explicit method calls, and `play()`/`pause()` only set `paused`.
- Floating-point behaviour is not modelled; ids are exact integers, and times, durations and volumes are exact reals. NaN appears only as an unknown duration. A timeline value that is not a finite number is `None` and is not given a value.
- The decimal text is only modelled for integer ids. JavaScript computes `id + 1` (player.js:17) in doubles, which is exact only for magnitudes below 2^53. Exponent notation from 1e21 on is not modelled either.
- Playback.SongSrcInjective: holds for exact integers only. In JavaScript `id + 1` rounds from 2^53 on, so ids 9007199254740991 and 9007199254740992 share the src `./assets/media/09007199254740992_song.mp3`.
- Playback.PlayOtherIdRestarts: rests on SongSrcInjective, so it holds only for ids below 2^53 in magnitude. Between two larger ids that share a src, `playAudio` keeps the time (player.js:52).
- `PlayListManager.loadSongs` reads storage and builds DOM elements. Only its call to `player.loadSongs` is modelled, in `PlaylistPage.Startup`.
- `buildSongItem`, `setCurrentSongName` and the registration of listeners are left out. They only build or read the DOM.
- library.js and playlist_editor.js are not part of this model. They build DOM forms and use a storage manager and `FileReader`.
- `console.log` in `audioSeek` is left out; it is output only.
- utils.js and consts.js are not part of this model. `random`, `modulo`, `formatTime`, `SKIP_TIME` and `SHORTCUTS` are abstract, as described above.
- The doc comments over `playPreviousSong` and `playNextSong` are swapped in both files. The model follows the code.
- Playback.ScrubBackRestores: holds because `currentTime` is a plain field here. A browser's audio element clamps a new time to [0, duration], and that clamping is not modelled.
- PlaylistPage.ForwardThenBackRestoresTime: holds only without the element's clamping. Less than SKIP_TIME from the end of a track, GO_FORWARD then GO_BACK does not restore the time in a browser.
- PlaylistPage.SeekThenTimelineShowsValue: holds only without the element's clamping. In a browser a value outside [0, 100] is clamped, so it does not read back.
- Playback.NextCycleReturnsToStart: stated for unique ids only, because duplicate ids make `findIndex` jump back to the first copy.

## Findings

| source | as written | input that shows it | evidently intended | confidence | as-written member | corrected member |
|---|---|---|---|---|---|---|
| site-web/src/assets/js/player.js:134-136 | `currentSong` returns `songsInPlayList[currentIndex]`, using an id as a position | a playlist of songs 3 and 1 with 3 current: the getter gives `undefined` although song 3 is listed | the entry whose id is `currentIndex`, as the comment at lines 130-133 says | not executed | Playback.CurrentSongMissesListedId | Playback.CurrentSongById |
