/**
 * The transport controller of the player page (`PlayListManager` in
 * playlist.js). It drives a `Player` and keeps a few page elements in step
 * with it: the play button's icon, the mute button's icon, the shuffle
 * button's toggled class, the timeline input's value and the two time
 * labels. The listeners registered by `bindEvents` and the keyboard
 * shortcut table filled by `bindShortcuts` are modelled as dispatch methods.
 *
 * As in `Playback`, every method is specified by a function on `View`
 * values, and the lemmas at the end state what the source promises.
 */
module PlaylistPage {
  import opened Wrappers
  import opened Media
  import opened Playback

  /** The play button carries exactly one of `fa-play` and `fa-pause`. */
  datatype PlayIcon = FaPlay | FaPause

  /** The mute button carries exactly one of `fa-volume-high` and `fa-volume-mute`. */
  datatype MuteIcon = VolumeHigh | VolumeMute

  /**
   * The page elements the manager writes. `timeline == None` stands for a
   * value that is not a finite number (a division by an unknown or zero
   * duration).
   */
  datatype Page = Page(
    playIcon: PlayIcon,
    muteIcon: MuteIcon,
    shuffleToggled: bool,
    timeline: Option<real>,
    currentTimeText: string,
    durationText: string)

  /** The abstract value of a `PlayListManager`: its player and its page. */
  datatype View = View(player: PlayerState, page: Page)

  /** What a registered shortcut runs. */
  datatype Command = Scrub(delta: real) | PlayPause(index: int) | NextSong | PreviousSong | Mute

  /** The keys of the shortcut configuration (`SHORTCUTS`). */
  datatype ShortcutKeys = ShortcutKeys(
    goForward: string,
    goBack: string,
    playPause: string,
    nextSong: string,
    previousSong: string,
    mute: string)

  /** The events `bindEvents` listens to. */
  datatype UiEvent =
    | TimeUpdate            // the audio element's `timeupdate`
    | TimelineInput(value: real)  // `input` on the timeline, carrying its value
    | Ended                 // the audio element's `ended`
    | PlayClick
    | MuteClick
    | PreviousClick
    | NextClick
    | ShuffleClick

  ghost predicate DistinctKeys(keys: ShortcutKeys)
  {
    var ks := [keys.goForward, keys.goBack, keys.playPause, keys.nextSong, keys.previousSong, keys.mute];
    forall i, j :: 0 <= i < j < |ks| ==> ks[i] != ks[j]
  }

  /** `updatePlayButton`: `fa-play` while paused, `fa-pause` while playing. */
  function PlayButtonUpdated(v: View): View
  {
    v.(page := v.page.(playIcon := if v.player.audio.paused then FaPlay else FaPause))
  }

  /** `playAudio(index)`: a press while playing pauses (`player.playAudio(-1)`), else plays `index`. */
  function AfterPlayAudio(v: View, index: int): View
  {
    PlayButtonUpdated(v.(player := Played(v.player, if v.player.audio.paused then index else -1)))
  }

  /** `playNextSong` / `playPreviousSong`; on an empty list the player throws and the button is not updated. */
  function AfterStep(v: View, forward: bool, pick: nat): View
  {
    if |v.player.songs| == 0 then v
    else PlayButtonUpdated(v.(player := Stepped(v.player, forward, pick)))
  }

  /**
   * `timelineUpdate`: the timeline gets 100·currentTime/duration, the
   * current-time label is always rewritten, the duration label only when
   * the duration is a number.
   */
  function AfterTimelineUpdate(v: View, formatTime: real -> string): View
  {
    var a := v.player.audio;
    v.(page := v.page.(
      timeline := if a.duration.Some? && a.duration.value != 0.0 then Some(100.0 * a.currentTime / a.duration.value) else None,
      currentTimeText := formatTime(a.currentTime),
      durationText := if a.duration.Some? then formatTime(a.duration.value) else v.page.durationText))
  }

  function AfterAudioSeek(v: View, timelineValue: real): View
  {
    v.(player := Seeked(v.player, timelineValue))
  }

  /**
   * `muteToggle`: the player's toggle is called twice (its first answer
   * picks the icon), then `muted` is set to the negation of the second answer.
   */
  function AfterMuteToggle(v: View): View
  {
    var first := MuteToggled(v.player);
    var icon := if v.player.audio.muted then VolumeHigh else VolumeMute;
    var second := MuteToggled(first);
    View(second.(audio := second.audio.(muted := !first.audio.muted)), v.page.(muteIcon := icon))
  }

  /** `shuffleToggle`: the button's toggled class follows the new flag. */
  function AfterShuffleToggle(v: View): View
  {
    var p := ShuffleToggled(v.player);
    View(p, v.page.(shuffleToggled := p.shuffle))
  }

  function AfterScrubTime(v: View, delta: real): View
  {
    v.(player := Scrubbed(v.player, delta))
  }

  function AfterCommand(v: View, c: Command, pick: nat): View
  {
    match c
    case Scrub(delta) => AfterScrubTime(v, delta)
    case PlayPause(index) => AfterPlayAudio(v, index)
    case NextSong => AfterStep(v, true, pick)
    case PreviousSong => AfterStep(v, false, pick)
    case Mute => AfterMuteToggle(v)
  }

  /** The listener `bindEvents` registers for each event. */
  function AfterEvent(v: View, e: UiEvent, formatTime: real -> string, pick: nat): View
  {
    match e
    case TimeUpdate => AfterTimelineUpdate(v, formatTime)
    case TimelineInput(value) => AfterAudioSeek(v, value)
    case Ended => AfterStep(v, true, pick)
    case PlayClick => AfterPlayAudio(v, v.player.currentIndex)
    case MuteClick => AfterMuteToggle(v)
    case PreviousClick => AfterStep(v, false, pick)
    case NextClick => AfterStep(v, true, pick)
    case ShuffleClick => AfterShuffleToggle(v)
  }

  /** The table `bindShortcuts` writes into `table`, one `set` after another. */
  function ShortcutTable(table: map<string, Command>, keys: ShortcutKeys, skipTime: real, songIndex: int): map<string, Command>
  {
    table[keys.goForward := Scrub(skipTime)]
         [keys.goBack := Scrub(-skipTime)]
         [keys.playPause := PlayPause(songIndex)]
         [keys.nextSong := NextSong]
         [keys.previousSong := PreviousSong]
         [keys.mute := Mute]
  }

  class PlayListManager {
    const player: Player
    /** `formatTime` from utils.js, which is not part of this model. */
    const formatTime: real -> string
    /** `SKIP_TIME` from consts.js. */
    const skipTime: real
    /** `SHORTCUTS` from consts.js. */
    const keys: ShortcutKeys
    var shortcuts: map<string, Command>
    var page: Page

    function State(): View
      reads this, player, player.audio
    {
      View(player.State(), page)
    }

    constructor (player: Player, formatTime: real -> string, skipTime: real, keys: ShortcutKeys, page: Page)
      ensures this.player == player && this.formatTime == formatTime
      ensures this.skipTime == skipTime && this.keys == keys
      ensures shortcuts == map[] && this.page == page
    {
      this.player := player;
      this.formatTime := formatTime;
      this.skipTime := skipTime;
      this.keys := keys;
      shortcuts := map[];
      this.page := page;
    }

    method PlayAudio(index: int)
      modifies this`page, player, player.audio
      ensures State() == AfterPlayAudio(old(State()), index)
    {
      var soundPaused := player.audio.paused;
      if !soundPaused {
        player.PlayAudio(-1);
      } else {
        player.PlayAudio(index);
      }
      UpdatePlayButton();
    }

    method UpdatePlayButton()
      modifies this`page
      ensures State() == PlayButtonUpdated(old(State()))
    {
      page := page.(playIcon := if player.audio.paused then FaPlay else FaPause);
    }

    method PlayPreviousSong()
      modifies this`page, player, player.audio
      ensures exists pick: nat :: State() == AfterStep(old(State()), false, pick)
    {
      var ok := player.PlayPreviousSong();
      if !ok {
        assert State() == AfterStep(old(State()), false, 0);
        return;
      }
      ghost var pick: nat :| player.State() == Stepped(old(player.State()), false, pick);
      UpdatePlayButton();
      assert State() == AfterStep(old(State()), false, pick);
    }

    method PlayNextSong()
      modifies this`page, player, player.audio
      ensures exists pick: nat :: State() == AfterStep(old(State()), true, pick)
    {
      var ok := player.PlayNextSong();
      if !ok {
        assert State() == AfterStep(old(State()), true, 0);
        return;
      }
      ghost var pick: nat :| player.State() == Stepped(old(player.State()), true, pick);
      UpdatePlayButton();
      assert State() == AfterStep(old(State()), true, pick);
    }

    method TimelineUpdate()
      modifies this`page
      ensures State() == AfterTimelineUpdate(old(State()), formatTime)
    {
      var a := player.audio;
      var position := if a.duration.Some? && a.duration.value != 0.0 then Some(100.0 * a.currentTime / a.duration.value) else None;
      page := page.(timeline := position);
      page := page.(currentTimeText := formatTime(a.currentTime));
      if a.duration.Some? {
        page := page.(durationText := formatTime(a.duration.value));
      }
    }

    method AudioSeek(timelineValue: real)
      modifies player.audio
      ensures State() == AfterAudioSeek(old(State()), timelineValue)
    {
      var _ := player.AudioSeek(timelineValue);
    }

    method MuteToggle()
      modifies this`page, player.audio
      ensures State() == AfterMuteToggle(old(State()))
    {
      var first := player.MuteToggle();
      page := page.(muteIcon := if first then VolumeHigh else VolumeMute);
      var second := player.MuteToggle();
      player.audio.muted := !second;
    }

    method ShuffleToggle()
      modifies this`page, player
      ensures State() == AfterShuffleToggle(old(State()))
    {
      var _ := player.ShuffleToggle();
      page := page.(shuffleToggled := player.shuffle);
    }

    method ScrubTime(delta: real)
      modifies player.audio
      ensures State() == AfterScrubTime(old(State()), delta)
    {
      player.ScrubTime(delta);
    }

    /** `bindShortcuts`: the play/pause entry captures the current id at binding time. */
    method BindShortcuts()
      modifies this`shortcuts
      ensures shortcuts == ShortcutTable(old(shortcuts), keys, skipTime, player.currentIndex)
    {
      var songIndex := player.currentIndex;
      shortcuts := shortcuts[keys.goForward := Scrub(skipTime)];
      shortcuts := shortcuts[keys.goBack := Scrub(-skipTime)];
      shortcuts := shortcuts[keys.playPause := PlayPause(songIndex)];
      shortcuts := shortcuts[keys.nextSong := NextSong];
      shortcuts := shortcuts[keys.previousSong := PreviousSong];
      shortcuts := shortcuts[keys.mute := Mute];
    }

    method RunCommand(c: Command)
      modifies this`page, player, player.audio
      ensures exists pick: nat :: State() == AfterCommand(old(State()), c, pick)
    {
      match c
      case Scrub(delta) =>
        ScrubTime(delta);
        assert State() == AfterCommand(old(State()), c, 0);
      case PlayPause(index) =>
        PlayAudio(index);
        assert State() == AfterCommand(old(State()), c, 0);
      case NextSong =>
        PlayNextSong();
        ghost var pick: nat :| State() == AfterStep(old(State()), true, pick);
        assert State() == AfterCommand(old(State()), c, pick);
      case PreviousSong =>
        PlayPreviousSong();
        ghost var pick: nat :| State() == AfterStep(old(State()), false, pick);
        assert State() == AfterCommand(old(State()), c, pick);
      case Mute =>
        MuteToggle();
        assert State() == AfterCommand(old(State()), c, 0);
    }

    /** The `keydown` listener: a key with no entry does nothing, a key with one runs exactly its command. */
    method KeyDown(key: string)
      modifies this`page, player, player.audio
      ensures key !in shortcuts ==> State() == old(State())
      ensures key in shortcuts ==> exists pick: nat :: State() == AfterCommand(old(State()), shortcuts[key], pick)
    {
      if key in shortcuts {
        var command := shortcuts[key];
        RunCommand(command);
      }
    }

    /** The listeners `bindEvents` registers, dispatched by event. */
    method HandleEvent(e: UiEvent)
      modifies this`page, player, player.audio
      ensures exists pick: nat :: State() == AfterEvent(old(State()), e, formatTime, pick)
    {
      match e
      case TimeUpdate =>
        TimelineUpdate();
        assert State() == AfterEvent(old(State()), e, formatTime, 0);
      case TimelineInput(value) =>
        AudioSeek(value);
        assert State() == AfterEvent(old(State()), e, formatTime, 0);
      case Ended =>
        PlayNextSong();
        ghost var pick: nat :| State() == AfterStep(old(State()), true, pick);
        assert State() == AfterEvent(old(State()), e, formatTime, pick);
      case PlayClick =>
        PlayAudio(player.currentIndex);
        assert State() == AfterEvent(old(State()), e, formatTime, 0);
      case MuteClick =>
        MuteToggle();
        assert State() == AfterEvent(old(State()), e, formatTime, 0);
      case PreviousClick =>
        PlayPreviousSong();
        ghost var pick: nat :| State() == AfterStep(old(State()), false, pick);
        assert State() == AfterEvent(old(State()), e, formatTime, pick);
      case NextClick =>
        PlayNextSong();
        ghost var pick: nat :| State() == AfterStep(old(State()), true, pick);
        assert State() == AfterEvent(old(State()), e, formatTime, pick);
      case ShuffleClick =>
        ShuffleToggle();
        assert State() == AfterEvent(old(State()), e, formatTime, 0);
    }
  }

  /**
   * The start-up order of the page: a player and a manager are created,
   * the shortcuts are bound, and only then are the playlist's songs loaded
   * (`playlist == None` when the storage has no such playlist).
   */
  method Startup(playlist: Option<seq<int>>, formatTime: real -> string, skipTime: real, keys: ShortcutKeys, page: Page)
    returns (manager: PlayListManager)
    ensures fresh(manager) && fresh(manager.player) && fresh(manager.player.audio)
    ensures manager.shortcuts == ShortcutTable(map[], keys, skipTime, 0)
    ensures manager.formatTime == formatTime && manager.skipTime == skipTime && manager.keys == keys
    ensures manager.State() == View(if playlist.Some? then Loaded(InitialPlayer, playlist.value) else InitialPlayer, page)
  {
    var player := new Player();
    manager := new PlayListManager(player, formatTime, skipTime, keys, page);
    manager.BindShortcuts();
    if playlist.Some? {
      var _ := player.LoadSongs(playlist.value);
    }
  }

  // ---------------------------------------------------------------------
  // Properties of the specification functions

  /** A press of play while the audio plays pauses it, whatever index is passed, and leaves the current id alone. */
  lemma PlayPressWhilePlayingPauses(v: View, index: int)
    requires !v.player.audio.paused
    ensures var r := AfterPlayAudio(v, index);
      r.player.audio.paused && r.player.currentIndex == v.player.currentIndex &&
      r.player.audio.src == v.player.audio.src && r.player.audio.currentTime == v.player.audio.currentTime &&
      r.page.playIcon == FaPlay
  {
  }

  /** A press of play while paused makes `index` current and plays. */
  lemma PlayPressWhilePausedPlays(v: View, index: int)
    requires v.player.audio.paused
    ensures var r := AfterPlayAudio(v, index);
      !r.player.audio.paused && r.player.currentIndex == index && r.page.playIcon == FaPause
  {
  }

  /** After play/pause, next or previous the play button shows `fa-play` exactly when the audio is paused. */
  lemma PlayButtonMatchesAudio(v: View, index: int, forward: bool, pick: nat)
    ensures (AfterPlayAudio(v, index).page.playIcon == FaPlay) <==> AfterPlayAudio(v, index).player.audio.paused
    ensures |v.player.songs| > 0 ==>
      ((AfterStep(v, forward, pick).page.playIcon == FaPlay) <==> AfterStep(v, forward, pick).player.audio.paused)
  {
  }

  /** Next and previous end with the audio playing, unless a listed id is -1 and the audio was playing. */
  lemma StepEndsPlaying(v: View, forward: bool, pick: nat)
    requires |v.player.songs| > 0 && forall k :: 0 <= k < |v.player.songs| ==> v.player.songs[k].id != -1
    ensures !AfterStep(v, forward, pick).player.audio.paused
    ensures AfterStep(v, forward, pick).page.playIcon == FaPause
  {
    var t := TargetPosition(v.player, forward, pick);
    assert v.player.songs[t].id != -1;
  }

  /** The mute toggle flips `muted`; afterwards the volume is 0 and the icon `fa-volume-mute` exactly when muted. */
  lemma MuteToggleKeepsInSync(v: View)
    ensures var r := AfterMuteToggle(v);
      r.player.audio.muted == !v.player.audio.muted &&
      (r.player.audio.volume == 0.0 <==> r.player.audio.muted) &&
      (r.page.muteIcon == VolumeMute <==> r.player.audio.muted) &&
      r.player.currentIndex == v.player.currentIndex && r.player.audio.paused == v.player.audio.paused
  {
  }

  /** Two mute toggles restore `muted`, and restore the volume and icon when they agreed with `muted` before. */
  lemma MuteToggleTwice(v: View)
    ensures AfterMuteToggle(AfterMuteToggle(v)).player.audio.muted == v.player.audio.muted
    ensures v.player.audio.volume == (if v.player.audio.muted then 0.0 else 1.0) ==>
      AfterMuteToggle(AfterMuteToggle(v)).player.audio.volume == v.player.audio.volume
    ensures (v.page.muteIcon == VolumeMute <==> v.player.audio.muted) ==>
      AfterMuteToggle(AfterMuteToggle(v)).page.muteIcon == v.page.muteIcon
  {
  }

  /** After the shuffle toggle the button is toggled exactly when shuffle is on; two toggles restore both. */
  lemma ShuffleToggleKeepsInSync(v: View)
    ensures AfterShuffleToggle(v).page.shuffleToggled == AfterShuffleToggle(v).player.shuffle
    ensures AfterShuffleToggle(v).player.shuffle == !v.player.shuffle
    ensures AfterShuffleToggle(AfterShuffleToggle(v)).player == v.player
  {
  }

  /** With an unknown duration the duration label keeps its text, the current-time label is still written. */
  lemma TimelineUpdateWithoutDuration(v: View, formatTime: real -> string)
    requires v.player.audio.duration.None?
    ensures var r := AfterTimelineUpdate(v, formatTime);
      r.page.durationText == v.page.durationText &&
      r.page.currentTimeText == formatTime(v.player.audio.currentTime) &&
      r.page.timeline.None? && r.player == v.player
  {
  }

  /** With a known positive duration, a time inside the track gives a timeline value between 0 and 100. */
  lemma TimelineUpdateInRange(v: View, formatTime: real -> string)
    requires v.player.audio.duration.Some? && v.player.audio.duration.value > 0.0
    requires 0.0 <= v.player.audio.currentTime <= v.player.audio.duration.value
    ensures var r := AfterTimelineUpdate(v, formatTime);
      r.page.timeline.Some? && 0.0 <= r.page.timeline.value <= 100.0 &&
      r.page.durationText == formatTime(v.player.audio.duration.value)
  {
    var d, t := v.player.audio.duration.value, v.player.audio.currentTime;
    assert 100.0 * t <= 100.0 * d;
    assert 100.0 * t / d <= 100.0 * d / d;
  }

  /** Seeking to v% and then updating the timeline shows v again: the seek and the progress display are inverse. */
  lemma SeekThenTimelineShowsValue(v: View, value: real, formatTime: real -> string)
    requires v.player.audio.duration.Some? && v.player.audio.duration.value > 0.0
    ensures AfterTimelineUpdate(AfterAudioSeek(v, value), formatTime).page.timeline == Some(value)
  {
    var d := v.player.audio.duration.value;
    var t := value * d / 100.0;
    var sought := AfterAudioSeek(v, value);
    assert sought.player.audio.duration == Some(d) && sought.player.audio.currentTime == t;
    assert 100.0 * t == value * d;
    assert 100.0 * t / d == value;
  }

  /** With distinct keys, each configured key maps to its own command and the table gains no other key. */
  lemma ShortcutTableRoutes(table: map<string, Command>, keys: ShortcutKeys, skipTime: real, songIndex: int)
    requires DistinctKeys(keys)
    ensures var t := ShortcutTable(table, keys, skipTime, songIndex);
      t[keys.goForward] == Scrub(skipTime) && t[keys.goBack] == Scrub(-skipTime) &&
      t[keys.playPause] == PlayPause(songIndex) && t[keys.nextSong] == NextSong &&
      t[keys.previousSong] == PreviousSong && t[keys.mute] == Mute &&
      t.Keys == table.Keys + {keys.goForward, keys.goBack, keys.playPause, keys.nextSong, keys.previousSong, keys.mute} &&
      forall k :: k in table && k !in {keys.goForward, keys.goBack, keys.playPause, keys.nextSong, keys.previousSong, keys.mute} ==>
        t[k] == table[k]
  {
    var ks := [keys.goForward, keys.goBack, keys.playPause, keys.nextSong, keys.previousSong, keys.mute];
    assert ks[0] != ks[1] && ks[0] != ks[2] && ks[0] != ks[3] && ks[0] != ks[4] && ks[0] != ks[5];
    assert ks[1] != ks[2] && ks[1] != ks[3] && ks[1] != ks[4] && ks[1] != ks[5];
    assert ks[2] != ks[3] && ks[2] != ks[4] && ks[2] != ks[5];
    assert ks[3] != ks[4] && ks[3] != ks[5] && ks[4] != ks[5];
  }

  /** GO_FORWARD followed by GO_BACK restores the playback time. */
  lemma ForwardThenBackRestoresTime(v: View, keys: ShortcutKeys, skipTime: real, songIndex: int, pick1: nat, pick2: nat)
    requires DistinctKeys(keys)
    ensures var t := ShortcutTable(map[], keys, skipTime, songIndex);
      AfterCommand(AfterCommand(v, t[keys.goForward], pick1), t[keys.goBack], pick2) == v
  {
    ShortcutTableRoutes(map[], keys, skipTime, songIndex);
    ScrubBackRestores(v.player, skipTime);
  }

  /**
   * The shortcuts are bound before the songs are loaded, so the play/pause
   * shortcut carries the constructor's id 0, whatever the playlist; when
   * paused it plays song 0 rather than the current one.
   */
  lemma PlayPauseShortcutUsesStartupId(v: View, keys: ShortcutKeys, skipTime: real, pick: nat)
    requires DistinctKeys(keys) && v.player.audio.paused
    ensures var t := ShortcutTable(map[], keys, skipTime, 0);
      t[keys.playPause] == PlayPause(0) &&
      AfterCommand(v, t[keys.playPause], pick).player.currentIndex == 0 &&
      !AfterCommand(v, t[keys.playPause], pick).player.audio.paused
  {
    ShortcutTableRoutes(map[], keys, skipTime, 0);
  }

  /**
   * Right after start-up the element is paused, so the play/pause shortcut
   * plays song 0 even when the loaded playlist starts with another id.
   */
  lemma StartupPlayPausePlaysSongZero(ids: seq<int>, page: Page, keys: ShortcutKeys, skipTime: real, pick: nat)
    requires DistinctKeys(keys) && |ids| > 0
    ensures var v := View(Loaded(InitialPlayer, ids), page);
      var r := AfterCommand(v, ShortcutTable(map[], keys, skipTime, 0)[keys.playPause], pick);
      v.player.currentIndex == ids[0] && r.player.currentIndex == 0 && !r.player.audio.paused
  {
    PlayPauseShortcutUsesStartupId(View(Loaded(InitialPlayer, ids), page), keys, skipTime, pick);
  }

  /** The `ended` event takes the same path as a click on next. */
  lemma EndedIsNext(v: View, formatTime: real -> string, pick: nat)
    ensures AfterEvent(v, Ended, formatTime, pick) == AfterEvent(v, NextClick, formatTime, pick)
  {
  }

  /**
   * Pausing with the play button and pressing it again resumes the same
   * song where it stopped, provided the element holds that song's source.
   */
  lemma PauseThenPlayResumes(v: View, formatTime: real -> string, pick1: nat, pick2: nat)
    requires !v.player.audio.paused
    requires v.player.audio.src == Some(SrcAttribute(Lookup(v.player.songs, v.player.currentIndex)))
    ensures var paused := AfterEvent(v, PlayClick, formatTime, pick1);
      var resumed := AfterEvent(paused, PlayClick, formatTime, pick2);
      paused.player.audio.paused && !resumed.player.audio.paused &&
      resumed.player.currentIndex == v.player.currentIndex &&
      resumed.player.audio.currentTime == v.player.audio.currentTime &&
      resumed.player.audio.src == v.player.audio.src
  {
  }
}
