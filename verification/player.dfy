/**
 * The playback engine of the player page (`Player` in player.js): an
 * ordered list of `{id, src}` entries, the id of the current song (an id,
 * not a position), a shuffle flag and one audio element.
 *
 * Every method of `Player` is specified by a function on `PlayerState`
 * values (`Loaded`, `Played`, `Stepped`, ...); the lemmas at the end of the
 * module state what the source promises about those functions.
 */
module Playback {
  import opened Wrappers
  import opened Decimal
  import opened Media

  datatype Entry = Entry(id: int, src: string)

  /** The abstract value of a `Player`: its audio element and its own three fields. */
  datatype PlayerState = PlayerState(
    audio: Sink,
    currentIndex: int,
    songs: seq<Entry>,
    shuffle: bool)

  /** The state the `Player` constructor sets up: a fresh, paused element with no src, id 0, no songs, shuffle off. */
  const InitialPlayer := PlayerState(Sink(None, true, false, 1.0, 0.0, None), 0, [], false)

  const MediaPrefix: string := "./assets/media/0"
  const MediaSuffix: string := "_song.mp3"

  /** The media file of the song with id `id`: the number written is id + 1. */
  function SongSrc(id: int): string
  {
    MediaPrefix + IntToString(id + 1) + MediaSuffix
  }

  lemma SongSrcInjective(i: int, j: int)
    requires SongSrc(i) == SongSrc(j)
    ensures i == j
  {
    var a, b := IntToString(i + 1), IntToString(j + 1);
    var s := SongSrc(i);
    assert |a| == |b|;
    assert s[|MediaPrefix|..|MediaPrefix| + |a|] == a;
    assert SongSrc(j)[|MediaPrefix|..|MediaPrefix| + |b|] == b;
    IntToStringInjective(i + 1, j + 1);
  }

  /** The entry `loadSongs` pushes for the song with id `id`. */
  function EntryFor(id: int): Entry
  {
    Entry(id, SongSrc(id))
  }

  /** The entries `loadSongs` appends for songs with ids `ids`, in order. */
  function EntriesOf(ids: seq<int>): seq<Entry>
  {
    seq(|ids|, k requires 0 <= k < |ids| => EntryFor(ids[k]))
  }

  /** Every entry carries the src that `loadSongs` derives from its id. */
  ghost predicate SrcsFollowIds(songs: seq<Entry>)
  {
    forall k :: 0 <= k < |songs| ==> songs[k].src == SongSrc(songs[k].id)
  }

  ghost predicate HasId(songs: seq<Entry>, id: int)
  {
    exists k :: 0 <= k < |songs| && songs[k].id == id
  }

  ghost predicate UniqueIds(songs: seq<Entry>)
  {
    forall i, j :: 0 <= i < j < |songs| ==> songs[i].id != songs[j].id
  }

  /** `getSongFromIndex`: the src of the last entry with id `id`, or `undefined`. */
  function Lookup(songs: seq<Entry>, id: int): Option<string>
  {
    if songs == [] then None
    else if songs[|songs| - 1].id == id then Some(songs[|songs| - 1].src)
    else Lookup(songs[..|songs| - 1], id)
  }

  /** `Array.prototype.findIndex` on the ids: the first position holding `id`, or -1. */
  function FindIndex(songs: seq<Entry>, id: int): (p: int)
    ensures -1 <= p < |songs|
    ensures p == -1 ==> forall k :: 0 <= k < |songs| ==> songs[k].id != id
    ensures p >= 0 ==> songs[p].id == id && forall k :: 0 <= k < p ==> songs[k].id != id
  {
    if songs == [] then -1
    else if songs[0].id == id then 0
    else
      var q := FindIndex(songs[1..], id);
      if q == -1 then -1 else q + 1
  }

  /** The string the audio element's `src` setter receives: `undefined` becomes "undefined". */
  function SrcAttribute(song: Option<string>): string
  {
    match song
    case Some(s) => s
    case None => "undefined"
  }

  /** `loadSongs`: the entries are appended; the first input id becomes current (an empty input throws first). */
  function Loaded(st: PlayerState, ids: seq<int>): PlayerState
  {
    st.(songs := st.songs + EntriesOf(ids),
        currentIndex := if |ids| > 0 then ids[0] else st.currentIndex)
  }

  /**
   * `playAudio(index)`: -1 on a playing element only pauses it; anything
   * else makes `index` current, assigns its src, keeps the time recorded
   * before if the src did not change and restarts at 0 otherwise, and plays.
   */
  function Played(st: PlayerState, index: int): PlayerState
  {
    if index == -1 && !st.audio.paused then
      st.(audio := st.audio.(paused := true))
    else
      var src := Some(SrcAttribute(Lookup(st.songs, index)));
      st.(currentIndex := index,
          audio := st.audio.(src := src,
                             currentTime := if src == st.audio.src then st.audio.currentTime else 0.0,
                             paused := false))
  }

  /**
   * The position `playNextSong` (forward) or `playPreviousSong` moves to:
   * `pick`, the position `utils.random(0, n)` drew, when shuffling; else the
   * current id's position plus or minus one, Euclidean modulo the length.
   */
  function TargetPosition(st: PlayerState, forward: bool, pick: nat): (p: nat)
    requires |st.songs| > 0
    ensures p < |st.songs|
    ensures st.shuffle && pick < |st.songs| ==> p == pick
  {
    if st.shuffle then pick % |st.songs|
    else (FindIndex(st.songs, st.currentIndex) + (if forward then 1 else -1)) % |st.songs|
  }

  /** `playNextSong` / `playPreviousSong`; on an empty list the source throws before assigning anything. */
  function Stepped(st: PlayerState, forward: bool, pick: nat): PlayerState
  {
    if |st.songs| == 0 then st
    else
      var id := st.songs[TargetPosition(st, forward, pick)].id;
      Played(st.(currentIndex := id), id)
  }

  /** `audioSeek(v)`: a percentage of the duration; a NaN time is rejected by the element. */
  function Seeked(st: PlayerState, timelineValue: real): PlayerState
  {
    match st.audio.duration
    case None => st
    case Some(d) => st.(audio := st.audio.(currentTime := timelineValue * d / 100.0))
  }

  function Scrubbed(st: PlayerState, delta: real): PlayerState
  {
    st.(audio := st.audio.(currentTime := st.audio.currentTime + delta))
  }

  /** `muteToggle` on the player: the volume follows `muted`, which it does not change. */
  function MuteToggled(st: PlayerState): PlayerState
  {
    st.(audio := st.audio.(volume := if st.audio.muted then 1.0 else 0.0))
  }

  function ShuffleToggled(st: PlayerState): PlayerState
  {
    st.(shuffle := !st.shuffle)
  }

  /**
   * The `currentSong` getter as written: the list indexed by `currentIndex`,
   * which is an id (see `CurrentSongById` for what its documentation promises).
   */
  function CurrentSong(st: PlayerState): (r: Option<Entry>)
    ensures r.Some? ==> r.value in st.songs
    ensures r.None? <==> !(0 <= st.currentIndex < |st.songs|)
  {
    if 0 <= st.currentIndex < |st.songs| then Some(st.songs[st.currentIndex]) else None
  }

  /** What the getter's documentation promises: the entry whose id is `currentIndex`. */
  function CurrentSongById(st: PlayerState): (r: Option<Entry>)
    ensures r.Some? <==> HasId(st.songs, st.currentIndex)
    ensures r.Some? ==> r.value.id == st.currentIndex && r.value in st.songs
  {
    var p := FindIndex(st.songs, st.currentIndex);
    if p == -1 then None else Some(st.songs[p])
  }

  class Player {
    const audio: Audio
    var currentIndex: int
    var songsInPlayList: seq<Entry>
    var shuffle: bool

    function State(): PlayerState
      reads this, audio
    {
      PlayerState(audio.State(), currentIndex, songsInPlayList, shuffle)
    }

    constructor ()
      ensures fresh(audio)
      ensures State() == InitialPlayer
    {
      audio := new Audio();
      currentIndex := 0;
      songsInPlayList := [];
      shuffle := false;
    }

    /** `ok` is false where the source throws: reading the first song of an empty input. */
    method LoadSongs(ids: seq<int>) returns (ok: bool)
      modifies this
      ensures ok == (|ids| > 0)
      ensures State() == Loaded(old(State()), ids)
    {
      var i := 0;
      while i < |ids|
        invariant 0 <= i <= |ids|
        invariant songsInPlayList == old(songsInPlayList) + EntriesOf(ids[..i])
        invariant currentIndex == old(currentIndex) && shuffle == old(shuffle)
      {
        assert EntriesOf(ids[..i + 1]) == EntriesOf(ids[..i]) + [EntryFor(ids[i])];
        songsInPlayList := songsInPlayList + [EntryFor(ids[i])];
        i := i + 1;
      }
      assert ids[..i] == ids;
      ok := |ids| > 0;
      if ok {
        currentIndex := ids[0];
      }
    }

    method GetSongFromIndex(index: int) returns (song: Option<string>)
      ensures song == Lookup(songsInPlayList, index)
    {
      song := None;
      var k := 0;
      while k < |songsInPlayList|
        invariant 0 <= k <= |songsInPlayList|
        invariant song == Lookup(songsInPlayList[..k], index)
      {
        assert songsInPlayList[..k + 1][..k] == songsInPlayList[..k];
        if index == songsInPlayList[k].id {
          song := Some(songsInPlayList[k].src);
        }
        k := k + 1;
      }
      assert songsInPlayList[..k] == songsInPlayList;
    }

    method PlayAudio(index: int)
      modifies this, audio
      ensures State() == Played(old(State()), index)
    {
      var timeRecord := audio.currentTime;
      if index == -1 && !audio.paused {
        audio.Pause();
      } else {
        var srcBefore := audio.src;
        currentIndex := index;
        var song := GetSongFromIndex(currentIndex);
        audio.src := Some(SrcAttribute(song));
        var resumeTime := if audio.src == srcBefore then timeRecord else 0.0;
        audio.currentTime := resumeTime;
        audio.Play();
      }
    }

    /** Shared body of the two navigation methods; `ok` is false where the source throws (empty list). */
    method Step(forward: bool) returns (ok: bool)
      modifies this, audio
      ensures ok == (|old(songsInPlayList)| > 0)
      ensures exists pick: nat :: State() == Stepped(old(State()), forward, pick)
    {
      var position := FindIndex(songsInPlayList, currentIndex);
      var n := |songsInPlayList|;
      if n == 0 {
        ok := false;
        assert State() == Stepped(old(State()), forward, 0);
        return;
      }
      ok := true;
      var target: nat;
      if shuffle {
        var r :| 0 <= r < n;
        target := r;
      } else {
        target := (position + (if forward then 1 else -1)) % n;
      }
      assert target == TargetPosition(old(State()), forward, target);
      var id := songsInPlayList[target].id;
      currentIndex := id;
      PlayAudio(id);
      assert State() == Stepped(old(State()), forward, target);
    }

    method PlayPreviousSong() returns (ok: bool)
      modifies this, audio
      ensures ok == (|old(songsInPlayList)| > 0)
      ensures exists pick: nat :: State() == Stepped(old(State()), false, pick)
    {
      ok := Step(false);
    }

    method PlayNextSong() returns (ok: bool)
      modifies this, audio
      ensures ok == (|old(songsInPlayList)| > 0)
      ensures exists pick: nat :: State() == Stepped(old(State()), true, pick)
    {
      ok := Step(true);
    }

    /** `ok` is false where the element rejects the NaN time computed from an unknown duration. */
    method AudioSeek(timelineValue: real) returns (ok: bool)
      modifies audio
      ensures ok == old(audio.duration).Some?
      ensures State() == Seeked(old(State()), timelineValue)
    {
      ok := audio.duration.Some?;
      if ok {
        var time := timelineValue * audio.duration.value / 100.0;
        audio.currentTime := time;
      }
    }

    method MuteToggle() returns (muted: bool)
      modifies audio
      ensures muted == old(audio.muted)
      ensures State() == MuteToggled(old(State()))
    {
      audio.volume := if audio.muted then 1.0 else 0.0;
      muted := audio.muted;
    }

    method ShuffleToggle() returns (on: bool)
      modifies this
      ensures on == !old(shuffle)
      ensures State() == ShuffleToggled(old(State()))
    {
      shuffle := !shuffle;
      on := shuffle;
    }

    method ScrubTime(delta: real)
      modifies audio
      ensures State() == Scrubbed(old(State()), delta)
    {
      audio.currentTime := audio.currentTime + delta;
    }
  }

  // ---------------------------------------------------------------------
  // Properties of the specification functions

  /** Every entry built by `loadSongs` is named after its id. */
  lemma EntriesFollowIds(ids: seq<int>)
    ensures SrcsFollowIds(EntriesOf(ids))
  {
  }

  /** `loadSongs` appends one entry per input id, in order, after the existing ones, and makes the first id current. */
  lemma LoadedAppends(st: PlayerState, ids: seq<int>)
    requires |ids| > 0
    ensures var r := Loaded(st, ids);
      |r.songs| == |st.songs| + |ids| &&
      r.songs[..|st.songs|] == st.songs &&
      (forall k :: 0 <= k < |ids| ==> r.songs[|st.songs| + k] == Entry(ids[k], SongSrc(ids[k]))) &&
      r.currentIndex == ids[0] && HasId(r.songs, r.currentIndex) &&
      r.audio == st.audio && r.shuffle == st.shuffle &&
      (SrcsFollowIds(st.songs) ==> SrcsFollowIds(r.songs))
  {
    var r := Loaded(st, ids);
    assert r.songs[|st.songs|] == Entry(ids[0], SongSrc(ids[0]));
  }

  /** An empty input changes nothing the model can see (the source throws after its empty loop). */
  lemma LoadedEmptyUnchanged(st: PlayerState)
    ensures Loaded(st, []) == st
  {
    assert st.songs + [] == st.songs;
  }

  /** `getSongFromIndex` answers `undefined` exactly when no entry has the id, else the src of the last entry that has it. */
  lemma {:induction false} LookupFindsLastMatch(songs: seq<Entry>, id: int)
    ensures Lookup(songs, id).None? <==> !HasId(songs, id)
    ensures Lookup(songs, id).Some? ==>
      exists k :: 0 <= k < |songs| && songs[k].id == id && Lookup(songs, id).value == songs[k].src &&
        forall j :: k < j < |songs| ==> songs[j].id != id
  {
    LookupNoneIffAbsent(songs, id);
    if Lookup(songs, id).Some? {
      var k := LookupLastMatch(songs, id);
    }
  }

  lemma {:induction false} LookupNoneIffAbsent(songs: seq<Entry>, id: int)
    ensures Lookup(songs, id).None? <==> !HasId(songs, id)
    decreases |songs|
  {
    if songs != [] {
      var n := |songs|;
      var init := songs[..n - 1];
      LookupNoneIffAbsent(init, id);
      if songs[n - 1].id != id && HasId(songs, id) {
        var k :| 0 <= k < n && songs[k].id == id;
        assert init[k].id == id;
      }
    }
  }

  /** The position of the entry whose src a successful lookup returns. */
  lemma {:induction false} LookupLastMatch(songs: seq<Entry>, id: int) returns (k: nat)
    requires Lookup(songs, id).Some?
    ensures k < |songs| && songs[k].id == id && Lookup(songs, id).value == songs[k].src
    ensures forall j :: k < j < |songs| ==> songs[j].id != id
    decreases |songs|
  {
    var n := |songs|;
    if songs[n - 1].id == id {
      k := n - 1;
    } else {
      var init := songs[..n - 1];
      k := LookupLastMatch(init, id);
      assert songs[k].id == init[k].id && songs[k].src == init[k].src;
    }
  }

  /** On a list built by `loadSongs`, looking up a present id gives the media file named after it. */
  lemma LookupFollowsId(songs: seq<Entry>, id: int)
    requires SrcsFollowIds(songs) && HasId(songs, id)
    ensures Lookup(songs, id) == Some(SongSrc(id))
  {
    LookupFindsLastMatch(songs, id);
  }

  /** `playAudio(-1)` on a playing element only pauses it. */
  lemma PlayMinusOneWhilePlayingPauses(st: PlayerState)
    requires !st.audio.paused
    ensures var r := Played(st, -1);
      r.audio.paused && r.currentIndex == st.currentIndex && r.audio.src == st.audio.src &&
      r.audio.currentTime == st.audio.currentTime && r.songs == st.songs && r.shuffle == st.shuffle
  {
  }

  /** Any other call plays `index` from the looked-up src, resuming only when the src is unchanged. */
  lemma PlayOtherwiseLoadsAndPlays(st: PlayerState, index: int)
    requires index != -1 || st.audio.paused
    ensures var r := Played(st, index);
      !r.audio.paused && r.currentIndex == index &&
      r.audio.src == Some(SrcAttribute(Lookup(st.songs, index))) &&
      (r.audio.src == st.audio.src ==> r.audio.currentTime == st.audio.currentTime) &&
      (r.audio.src != st.audio.src ==> r.audio.currentTime == 0.0) &&
      r.audio.muted == st.audio.muted && r.audio.volume == st.audio.volume &&
      r.songs == st.songs && r.shuffle == st.shuffle
  {
  }

  /** Playing the same id twice in a row keeps the time position of the first. */
  lemma PlaySameIdTwiceResumes(st: PlayerState, id: int)
    requires id != -1
    ensures Played(Played(st, id), id).audio.currentTime == Played(st, id).audio.currentTime
    ensures Played(Played(st, id), id) == Played(st, id)
  {
  }

  /** On a list built by `loadSongs`, switching from the song with id `i` to a different listed id restarts at 0. */
  lemma PlayOtherIdRestarts(st: PlayerState, i: int, j: int)
    requires SrcsFollowIds(st.songs) && HasId(st.songs, j) && j != -1
    requires st.audio.src == Some(SongSrc(i)) && i != j
    ensures Played(st, j).audio.currentTime == 0.0
    ensures Played(st, j).currentIndex == j
  {
    LookupFollowsId(st.songs, j);
    if SongSrc(j) == SongSrc(i) {
      SongSrcInjective(j, i);
    }
  }

  /** However `playAudio` goes, the id written before the call is the current one afterwards. */
  lemma PlayedKeepsAssignedIndex(st: PlayerState, id: int)
    ensures Played(st.(currentIndex := id), id).currentIndex == id
    ensures Played(st.(currentIndex := id), id).songs == st.songs
    ensures Played(st.(currentIndex := id), id).shuffle == st.shuffle
  {
  }

  lemma FindIndexOfPosition(songs: seq<Entry>, q: nat)
    requires UniqueIds(songs) && q < |songs|
    ensures FindIndex(songs, songs[q].id) == q
  {
  }

  /**
   * With shuffle off, the pick is ignored and next/previous move from the
   * current id's position `p` (-1 when it is not listed) one step, wrapping
   * around a list of length `n`.
   */
  lemma {:induction false} OrderedStepPosition(st: PlayerState, forward: bool, pick: nat, p: int, n: nat)
    requires !st.shuffle && n == |st.songs| > 0 && p == FindIndex(st.songs, st.currentIndex)
    ensures Stepped(st, forward, pick).songs == st.songs && !Stepped(st, forward, pick).shuffle
    ensures Stepped(st, forward, pick).currentIndex == st.songs[(p + (if forward then 1 else -1)) % n].id
  {
    var id := st.songs[TargetPosition(st, forward, pick)].id;
    PlayedKeepsAssignedIndex(st, id);
  }

  /** With shuffle off, the random draw plays no part in next/previous. */
  lemma OrderedStepIgnoresPick(st: PlayerState, forward: bool, pick: nat)
    requires !st.shuffle
    ensures Stepped(st, forward, pick) == Stepped(st, forward, 0)
  {
  }

  /** Scenario: ids 0, 1, 2 with 0 current; previous wraps to 2. */
  lemma PreviousFromFirstWrapsToLast(st: PlayerState, pick: nat)
    requires !st.shuffle && |st.songs| == 3 && st.currentIndex == 0
    requires st.songs[0].id == 0 && st.songs[1].id == 1 && st.songs[2].id == 2
    ensures Stepped(st, false, pick).currentIndex == 2
  {
    assert FindIndex(st.songs, 0) == 0;
    ModUnique(-1, 3, -1, 2);
    OrderedStepPosition(st, false, pick, 0, 3);
  }

  lemma {:induction false} MulAtLeast(n: int, k: int)
    requires n > 0 && k >= 1
    ensures n * k >= n
    decreases k
  {
    if k > 1 {
      MulAtLeast(n, k - 1);
      assert n * k == n * (k - 1) + n;
    }
  }

  /** The remainder is determined by any decomposition x == n·d + r with 0 <= r < n. */
  lemma ModUnique(x: int, n: int, d: int, r: int)
    requires n > 0 && 0 <= r < n && x == n * d + r
    ensures x % n == r
  {
    var d', r' := x / n, x % n;
    assert x == n * d' + r';
    assert n * (d' - d) == n * d' - n * d;
    assert n * (d - d') == n * d - n * d';
    if d' > d {
      MulAtLeast(n, d' - d);
    } else if d' < d {
      MulAtLeast(n, d - d');
    }
  }

  lemma ModStepUp(a: int, n: int)
    requires n > 0
    ensures ((a % n) + 1) % n == (a + 1) % n
  {
    var d, q := a / n, a % n;
    assert a == n * d + q;
    if q + 1 < n {
      ModUnique(q + 1, n, 0, q + 1);
      ModUnique(a + 1, n, d, q + 1);
    } else {
      assert n * (d + 1) == n * d + n;
      ModUnique(q + 1, n, 1, 0);
      ModUnique(a + 1, n, d + 1, 0);
    }
  }

  lemma ModStepDown(a: int, n: int)
    requires n > 0
    ensures ((a % n) - 1) % n == (a - 1) % n
  {
    var d, q := a / n, a % n;
    assert a == n * d + q;
    if q >= 1 {
      ModUnique(q - 1, n, 0, q - 1);
      ModUnique(a - 1, n, d, q - 1);
    } else {
      assert n * (d - 1) == n * d - n;
      ModUnique(q - 1, n, -1, n - 1);
      ModUnique(a - 1, n, d - 1, n - 1);
    }
  }

  lemma ModRoundTrip(p: int, n: int, forward: bool)
    requires 0 <= p < n
    ensures ((p + (if forward then 1 else -1)) % n + (if !forward then 1 else -1)) % n == p
  {
    ModUnique(p, n, 0, p);
    if forward {
      ModStepDown(p + 1, n);
      assert p + 1 - 1 == p;
    } else {
      ModStepUp(p - 1, n);
      assert p - 1 + 1 == p;
    }
  }

  /** With shuffle off and unique ids, previous undoes next and next undoes previous. */
  lemma {:induction false} PreviousUndoesNext(st: PlayerState, forward: bool, pick1: nat, pick2: nat)
    requires !st.shuffle && UniqueIds(st.songs) && HasId(st.songs, st.currentIndex)
    ensures Stepped(Stepped(st, forward, pick1), !forward, pick2).currentIndex == st.currentIndex
  {
    var n := |st.songs|;
    var p := FindIndex(st.songs, st.currentIndex);
    ModRoundTrip(p, n, forward);
    var q := (p + (if forward then 1 else -1)) % n;
    var mid := Stepped(st, forward, pick1);
    OrderedStepPosition(st, forward, pick1, p, n);
    FindIndexOfPosition(st.songs, q);
    OrderedStepPosition(mid, !forward, pick2, q, n);
  }

  /** `k` presses of next from `st` with shuffle off. */
  function NextPresses(st: PlayerState, k: nat): PlayerState
  {
    if k == 0 then st else Stepped(NextPresses(st, k - 1), true, 0)
  }

  /** The id `k` positions after `cur`'s, wrapping around. */
  function IdAfter(songs: seq<Entry>, cur: int, k: nat): int
    requires |songs| > 0
  {
    songs[(FindIndex(songs, cur) + k) % |songs|].id
  }

  /** One press of next from position `p + before` lands on position `p + k`, wrapping around. */
  lemma OneMoreNextPress(prev: PlayerState, songs: seq<Entry>, before: nat, k: nat, p: nat, n: nat)
    requires UniqueIds(songs) && n == |songs| && p < n && k == before + 1
    requires prev.songs == songs && !prev.shuffle && prev.currentIndex == songs[(p + before) % n].id
    ensures Stepped(prev, true, 0).songs == songs && !Stepped(prev, true, 0).shuffle
    ensures Stepped(prev, true, 0).currentIndex == songs[(p + k) % n].id
  {
    var q := (p + before) % n;
    ModStepUp(p + before, n);
    assert p + before + 1 == p + k;
    FindIndexOfPosition(songs, q);
    OrderedStepPosition(prev, true, 0, q, n);
  }

  /** `k` presses of next from position `p` land on position `p + k`, wrapping around. */
  lemma {:induction false} NextPressesAt(st: PlayerState, k: nat, p: nat, n: nat)
    requires !st.shuffle && UniqueIds(st.songs) && n == |st.songs| && p < n && st.songs[p].id == st.currentIndex
    ensures NextPresses(st, k).songs == st.songs && !NextPresses(st, k).shuffle
    ensures NextPresses(st, k).currentIndex == st.songs[(p + k) % n].id
  {
    if k == 0 {
      ModUnique(p + k, n, 0, p);
    } else {
      NextPressesAt(st, k - 1, p, n);
      OneMoreNextPress(NextPresses(st, k - 1), st.songs, k - 1, k, p, n);
    }
  }

  lemma NextPressesPosition(st: PlayerState, k: nat)
    requires !st.shuffle && UniqueIds(st.songs) && HasId(st.songs, st.currentIndex)
    ensures NextPresses(st, k).songs == st.songs && !NextPresses(st, k).shuffle
    ensures NextPresses(st, k).currentIndex == IdAfter(st.songs, st.currentIndex, k)
  {
    NextPressesAt(st, k, FindIndex(st.songs, st.currentIndex), |st.songs|);
  }

  lemma IdAfterFullTurn(songs: seq<Entry>, cur: int)
    requires HasId(songs, cur)
    ensures IdAfter(songs, cur, |songs|) == cur
  {
    var p := FindIndex(songs, cur);
    ModUnique(p + |songs|, |songs|, 1, p);
  }

  /** With shuffle off and unique ids, as many presses of next as there are songs return to the starting id. */
  lemma NextCycleReturnsToStart(st: PlayerState)
    requires !st.shuffle && UniqueIds(st.songs) && HasId(st.songs, st.currentIndex)
    ensures NextPresses(st, |st.songs|).currentIndex == st.currentIndex
  {
    NextPressesPosition(st, |st.songs|);
    IdAfterFullTurn(st.songs, st.currentIndex);
  }

  /** With shuffle on, next and previous behave alike and land on some listed id, the current one included. */
  lemma ShuffleStepIgnoresDirection(st: PlayerState, pick: nat)
    requires st.shuffle && |st.songs| > 0 && pick < |st.songs|
    ensures Stepped(st, true, pick) == Stepped(st, false, pick)
    ensures Stepped(st, true, pick).currentIndex == st.songs[pick].id
    ensures HasId(Stepped(st, true, pick).songs, Stepped(st, true, pick).currentIndex)
  {
    PlayedKeepsAssignedIndex(st, st.songs[pick].id);
  }

  /** Every listed position is reachable by shuffle, so the current song may be replayed. */
  lemma ShuffleCanStay(st: PlayerState)
    requires st.shuffle && HasId(st.songs, st.currentIndex)
    ensures exists pick: nat :: pick < |st.songs| && Stepped(st, true, pick).currentIndex == st.currentIndex
  {
    var k :| 0 <= k < |st.songs| && st.songs[k].id == st.currentIndex;
    PlayedKeepsAssignedIndex(st, st.songs[k].id);
    assert Stepped(st, true, k).currentIndex == st.currentIndex;
  }

  /** On a non-empty list, next and previous always leave a listed id current. */
  lemma StepKeepsCurrentListed(st: PlayerState, forward: bool, pick: nat)
    requires |st.songs| > 0
    ensures HasId(Stepped(st, forward, pick).songs, Stepped(st, forward, pick).currentIndex)
  {
    var t := TargetPosition(st, forward, pick);
    PlayedKeepsAssignedIndex(st, st.songs[t].id);
  }

  /** Scenario: 50 on a track of 200 seconds seeks to 100. */
  lemma SeekHalfway(st: PlayerState)
    requires st.audio.duration == Some(200.0)
    ensures Seeked(st, 50.0).audio.currentTime == 100.0
  {
  }

  /** With an unknown duration a seek changes nothing; with a positive one, a percentage in [0, 100] lands inside the track. */
  lemma SeekIsProportional(st: PlayerState, v: real)
    ensures st.audio.duration.None? ==> Seeked(st, v) == st
    ensures st.audio.duration.Some? && st.audio.duration.value > 0.0 && 0.0 <= v <= 100.0 ==>
      0.0 <= Seeked(st, v).audio.currentTime <= st.audio.duration.value
  {
    if st.audio.duration.Some? && st.audio.duration.value > 0.0 && 0.0 <= v <= 100.0 {
      var d := st.audio.duration.value;
      assert v * d <= 100.0 * d;
    }
  }

  /** Scrubbing is not clamped, and scrubbing back by the same amount restores the time. */
  lemma ScrubBackRestores(st: PlayerState, delta: real)
    ensures Scrubbed(Scrubbed(st, delta), -delta) == st
    ensures Scrubbed(st, delta).audio.currentTime - st.audio.currentTime == delta
  {
  }

  lemma ShuffleToggleTwice(st: PlayerState)
    ensures ShuffleToggled(st).shuffle == !st.shuffle
    ensures ShuffleToggled(ShuffleToggled(st)) == st
  {
  }

  /** The player's mute toggle sets the volume from `muted` (0 when not muted) and leaves `muted` alone. */
  lemma MuteToggleFollowsMuted(st: PlayerState)
    ensures MuteToggled(st).audio.muted == st.audio.muted
    ensures MuteToggled(st).audio.volume == if st.audio.muted then 1.0 else 0.0
    ensures MuteToggled(MuteToggled(st)) == MuteToggled(st)
  {
  }

  /** The getter agrees with its documentation only when every id equals its position. */
  lemma CurrentSongAgreesOnDenseIds(st: PlayerState)
    requires forall k :: 0 <= k < |st.songs| ==> st.songs[k].id == k
    ensures CurrentSong(st) == CurrentSongById(st)
  {
    if 0 <= st.currentIndex < |st.songs| {
      assert st.songs[st.currentIndex].id == st.currentIndex;
    }
  }

  /** A playlist of songs 3 and 1 with song 3 current: the getter finds no song although song 3 is listed. */
  lemma CurrentSongMissesListedId(st: PlayerState)
    requires st.songs == EntriesOf([3, 1]) && st.currentIndex == 3
    ensures CurrentSong(st) == None
    ensures CurrentSongById(st) == Some(Entry(3, SongSrc(3)))
  {
    assert st.songs[0].id == 3;
  }
}
