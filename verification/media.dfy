/**
 * The page's single audio element, reduced to the fields the player reads
 * and writes. `duration == None` stands for NaN (metadata not loaded yet);
 * `src == None` for a source that was never assigned.
 */
module Media {
  import opened Wrappers

  /** A snapshot of the audio element's fields. */
  datatype Sink = Sink(
    src: Option<string>,
    paused: bool,
    muted: bool,
    volume: real,
    currentTime: real,
    duration: Option<real>)

  class Audio {
    var src: Option<string>
    var paused: bool
    var muted: bool
    var volume: real
    var currentTime: real
    var duration: Option<real>

    function State(): Sink
      reads this
    {
      Sink(src, paused, muted, volume, currentTime, duration)
    }

    /** A fresh element: no source, paused, not muted, full volume, unknown duration. */
    constructor ()
      ensures State() == Sink(None, true, false, 1.0, 0.0, None)
    {
      src := None;
      paused := true;
      muted := false;
      volume := 1.0;
      currentTime := 0.0;
      duration := None;
    }

    method Play()
      modifies this
      ensures State() == old(State()).(paused := false)
    {
      paused := false;
    }

    method Pause()
      modifies this
      ensures State() == old(State()).(paused := true)
    {
      paused := true;
    }
  }
}
