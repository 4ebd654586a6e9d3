/**
 * The `MusicPlayer` component: its React state, its two instance fields
 * (`animationFrameId`, `lastSaveTime`) and one method per handler. Each
 * handler is one atomic update. Calls to `onPlaybackUpdate` are recorded in
 * `reports` and calls to `onClose` are counted in `closeCalls`.
 */
module Player {
  import opened Optional
  import opened Songs
  import opened Clock
  import Volume
  import Throttle
  import opened Host

  /** The component's `this.state`. */
  datatype PlayerState = PlayerState(
    isPlaying: bool,
    currentTime: real,
    duration: real,
    volume: real,
    isMuted: bool,
    previousVolume: real,
    hasAutoPlayed: bool,
    hasRestoredPosition: bool)

  /** `prevSongId !== currentSongId && currentSongId`: the mounted track's identity changes to a non-empty one. */
  predicate NewTrack(prev: Option<Song>, next: Option<Song>)
  {
    TrackId(next) != "" && TrackId(next) != TrackId(prev)
  }

  const InitialState := PlayerState(false, 0.0, 0.0, 1.0, false, 1.0, false, false)

  class MusicPlayer {
    // props
    var song: Option<Song>
    const reportsPosition: bool    // an `onPlaybackUpdate` callback was passed
    const savedPlaybackTime: real  // `savedPlaybackTime`; 0 when it was not passed

    // state
    var isPlaying: bool
    var currentTime: real
    var duration: real
    var volume: real
    var isMuted: bool
    var previousVolume: real
    var hasAutoPlayed: bool
    var hasRestoredPosition: bool

    // instance fields
    var animationFrameId: nat  // 0 stands for `null`
    var lastSaveTime: int
    var mounted: bool

    // host objects
    const audio: Audio
    const frames: FrameScheduler

    // calls made upward
    ghost var reports: seq<real>   // the arguments of `onPlaybackUpdate`, in order
    ghost var saveTimes: seq<int>  // the `now` of every report made by the progress loop
    ghost var closeCalls: nat      // how often `onClose` was called

    function State(): PlayerState
      reads this`isPlaying, this`currentTime, this`duration, this`volume, this`isMuted
      reads this`previousVolume, this`hasAutoPlayed, this`hasRestoredPosition
    {
      PlayerState(isPlaying, currentTime, duration, volume, isMuted, previousVolume,
                  hasAutoPlayed, hasRestoredPosition)
    }

    function Level(): Volume.Level
      reads this`volume, this`isMuted, this`previousVolume
    {
      Volume.Level(volume, isMuted, previousVolume)
    }

    /** `audioRef.current` is set: the component is mounted and renders a song. */
    predicate Attached()
      reads this`mounted, this`song
    {
      mounted && song.Some?
    }

    ghost predicate Valid()
      reads this, audio, frames
    {
      && Volume.Valid(Level())
      && currentTime >= 0.0 && duration >= 0.0
      && audio.Valid() && frames.Valid()
      && animationFrameId < frames.next
      && SavesSpaced()
    }

    /** Reports of the running loop are throttled, and `lastSaveTime` is the time of the latest one. */
    ghost predicate SavesSpaced()
      reads this`saveTimes, this`lastSaveTime
    {
      && Throttle.Spaced(saveTimes)
      && lastSaveTime == (if saveTimes == [] then 0 else saveTimes[|saveTimes| - 1])
    }

    /** `constructor` followed by `componentDidMount`. */
    constructor (song: Option<Song>, reportsPosition: bool, savedPlaybackTime: real)
      ensures Valid() && fresh(audio) && fresh(frames)
      ensures State() == InitialState && mounted
      ensures this.song == song && this.reportsPosition == reportsPosition
      ensures this.savedPlaybackTime == savedPlaybackTime
      ensures animationFrameId == 0 && lastSaveTime == 0 && frames.pending == {} && frames.next == 1
      ensures reports == [] && saveTimes == [] && closeCalls == 0
      ensures audio.currentTime == 0.0 && audio.duration == NaN && audio.pendingPlays == 0
    {
      this.song := song;
      this.reportsPosition := reportsPosition;
      this.savedPlaybackTime := savedPlaybackTime;
      isPlaying, currentTime, duration := false, 0.0, 0.0;
      volume, isMuted, previousVolume := 1.0, false, 1.0;
      hasAutoPlayed, hasRestoredPosition := false, false;
      animationFrameId, lastSaveTime, mounted := 0, 0, true;
      audio := new Audio();
      frames := new FrameScheduler();
      reports, saveTimes, closeCalls := [], [], 0;
      new;
      if song.Some? {
        audio.Load();
      }
    }

    /** `if (this.animationFrameId) cancelAnimationFrame(this.animationFrameId)`. */
    method CancelFrame()
      requires Valid()
      modifies frames`pending
      ensures Valid()
      ensures frames.pending == old(frames.pending) - {animationFrameId}
    {
      if animationFrameId != 0 {
        frames.Cancel(animationFrameId);
      }
    }

    /**
     * `componentDidUpdate`: the `song` prop is now `next`. A new, non-empty
     * track identity cancels the loop, reloads the source and resets the
     * per-track state; volume settings survive.
     */
    method ReceiveSong(next: Option<Song>)
      requires Valid() && mounted
      modifies this`song, this`isPlaying, this`currentTime, this`duration
      modifies this`hasAutoPlayed, this`hasRestoredPosition
      modifies audio`currentTime, audio`duration, frames`pending
      ensures Valid() && song == next
      ensures NewTrack(old(song), next) ==>
        && State() == old(State()).(isPlaying := false, currentTime := 0.0, duration := 0.0,
                                    hasAutoPlayed := false, hasRestoredPosition := false)
        && frames.pending == old(frames.pending) - {animationFrameId}
        && audio.currentTime == 0.0 && audio.duration == NaN
      ensures !NewTrack(old(song), next) ==>
        && State() == old(State())
        && frames.pending == old(frames.pending)
        && audio.currentTime == old(audio.currentTime) && audio.duration == old(audio.duration)
    {
      var changed := NewTrack(song, next);
      song := next;
      if changed {
        CancelFrame();
        if Attached() {
          Reload();
        }
      }
    }

    /** The new source is loaded and the per-track state starts over. */
    method Reload()
      requires Valid()
      modifies this`isPlaying, this`currentTime, this`duration
      modifies this`hasAutoPlayed, this`hasRestoredPosition, audio`currentTime, audio`duration
      ensures Valid()
      ensures State() == old(State()).(isPlaying := false, currentTime := 0.0, duration := 0.0,
                                       hasAutoPlayed := false, hasRestoredPosition := false)
      ensures audio.currentTime == 0.0 && audio.duration == NaN
    {
      audio.Load();
      currentTime, duration := 0.0, 0.0;
      hasAutoPlayed, isPlaying, hasRestoredPosition := false, false, false;
    }

    /** `playAudio`: ask the element to play; the outcome arrives as `PlayResolved` or `PlayRejected`. */
    method PlayAudio()
      requires Valid()
      modifies audio`pendingPlays
      ensures Valid()
      ensures audio.pendingPlays == old(audio.pendingPlays) + (if Attached() then 1 else 0)
    {
      if Attached() {
        audio.Play();
      }
    }

    /**
     * `handleCanPlay`: apply the saved position once per track when it is
     * positive, and attempt auto-play once per track. It never sets `isPlaying`.
     */
    method HandleCanPlay()
      requires Valid() && mounted
      modifies this`currentTime, this`hasRestoredPosition, this`hasAutoPlayed
      modifies audio`currentTime, audio`pendingPlays
      ensures Valid()
      ensures var restore := !old(hasRestoredPosition) && savedPlaybackTime > 0.0 && Attached();
        && State() == old(State()).(
             currentTime := if restore then savedPlaybackTime else old(currentTime),
             hasRestoredPosition := old(hasRestoredPosition) || restore,
             hasAutoPlayed := true)
        && audio.currentTime == (if restore then savedPlaybackTime else old(audio.currentTime))
      ensures audio.pendingPlays == old(audio.pendingPlays) + (if !old(hasAutoPlayed) && Attached() then 1 else 0)
      ensures old(hasRestoredPosition) && old(hasAutoPlayed) ==>
        State() == old(State()) && audio.currentTime == old(audio.currentTime)
        && audio.pendingPlays == old(audio.pendingPlays)
    {
      RestorePosition();
      if !hasAutoPlayed {
        hasAutoPlayed := true;
        PlayAudio();
      }
    }

    /** The first half of `handleCanPlay`: seek to a positive saved position, once per track. */
    method RestorePosition()
      requires Valid()
      modifies this`currentTime, this`hasRestoredPosition, audio`currentTime
      ensures Valid()
      ensures var restore := !old(hasRestoredPosition) && savedPlaybackTime > 0.0 && Attached();
        && State() == old(State()).(
             currentTime := if restore then savedPlaybackTime else old(currentTime),
             hasRestoredPosition := old(hasRestoredPosition) || restore)
        && audio.currentTime == (if restore then savedPlaybackTime else old(audio.currentTime))
    {
      if !hasRestoredPosition && savedPlaybackTime > 0.0 && Attached() {
        audio.currentTime := savedPlaybackTime;
        currentTime, hasRestoredPosition := savedPlaybackTime, true;
      }
    }

    /**
     * The play promise resolves: playing is confirmed and the progress loop
     * starts. After unmount the state update is dropped, but the frame is
     * still requested.
     */
    method PlayResolved()
      requires Valid() && audio.pendingPlays > 0
      modifies this`isPlaying, this`animationFrameId, audio`pendingPlays, frames
      ensures Valid()
      ensures audio.pendingPlays == old(audio.pendingPlays) - 1
      ensures State() == if mounted then old(State()).(isPlaying := true) else old(State())
      ensures animationFrameId == old(frames.next) && animationFrameId !in old(frames.pending)
      ensures frames.pending == old(frames.pending) + {animationFrameId}
      ensures frames.next == old(frames.next) + 1
    {
      audio.Settle();
      if mounted {
        isPlaying := true;
      }
      ScheduleFrame();
    }

    /** `requestAnimationFrame(updateProgress)`, keeping the new handle. */
    method ScheduleFrame()
      requires Valid()
      modifies this`animationFrameId, frames
      ensures Valid()
      ensures animationFrameId == old(frames.next) && animationFrameId !in old(frames.pending)
      ensures frames.pending == old(frames.pending) + {animationFrameId}
      ensures frames.next == old(frames.next) + 1
    {
      animationFrameId := frames.Request();
    }

    /** The play promise is rejected (for instance by an autoplay policy): not playing. */
    method PlayRejected()
      requires Valid() && audio.pendingPlays > 0
      modifies this`isPlaying, audio`pendingPlays
      ensures Valid()
      ensures audio.pendingPlays == old(audio.pendingPlays) - 1
      ensures State() == if mounted then old(State()).(isPlaying := false) else old(State())
    {
      audio.Settle();
      if mounted {
        isPlaying := false;
      }
    }

    /** `pauseAudio`: stop, cancel the loop and report the element's position when it is positive. */
    method PauseAudio()
      requires Valid()
      modifies this`isPlaying, this`reports, frames`pending
      ensures Valid()
      ensures Attached() ==>
        && State() == old(State()).(isPlaying := false)
        && frames.pending == old(frames.pending) - {animationFrameId}
        && reports == old(reports) +
             (if reportsPosition && audio.currentTime > 0.0 then [audio.currentTime] else [])
      ensures !Attached() ==>
        State() == old(State()) && frames.pending == old(frames.pending) && reports == old(reports)
    {
      if Attached() {
        isPlaying := false;
        CancelFrame();
        ReportPositive(audio.currentTime);
      }
    }

    /** `onPlaybackUpdate(position)` guarded, as at every call site but the end of the track, by a positive position. */
    method ReportPositive(position: real)
      modifies this`reports
      ensures reports == old(reports) + (if reportsPosition && position > 0.0 then [position] else [])
    {
      if reportsPosition && position > 0.0 {
        reports := reports + [position];
      }
    }

    /** `togglePlayPause`: pause exactly when playing, otherwise ask to play. */
    method TogglePlayPause()
      requires Valid() && mounted
      modifies this`isPlaying, this`reports, frames`pending, audio`pendingPlays
      ensures Valid()
      ensures old(isPlaying) && Attached() ==>
        && State() == old(State()).(isPlaying := false)
        && frames.pending == old(frames.pending) - {animationFrameId}
        && reports == old(reports) +
             (if reportsPosition && audio.currentTime > 0.0 then [audio.currentTime] else [])
        && audio.pendingPlays == old(audio.pendingPlays)
      ensures !old(isPlaying) ==>
        && State() == old(State()) && frames.pending == old(frames.pending) && reports == old(reports)
        && audio.pendingPlays == old(audio.pendingPlays) + (if Attached() then 1 else 0)
      ensures !Attached() ==>
        State() == old(State()) && reports == old(reports) && audio.pendingPlays == old(audio.pendingPlays)
    {
      if isPlaying {
        PauseAudio();
      } else {
        PlayAudio();
      }
    }

    /** `handleTimeUpdate` (time-update and loaded-metadata events): copy the element's clock. */
    method HandleTimeUpdate()
      requires Valid() && mounted
      modifies this`currentTime, this`duration
      ensures Valid()
      ensures State() == if Attached()
        then old(State()).(currentTime := audio.currentTime, duration := OrZero(audio.duration))
        else old(State())
    {
      if Attached() {
        currentTime, duration := audio.currentTime, OrZero(audio.duration);
      }
    }

    /**
     * One run of `updateProgress`, the frame callback `handle`, at wall-clock
     * time `now`. While playing it copies the element's clock, reports at most
     * once per 2000 ms and schedules the next frame; otherwise the loop ends.
     */
    method UpdateProgress(handle: nat, now: int)
      requires Valid() && handle in frames.pending
      modifies this`currentTime, this`duration, this`lastSaveTime, this`animationFrameId
      modifies this`reports, this`saveTimes, frames
      ensures Valid()
      ensures var running := old(Attached() && isPlaying);
        var report := running && reportsPosition && Throttle.Due(now, old(lastSaveTime));
        && (running ==>
              && State() == old(State()).(currentTime := audio.currentTime, duration := OrZero(audio.duration))
              && animationFrameId == old(frames.next)
              && frames.pending == old(frames.pending) - {handle} + {animationFrameId})
        && (!running ==>
              && State() == old(State()) && animationFrameId == old(animationFrameId)
              && frames.pending == old(frames.pending) - {handle})
        && reports == old(reports) + (if report then [audio.currentTime] else [])
        && saveTimes == old(saveTimes) + (if report then [now] else [])
        && lastSaveTime == (if report then now else old(lastSaveTime))
    {
      frames.Cancel(handle);
      if Attached() && isPlaying {
        Sample(now);
      }
    }

    /** One frame of the running loop: copy the element's clocks, maybe report, schedule the next frame. */
    method Sample(now: int)
      requires Valid() && Attached() && isPlaying
      modifies this`currentTime, this`duration, this`lastSaveTime, this`animationFrameId
      modifies this`reports, this`saveTimes, frames
      ensures Valid()
      ensures State() == old(State()).(currentTime := audio.currentTime, duration := OrZero(audio.duration))
      ensures animationFrameId == old(frames.next)
      ensures frames.pending == old(frames.pending) + {animationFrameId}
      ensures var report := reportsPosition && Throttle.Due(now, old(lastSaveTime));
        && reports == old(reports) + (if report then [audio.currentTime] else [])
        && saveTimes == old(saveTimes) + (if report then [now] else [])
        && lastSaveTime == (if report then now else old(lastSaveTime))
    {
      var time := audio.currentTime;
      currentTime, duration := time, OrZero(audio.duration);
      SaveIfDue(time, now);
      ScheduleFrame();
    }

    /** The loop's throttled report: only when more than 2000 ms have passed since the last one. */
    method SaveIfDue(time: real, now: int)
      requires Valid()
      modifies this`reports, this`saveTimes, this`lastSaveTime
      ensures Valid()
      ensures var report := reportsPosition && Throttle.Due(now, old(lastSaveTime));
        && reports == old(reports) + (if report then [time] else [])
        && saveTimes == old(saveTimes) + (if report then [now] else [])
        && lastSaveTime == (if report then now else old(lastSaveTime))
    {
      if reportsPosition && Throttle.Due(now, lastSaveTime) {
        if saveTimes != [] {
          Throttle.AppendDue(saveTimes, now);
        }
        reports := reports + [time];
        saveTimes := saveTimes + [now];
        lastSaveTime := now;
      }
    }

    /** `handleSeek`: move both clocks to the slider's position; nothing is reported. */
    method HandleSeek(seekTime: real)
      requires Valid() && mounted && seekTime >= 0.0
      modifies this`currentTime, audio`currentTime
      ensures Valid()
      ensures Attached() ==>
        State() == old(State()).(currentTime := seekTime) && audio.currentTime == seekTime
      ensures !Attached() ==>
        State() == old(State()) && audio.currentTime == old(audio.currentTime)
    {
      if Attached() {
        audio.currentTime := seekTime;
        currentTime := seekTime;
      }
    }

    /** `handleVolumeChange` with a slider value `v`. */
    method HandleVolumeChange(v: real)
      requires Valid() && mounted && Volume.InSlider(v)
      modifies this`volume, this`isMuted, this`previousVolume, audio`volume
      ensures Valid()
      ensures Attached() ==> Level() == Volume.Change(old(Level()), v) && audio.volume == v
      ensures !Attached() ==> Level() == old(Level()) && audio.volume == old(audio.volume)
      ensures State() == old(State()).(volume := volume, isMuted := isMuted, previousVolume := previousVolume)
    {
      if Attached() {
        audio.volume := v;
        volume, isMuted := v, v == 0.0;
        previousVolume := if v > 0.0 then v else previousVolume;
      }
    }

    /** `toggleMute`. */
    method ToggleMute()
      requires Valid() && mounted
      modifies this`volume, this`isMuted, this`previousVolume, audio`volume
      ensures Valid()
      ensures Attached() ==> Level() == Volume.ToggleMute(old(Level())) && audio.volume == volume
      ensures !Attached() ==> Level() == old(Level()) && audio.volume == old(audio.volume)
      ensures State() == old(State()).(volume := volume, isMuted := isMuted, previousVolume := previousVolume)
    {
      if Attached() {
        if isMuted {
          var restored := if previousVolume != 0.0 then previousVolume else 1.0;
          audio.volume := restored;
          volume, isMuted := restored, false;
        } else {
          previousVolume, volume, isMuted := volume, 0.0, true;
          audio.volume := 0.0;
        }
      }
    }

    /** The `ended` event: cancel the loop, report position 0 and rewind. */
    method OnEnded()
      requires Valid() && mounted
      modifies this`isPlaying, this`currentTime, this`reports, frames`pending
      ensures Valid()
      ensures State() == old(State()).(isPlaying := false, currentTime := 0.0)
      ensures frames.pending == old(frames.pending) - {animationFrameId}
      ensures reports == old(reports) + (if reportsPosition then [0.0] else [])
    {
      CancelFrame();
      if reportsPosition {
        reports := reports + [0.0];
      }
      isPlaying, currentTime := false, 0.0;
    }

    /**
     * `handleClose`: report the displayed position when positive, pause (which
     * may report the element's position a second time), cancel the loop and
     * call `onClose`.
     */
    method HandleClose()
      requires Valid() && mounted
      modifies this`isPlaying, this`reports, this`closeCalls, frames`pending
      ensures Valid()
      ensures closeCalls == old(closeCalls) + 1
      ensures frames.pending == old(frames.pending) - {animationFrameId}
      ensures State() == if Attached() then old(State()).(isPlaying := false) else old(State())
      ensures reports == old(reports)
        + (if reportsPosition && currentTime > 0.0 then [currentTime] else [])
        + (if Attached() && reportsPosition && audio.currentTime > 0.0 then [audio.currentTime] else [])
    {
      ReportPositive(currentTime);
      PauseAudio();
      CancelFrame();
      closeCalls := closeCalls + 1;
    }

    /** `componentWillUnmount`: report the position when positive and cancel the loop. */
    method WillUnmount()
      requires Valid() && mounted
      modifies this`mounted, this`reports, frames`pending
      ensures Valid() && !mounted
      ensures State() == old(State())
      ensures frames.pending == old(frames.pending) - {animationFrameId}
      ensures reports == old(reports) + (if reportsPosition && currentTime > 0.0 then [currentTime] else [])
    {
      ReportPositive(currentTime);
      CancelFrame();
      mounted := false;
    }
  }

  /**
   * A client run: auto-play is attempted on can-play and the user presses
   * play before that attempt settles. Both attempts resolve, so two frame
   * loops are scheduled and `animationFrameId` keeps only the second. Pausing
   * cancels that one; the first loop is cancelled by nobody and ends on its
   * next frame because `isPlaying` is then false.
   */
  method OverlappingPlays() returns (afterPause: set<nat>, afterStaleFrame: set<nat>)
    ensures afterPause == {1}
    ensures afterStaleFrame == {}
  {
    var p := TwoLoops();
    p.TogglePlayPause();
    afterPause := p.frames.pending;
    p.UpdateProgress(1, 5000);
    afterStaleFrame := p.frames.pending;
  }

  /** The first half of the run above: can-play, a click on play, and both play attempts resolving. */
  method TwoLoops() returns (p: MusicPlayer)
    ensures fresh(p) && fresh(p.audio) && fresh(p.frames) && p.Valid()
    ensures p.Attached() && p.isPlaying
    ensures p.frames.pending == {1, 2} && p.animationFrameId == 2
  {
    p := new MusicPlayer(Some(Song("1", "", "Track", [], [], [])), false, 0.0);
    p.HandleCanPlay();
    assert !p.isPlaying && p.audio.pendingPlays == 1;
    p.TogglePlayPause();
    assert p.audio.pendingPlays == 2 && p.frames.pending == {} && p.frames.next == 1;
    p.PlayResolved();
    assert p.frames.pending == {1} && p.frames.next == 2;
    p.PlayResolved();
  }

  /**
   * A run with `onPlaybackUpdate` given: two frames 1000 ms apart while the
   * element advances. The first frame is more than 2000 ms after the initial
   * `lastSaveTime` of 0 and reports; the second is within the interval and only
   * copies the clock.
   */
  method ThrottledTicks() returns (lastSave: int, shown: real)
    ensures lastSave == 10000 && shown == 2.0
  {
    var p := PlayingWithReports();
    p.audio.Advance(1.5, Finite(200.0));
    p.UpdateProgress(1, 10000);
    assert p.reports == [1.5] && p.animationFrameId == 2;
    p.audio.Advance(2.0, Finite(200.0));
    p.UpdateProgress(2, 11000);
    assert p.reports == [1.5] && p.saveTimes == [10000];
    lastSave, shown := p.lastSaveTime, p.currentTime;
  }

  /** The setup of the run above: can-play, and the auto-play attempt resolving. */
  method PlayingWithReports() returns (p: MusicPlayer)
    ensures fresh(p) && fresh(p.audio) && fresh(p.frames) && p.Valid()
    ensures p.Attached() && p.isPlaying && p.reportsPosition
    ensures p.frames.pending == {1} && p.animationFrameId == 1 && p.frames.next == 2
    ensures p.reports == [] && p.saveTimes == [] && p.lastSaveTime == 0
  {
    p := new MusicPlayer(Some(Song("1", "", "Track", [], [], [])), true, 0.0);
    p.HandleCanPlay();
    p.PlayResolved();
  }
}
