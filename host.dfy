/**
 * The host objects the player drives but does not own: the HTML audio element
 * and the browser's animation-frame scheduler (`requestAnimationFrame` /
 * `cancelAnimationFrame`). Their own behaviour (decoding, timing, when a
 * frame fires) happens outside the model; the player's handlers and the host
 * events that call them are the methods of `Player.MusicPlayer`.
 */
module Host {
  import opened Clock

  /** The `<audio>` element: its clock, its metadata and its output volume. */
  class Audio {
    var currentTime: real
    var duration: Num        // NaN until the metadata has loaded
    var volume: real
    ghost var pendingPlays: nat  // promises returned by `play()` that have not settled

    ghost predicate Valid()
      reads this
    {
      currentTime >= 0.0 && (duration.Finite? ==> duration.value >= 0.0)
    }

    constructor ()
      ensures Valid()
      ensures currentTime == 0.0 && duration == NaN && volume == 1.0 && pendingPlays == 0
    {
      currentTime, duration, volume := 0.0, NaN, 1.0;
      pendingPlays := 0;
    }

    /** `load()`: the source restarts from position 0 with an unknown duration. */
    method Load()
      modifies this`currentTime, this`duration
      ensures Valid()
      ensures currentTime == 0.0 && duration == NaN
    {
      currentTime, duration := 0.0, NaN;
    }

    /** `play()`: starts playback and returns a promise that settles later. */
    method Play()
      modifies this`pendingPlays
      ensures pendingPlays == old(pendingPlays) + 1
    {
      pendingPlays := pendingPlays + 1;
    }

    /** One outstanding `play()` promise settles (resolved or rejected). */
    method Settle()
      requires pendingPlays > 0
      modifies this`pendingPlays
      ensures pendingPlays == old(pendingPlays) - 1
    {
      pendingPlays := pendingPlays - 1;
    }

    /** Host event: playback advanced or metadata arrived. */
    method Advance(time: real, dur: Num)
      requires time >= 0.0 && (dur.Finite? ==> dur.value >= 0.0)
      modifies this`currentTime, this`duration
      ensures Valid()
      ensures currentTime == time && duration == dur
    {
      currentTime, duration := time, dur;
    }
  }

  /**
   * The animation-frame queue. `pending` holds the handles whose callback is
   * still due; handles are positive, so 0 can stand for "no handle" (`null`).
   */
  class FrameScheduler {
    var pending: set<nat>
    var next: nat

    ghost predicate Valid()
      reads this
    {
      0 < next && 0 !in pending && forall h :: h in pending ==> h < next
    }

    constructor ()
      ensures Valid() && pending == {} && next == 1
    {
      pending, next := {}, 1;
    }

    /** `requestAnimationFrame`: a fresh positive handle joins the queue. */
    method Request() returns (h: nat)
      requires Valid()
      modifies this
      ensures Valid()
      ensures h == old(next) && h > 0 && h !in old(pending)
      ensures pending == old(pending) + {h} && next == old(next) + 1
    {
      h := next;
      pending := pending + {h};
      next := next + 1;
    }

    /** `cancelAnimationFrame(h)`, and also the host taking `h` off the queue to run it. */
    method Cancel(h: nat)
      requires Valid()
      modifies this`pending
      ensures Valid()
      ensures pending == old(pending) - {h}
    {
      pending := pending - {h};
    }
  }
}
