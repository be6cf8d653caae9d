/** The animation player of examples/psyq/lib/animation.c (duplicated in
    examples/psyq/main.c): a track (0 idle, 1 walk), a frame index into the track's
    vertex tables and a timer that advances the frame every ANIM_SPEED calls,
    wrapping to frame 0 at the end of the track. */
module Animation {
  import opened Types

  /** `ANIM_SPEED` (animation.h:12): the frame advances every second call. */
  const AnimSpeed: int := 2

  /** The timer and the frame index, the part of the state updateAnimation changes. */
  datatype Clock = Clock(timer: int, frame: int)

  /** One call of updateAnimation on a track of `count` frames. */
  function Tick(c: Clock, count: int): Clock {
    var timer := c.timer + 1;
    if timer >= AnimSpeed then
      var frame := c.frame + 1;
      Clock(0, if frame >= count then 0 else frame)
    else
      Clock(timer, c.frame)
  }

  /** `j` calls of updateAnimation. */
  function Ticks(c: Clock, count: int, j: nat): Clock {
    if j == 0 then c else Tick(Ticks(c, count, j - 1), count)
  }

  /** The bounds updateAnimation keeps on a track with at least one frame. */
  predicate InRange(c: Clock, count: int) {
    0 <= c.timer < AnimSpeed && 0 <= c.frame < count
  }

  /** Given a positive frame count, one call keeps the timer below ANIM_SPEED and the
      frame below the frame count. */
  lemma TickInRange(c: Clock, count: int)
    requires InRange(c, count)
    ensures InRange(Tick(c, count), count)
  {
  }

  /** `a + b` calls are `a` calls followed by `b` calls. */
  lemma {:induction false} TicksAdd(c: Clock, count: int, a: nat, b: nat)
    ensures Ticks(c, count, a + b) == Ticks(Ticks(c, count, a), count, b)
  {
    if b > 0 {
      TicksAdd(c, count, a, b - 1);
    }
  }

  /** Two calls from timer 0 move to the next frame, wrapping at the count. */
  lemma TwoTicks(f: int, count: int)
    ensures Ticks(Clock(0, f), count, 2) == Clock(0, if f + 1 >= count then 0 else f + 1)
  {
    assert Ticks(Clock(0, f), count, 1) == Clock(1, f);
  }

  /** From frame 0 and timer 0, after `2j` calls the state is frame `j`, timer 0 and
      after `2j + 1` calls frame `j`, timer 1, for every `j` below the count: one frame
      every ANIM_SPEED calls. */
  lemma {:induction false} TicksFromStart(count: int, j: nat)
    requires j < count
    ensures Ticks(Clock(0, 0), count, AnimSpeed * j) == Clock(0, j)
    ensures Ticks(Clock(0, 0), count, AnimSpeed * j + 1) == Clock(1, j)
  {
    if j > 0 {
      TicksFromStart(count, j - 1);
      TicksAdd(Clock(0, 0), count, 2 * (j - 1), 2);
      TwoTicks(j - 1, count);
    }
    assert Ticks(Clock(0, 0), count, 2 * j + 1) == Tick(Clock(0, j), count);
  }

  /** The animation loops forever: `ANIM_SPEED * count` calls bring frame 0, timer 0
      back, and no fewer calls do. */
  lemma AnimationLoops(count: int, j: nat)
    requires count > 0
    ensures Ticks(Clock(0, 0), count, AnimSpeed * count) == Clock(0, 0)
    ensures 0 < j < AnimSpeed * count ==> Ticks(Clock(0, 0), count, j) != Clock(0, 0)
  {
    TicksFromStart(count, count - 1);
    TicksAdd(Clock(0, 0), count, 2 * (count - 1), 2);
    TwoTicks(count - 1, count);
    if 0 < j < AnimSpeed * count {
      TicksFromStart(count, j / 2);
      assert j == 2 * (j / 2) + j % 2;
    }
  }

  /** The globals `current_anim`, `current_frame` and `frame_timer` together with the
      two tracks' vertex tables (`idle_anim`, `walk_anim`; one row per frame, so a
      track's frame count is its number of rows). */
  class Player {
    var anim: int
    var frame: int
    var timer: int
    const idle: seq<seq<Svec>>
    const walk: seq<seq<Svec>>

    /** The globals' static initialisers: idle track, frame 0, timer 0. */
    constructor (idle: seq<seq<Svec>>, walk: seq<seq<Svec>>)
      ensures this.idle == idle && this.walk == walk
      ensures anim == 0 && frame == 0 && timer == 0
    {
      this.idle := idle;
      this.walk := walk;
      anim := 0;
      frame := 0;
      timer := 0;
    }

    /** getAnimFrameCount (animation.c:16-22): the idle count exactly when the track is 0. */
    function FrameCount(): (n: nat)
      reads this
      ensures anim == 0 ==> n == |idle|
      ensures anim != 0 ==> n == |walk|
    {
      if anim == 0 then |idle| else |walk|
    }

    function Clk(): Clock
      reads this
    {
      Clock(timer, frame)
    }

    /** The invariant: both tracks have frames, and timer and frame are in range. */
    predicate Valid()
      reads this
    {
      |idle| > 0 && |walk| > 0 && InRange(Clk(), FrameCount())
    }

    /** initAnimation (animation.c:10-14). */
    method Init()
      modifies this
      ensures anim == 0 && frame == 0 && timer == 0
      ensures |idle| > 0 && |walk| > 0 ==> Valid()
    {
      anim := 0;
      frame := 0;
      timer := 0;
    }

    /** getCurrentAnimVerts (animation.c:24-30): row `current_frame` of the current
        track's table. There is no fallback: the row must exist. */
    method CurrentVerts() returns (v: seq<Svec>)
      requires 0 <= frame < FrameCount()
      ensures anim == 0 ==> v == idle[frame]
      ensures anim != 0 ==> v == walk[frame]
    {
      if anim == 0 {
        v := idle[frame];
      } else {
        v := walk[frame];
      }
    }

    /** updateAnimation (animation.c:32-41): one Tick on the current track; the track
        is unchanged and the invariant is kept. */
    method Update()
      modifies this
      ensures anim == old(anim)
      ensures Clk() == Tick(old(Clk()), FrameCount())
      ensures old(Valid()) ==> Valid()
    {
      timer := timer + 1;
      if timer >= AnimSpeed {
        timer := 0;
        frame := frame + 1;
        if frame >= FrameCount() {
          frame := 0;
        }
      }
      if old(Valid()) {
        TickInRange(old(Clk()), FrameCount());
      }
    }

    /** The track switch of handleInput: `current_anim = !current_anim` and both
        counters back to 0. */
    method Switch()
      modifies this
      ensures anim == Not(old(anim)) && frame == 0 && timer == 0
      ensures |idle| > 0 && |walk| > 0 ==> Valid()
    {
      anim := Not(anim);
      frame := 0;
      timer := 0;
    }
  }
}
