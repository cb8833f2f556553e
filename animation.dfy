/** The Animation class of Main.cpp (explosion sprites): a frame counter advanced by a
    fixed speed and wrapped around the number of frames, and the cleanup loop of
    update_state that erases finished animations. */
module Animations {
  import opened Geometry

  /** An sf::IntRect: one frame of the sprite sheet. */
  datatype IntRect = IntRect(left: int, top: int, width: int, height: int)

  /** What the frame counter needs of an Animation: Frame, speed and frames.size(). */
  datatype AnimState = AnimState(frame: real, speed: real, count: nat)

  /** The explosion that ast_get_hit and ck_optimize start: 64 frames at speed 0.6. */
  const EXPLOSION: AnimState := AnimState(0.0, 0.6, 64)

  /** The states the source's animations stay in: the counter is a valid frame and one
      step is at most a full turn. */
  predicate WellFormed(s: AnimState)
  {
    0.0 <= s.frame < s.count as real && 0.0 <= s.speed <= s.count as real
  }

  /** update(): Frame += speed, then one wrap-around by frames.size(). */
  function Advanced(s: AnimState): AnimState
  {
    var f := s.frame + s.speed;
    s.(frame := if f >= s.count as real then f - s.count as real else f)
  }

  /** isEnd(): the next step would run past the last frame. */
  predicate Ended(s: AnimState)
  {
    s.frame + s.speed >= s.count as real
  }

  /** update() keeps the counter a valid index into frames, so frames[int(Frame)] exists. */
  lemma AdvancedWellFormed(s: AnimState)
    requires WellFormed(s)
    ensures WellFormed(Advanced(s))
    ensures 0 <= TruncToInt(Advanced(s).frame) < s.count
  {
  }

  /** A step from a state that has not ended does not wrap around, so the counter grows. */
  lemma NotEndedAdvances(s: AnimState)
    requires !Ended(s)
    ensures Advanced(s).frame == s.frame + s.speed
  {
  }

  lemma ExplosionStarts()
    ensures WellFormed(EXPLOSION) && !Ended(EXPLOSION)
  {
  }

  /** The cleanup loop of update_state: walking forward, an animation that has ended is
      erased and the loop index still advances, so the animation that slid into its slot
      is skipped (neither checked nor updated) in this frame; every other one is updated. */
  function Cleanup(s: seq<AnimState>): seq<AnimState>
    decreases |s|
  {
    if s == [] then []
    else if Ended(s[0]) then (if |s| == 1 then [] else [s[1]] + Cleanup(s[2..]))
    else [Advanced(s[0])] + Cleanup(s[1..])
  }

  /** The cleanup loop's erase at index i: with the animation after i kept as it is, the
      list processed up to i + 1 is the list processed up to i. */
  lemma CleanupEraseStep(s: seq<AnimState>, i: nat)
    requires i < |s| && Ended(s[i])
    ensures var e := s[..i] + s[i + 1..];
      if i + 1 < |s| then e[..i + 1] + Cleanup(e[i + 1..]) == s[..i] + Cleanup(s[i..])
      else e == s[..i] + Cleanup(s[i..])
  {
    var e := s[..i] + s[i + 1..];
    if i + 1 < |s| {
      assert s[i..][2..] == s[i + 2..];
      assert e[..i + 1] == s[..i] + [s[i + 1]];
      assert e[i + 1..] == s[i + 2..];
    } else {
      assert e == s[..i];
    }
  }

  /** The cleanup loop's update at index i. */
  lemma CleanupAdvanceStep(s: seq<AnimState>, i: nat)
    requires i < |s| && !Ended(s[i])
    ensures var u := s[i := Advanced(s[i])];
      u[..i + 1] + Cleanup(u[i + 1..]) == s[..i] + Cleanup(s[i..])
  {
    var u := s[i := Advanced(s[i])];
    assert s[i..][1..] == s[i + 1..];
    assert u[..i + 1] == s[..i] + [Advanced(s[i])];
    assert u[i + 1..] == s[i + 1..];
  }

  /** Cleanup removes at most every other element. */
  lemma {:induction false} CleanupLength(s: seq<AnimState>)
    ensures |Cleanup(s)| <= |s| <= 2 * |Cleanup(s)| + 1
    decreases |s|
  {
    if s != [] {
      if Ended(s[0]) {
        if |s| > 1 {
          CleanupLength(s[2..]);
        }
      } else {
        CleanupLength(s[1..]);
      }
    }
  }

  /** When nothing has ended, every animation is updated and none is removed. */
  lemma {:induction false} CleanupNoneEnded(s: seq<AnimState>)
    requires forall k :: 0 <= k < |s| ==> !Ended(s[k])
    ensures |Cleanup(s)| == |s|
    ensures forall k :: 0 <= k < |s| ==> Cleanup(s)[k] == Advanced(s[k])
    decreases |s|
  {
    if s != [] {
      CleanupNoneEnded(s[1..]);
    }
  }

  /** The skip: after an erased animation the next one is kept exactly as it was, even
      when it has ended too. */
  lemma SkipsAfterErase(s: seq<AnimState>)
    requires |s| >= 2 && Ended(s[0])
    ensures Cleanup(s)[0] == s[1]
    ensures Ended(s[1]) ==> |Cleanup(s)| == |Cleanup(s[2..])| + 1
  {
  }

  /** Cleanup keeps every animation well formed. */
  lemma {:induction false} CleanupWellFormed(s: seq<AnimState>)
    requires forall k :: 0 <= k < |s| ==> WellFormed(s[k])
    ensures forall k :: 0 <= k < |Cleanup(s)| ==> WellFormed(Cleanup(s)[k])
    decreases |s|
  {
    if s != [] {
      if Ended(s[0]) {
        if |s| > 1 {
          CleanupWellFormed(s[2..]);
        }
      } else {
        AdvancedWellFormed(s[0]);
        CleanupWellFormed(s[1..]);
      }
    }
  }

  /** The frames the constructor builds: count rectangles side by side along a row. */
  function Strip(x: int, y: int, w: int, h: int, count: nat): seq<IntRect>
  {
    seq(count, i => IntRect(x + i * w, y, w, h))
  }

  class Animation {
    var frame: real
    var speed: real
    var frames: seq<IntRect>
    var shown: IntRect

    function State(): AnimState
      reads this
    {
      AnimState(frame, speed, |frames|)
    }

    ghost predicate Valid()
      reads this
    {
      WellFormed(State())
    }

    /** Animation(t, x, y, w, h, count, Speed). The source reads frames[0], so it needs at
        least one frame; its callers use 64 frames at speed 0.6. */
    constructor (x: int, y: int, w: int, h: int, count: nat, initialSpeed: real)
      requires count > 0 && 0.0 <= initialSpeed <= count as real
      ensures Valid()
      ensures frame == 0.0 && speed == initialSpeed && frames == Strip(x, y, w, h, count)
      ensures shown == frames[0]
    {
      frame := 0.0;
      speed := initialSpeed;
      var rects: seq<IntRect> := [];
      for i := 0 to count
        invariant rects == Strip(x, y, w, h, i)
      {
        rects := rects + [IntRect(x + i * w, y, w, h)];
      }
      frames := rects;
      shown := rects[0];
    }

    method Update()
      requires Valid()
      modifies this`frame, this`shown
      ensures Valid()
      ensures State() == Advanced(old(State()))
      ensures 0 <= TruncToInt(frame) < |frames| && shown == frames[TruncToInt(frame)]
    {
      frame := frame + speed;
      var n := |frames|;
      if frame >= n as real {
        frame := frame - n as real;
      }
      if n > 0 {
        AdvancedWellFormed(old(State()));
        shown := frames[TruncToInt(frame)];
      }
    }

    method IsEnd() returns (done: bool)
      ensures done <==> Ended(State())
    {
      done := frame + speed >= |frames| as real;
    }
  }
}
