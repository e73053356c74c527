/**
 The scroll-driven scene (apps/web/components/cinematic-car-3d.tsx): a frame loop that stops by
 itself, a fixed ring of eight smoke particles, and eased positions. Sines and cosines are inputs
 between -1 and 1; times are milliseconds; numbers are exact.
 */
module DriveScene {
  import opened Util

  const RING: nat := 8
  const DECAY: real := 0.018

  /** What one frame reads from the page. */
  datatype Input = Input(now: real, scrolled: real, mobile: bool, sine: real, cosine: real, bump: real)

  predicate Plausible(i: Input) {
    -1.0 <= i.sine <= 1.0 && -1.0 <= i.cosine <= 1.0 && -1.0 <= i.bump <= 1.0
  }

  /** The scene between two callbacks. */
  datatype Scene = Scene(
    lives: seq<real>, cursor: nat, lastProgress: real, lastOverlay: real,
    x: real, y: real, z: real, activeUntil: real, visible: bool, disposed: bool, scheduled: bool)

  // ------------------------------------------------------------------ one frame

  function Clamp(v: real): (r: real)
    ensures 0.0 <= r <= 1.0
  {
    if v < 0.0 then 0.0 else if v > 1.0 then 1.0 else v
  }

  function Abs(v: real): real { if v < 0.0 then -v else v }

  function Ceil(v: real): int { -((-v).Floor) }

  predicate Moving(progress: real) { progress > 0.006 }

  function Overlay(progress: real, mobile: bool): real {
    var blend := Clamp((progress - 0.008) / 0.055);
    var eased := blend * blend * (3.0 - 2.0 * blend);
    var arrival, content := Arrival(mobile), Content(mobile);
    arrival + (content - arrival) * eased
  }

  function Arrival(mobile: bool): real { if mobile then 0.54 else 0.84 }

  function Content(mobile: bool): real { if mobile then 0.26 else 0.38 }

  /** The overlay is only written when it differs enough from the last one written. */
  function OverlayAfter(last: real, overlay: real): real { if Abs(overlay - last) > 0.004 then overlay else last }

  function TargetX(i: Input, arabic: bool): real {
    if Moving(Clamp(i.scrolled)) then i.sine * (if i.mobile then 1.55 else 2.72) else if arabic then -1.4 else 1.4
  }

  function TargetY(i: Input): real {
    (if Moving(Clamp(i.scrolled)) then (if i.mobile then -1.08 else -1.02) else (if i.mobile then -1.05 else -0.58))
    + i.bump * 0.025
  }

  function TargetZ(i: Input): real {
    if Moving(Clamp(i.scrolled)) then -3.8 + (1.0 - i.cosine) / 2.0 * 5.15 else -0.55
  }

  function Ease(at: real, target: real, rate: real): real { at + (target - at) * rate }

  function Emissions(progress: real, last: real): (n: nat)
    ensures n <= 2
  {
    var velocity := Abs(progress - last);
    if Moving(progress) && velocity > 0.00004 && Ceil(velocity * 700.0) >= 0 then
      (if Ceil(velocity * 700.0) < 2 then Ceil(velocity * 700.0) else 2)
    else 0
  }

  /** The next count particles of the ring come to life. */
  function Emit(lives: seq<real>, cursor: nat, count: nat): (r: seq<real>)
    requires |lives| == RING
    ensures |r| == RING
    decreases count
  {
    if count == 0 then lives else Emit(lives[cursor % RING := 1.0], cursor + 1, count - 1)
  }

  function Fade(life: real): real {
    if life <= 0.0 then life else if life - DECAY < 0.0 then 0.0 else life - DECAY
  }

  function FadeAll(lives: seq<real>): (r: seq<real>)
    ensures |r| == |lives|
    ensures forall i :: 0 <= i < |r| ==> r[i] == Fade(lives[i])
  {
    seq(|lives|, i requires 0 <= i < |lives| => Fade(lives[i]))
  }

  predicate Smoking(lives: seq<real>) { exists i :: 0 <= i < |lives| && lives[i] > 0.0 }

  function Frame(s: Scene, arabic: bool, i: Input): (s': Scene)
    requires |s.lives| == RING
    ensures |s'.lives| == RING
  {
    if s.disposed || !s.visible then s.(scheduled := false)
    else
      var progress := Clamp(i.scrolled);
      var emissions := Emissions(progress, s.lastProgress);
      var lives := FadeAll(Emit(s.lives, s.cursor, emissions));
      s.(lives := lives, cursor := s.cursor + emissions, lastProgress := progress,
         lastOverlay := OverlayAfter(s.lastOverlay, Overlay(progress, i.mobile)),
         x := Ease(s.x, TargetX(i, arabic), 0.13), y := Ease(s.y, TargetY(i), 0.12), z := Ease(s.z, TargetZ(i), 0.11),
         scheduled := i.now < s.activeUntil || Smoking(lives))
  }

  function Resumed(s: Scene): Scene { if s.visible then s.(scheduled := true) else s }

  function Activated(s: Scene, until: real): Scene { Resumed(s.(activeUntil := until)) }

  function Shown(s: Scene, visible: bool): Scene {
    var s1 := s.(visible := visible);
    if visible then Resumed(s1) else s1
  }

  // ------------------------------------------------------------------ the component

  class Loop {
    const lives: array<real>
    const arabic: bool
    var cursor: nat
    var lastProgress: real
    var lastOverlay: real
    var x: real
    var y: real
    var z: real
    var activeUntil: real
    var visible: bool
    var disposed: bool
    /** The handle the component remembers, and the callbacks the browser really holds. */
    var animationFrame: Option<nat>
    var pending: set<nat>
    var nextHandle: nat

    ghost predicate Valid()
      reads this, lives
    {
      && lives.Length == RING
      && (forall i :: 0 <= i < RING ==> 0.0 <= lives[i] <= 1.0)
      && (animationFrame.Some? ==> animationFrame.value < nextHandle)
      && pending == (if disposed || animationFrame.None? then {} else {animationFrame.value})
    }

    ghost function View(): Scene
      reads this, lives
    {
      Scene(lives[..], cursor, lastProgress, lastOverlay, x, y, z, activeUntil, visible, disposed, animationFrame.Some?)
    }

    /** At most one callback is ever pending. */
    lemma OnePending()
      requires Valid()
      ensures |pending| <= 1
      ensures !disposed ==> (pending != {} <==> View().scheduled)
    {
    }

    constructor (arabic: bool, compact: bool, visible: bool, now: real)
      ensures Valid() && fresh(lives)
      ensures View() ==
        Activated(Scene(seq(RING, _ => 0.0), 0, 0.0, -1.0,
                        if arabic then (if compact then -1.55 else -1.4) else (if compact then 1.55 else 1.4),
                        if compact then -1.05 else -0.58, -0.55, 0.0, visible, false, false), now + 240.0)
      ensures OnStage(View())
    {
      this.arabic := arabic;
      lives := new real[RING](_ => 0.0);
      cursor, lastProgress, lastOverlay := 0, 0.0, -1.0;
      x := if arabic then (if compact then -1.55 else -1.4) else (if compact then 1.55 else 1.4);
      y := if compact then -1.05 else -0.58;
      z := -0.55;
      activeUntil := now + 240.0;
      this.visible, disposed := visible, false;
      animationFrame, pending, nextHandle := None, {}, 0;
      new;
      ResumeScene();
      assert lives[..] == seq(RING, _ => 0.0);
    }

    /** requestAnimationFrame, with its handle kept. */
    method Request()
      requires lives.Length == RING && forall i :: 0 <= i < RING ==> 0.0 <= lives[i] <= 1.0
      requires pending == {} && !disposed
      modifies this`pending, this`animationFrame, this`nextHandle
      ensures Valid() && View() == old(View()).(scheduled := true)
    {
      pending := pending + {nextHandle};
      animationFrame := Some(nextHandle);
      nextHandle := nextHandle + 1;
    }

    method ResumeScene()
      requires Valid() && !disposed
      modifies this`pending, this`animationFrame, this`nextHandle
      ensures Valid() && View() == Resumed(old(View()))
    {
      if visible && animationFrame.None? {
        Request();
      }
    }

    method ActivateDrive(now: real)
      requires Valid() && !disposed
      modifies this
      ensures Valid() && View() == Activated(old(View()), now + 520.0)
    {
      activeUntil := now + 520.0;
      ResumeScene();
    }

    method Resize(now: real)
      requires Valid() && !disposed
      modifies this
      ensures Valid() && View() == Activated(old(View()), now + 180.0)
    {
      activeUntil := now + 180.0;
      ResumeScene();
    }

    method VisibilityChanged(intersecting: bool)
      requires Valid() && !disposed
      modifies this
      ensures Valid() && View() == Shown(old(View()), intersecting)
    {
      visible := intersecting;
      if visible {
        ResumeScene();
      }
    }

    /** The effect's cleanup cancels the remembered frame. */
    method Dispose()
      requires Valid()
      modifies this
      ensures Valid() && pending == {} && View() == old(View()).(disposed := true)
    {
      disposed := true;
      if animationFrame.Some? {
        pending := pending - {animationFrame.value};
      }
    }

    method EmitSmoke(emissions: nat)
      requires lives.Length == RING && forall i :: 0 <= i < RING ==> 0.0 <= lives[i] <= 1.0
      modifies this`cursor, lives
      ensures forall i :: 0 <= i < RING ==> 0.0 <= lives[i] <= 1.0
      ensures lives[..] == Emit(old(lives[..]), old(cursor), emissions) && cursor == old(cursor) + emissions
    {
      var index := 0;
      while index < emissions
        invariant 0 <= index <= emissions && cursor == old(cursor) + index
        invariant forall i :: 0 <= i < RING ==> 0.0 <= lives[i] <= 1.0
        invariant Emit(lives[..], cursor, emissions - index) == Emit(old(lives[..]), old(cursor), emissions)
      {
        ghost var before := lives[..];
        lives[cursor % lives.Length] := 1.0;
        assert lives[..] == before[cursor % RING := 1.0];
        cursor := cursor + 1;
        index := index + 1;
      }
    }

    method FadeSmoke()
      requires lives.Length == RING && forall i :: 0 <= i < RING ==> 0.0 <= lives[i] <= 1.0
      modifies lives
      ensures forall i :: 0 <= i < RING ==> 0.0 <= lives[i] <= 1.0
      ensures lives[..] == FadeAll(old(lives[..]))
    {
      for k := 0 to lives.Length
        invariant forall i :: 0 <= i < k ==> lives[i] == Fade(old(lives[i]))
        invariant forall i :: k <= i < RING ==> lives[i] == old(lives[i])
      {
        if lives[k] > 0.0 {
          lives[k] := if lives[k] - DECAY < 0.0 then 0.0 else lives[k] - DECAY;
        }
      }
    }

    method MoveCar(progress: real, i: Input)
      modifies this`lastOverlay, this`x, this`y, this`z
      ensures lastOverlay == OverlayAfter(old(lastOverlay), Overlay(progress, i.mobile))
      ensures x == Ease(old(x), TargetX(i, arabic), 0.13)
      ensures y == Ease(old(y), TargetY(i), 0.12)
      ensures z == Ease(old(z), TargetZ(i), 0.11)
    {
      lastOverlay := OverlayAfter(lastOverlay, Overlay(progress, i.mobile));
      x := Ease(x, TargetX(i, arabic), 0.13);
      y := Ease(y, TargetY(i), 0.12);
      z := Ease(z, TargetZ(i), 0.11);
    }

    /** The browser runs the pending callback handle. */
    method Render(handle: nat, i: Input)
      requires Valid() && handle in pending
      modifies this, lives
      ensures Valid() && View() == Frame(old(View()), arabic, i)
    {
      pending := pending - {handle};
      if disposed || !visible {
        animationFrame := None;
        return;
      }
      var progress := Clamp(i.scrolled);
      MoveCar(progress, i);
      EmitSmoke(Emissions(progress, lastProgress));
      FadeSmoke();
      lastProgress := progress;
      if i.now < activeUntil || Smoking(lives[..]) {
        Request();
      } else {
        animationFrame := None;
      }
    }
  }

  // -------------------------------------------------------------- the loop stops

  /** n frames in a row, the k-th with the input of index k. */
  function Frames(s: Scene, arabic: bool, inputs: seq<Input>): (s': Scene)
    requires |s.lives| == RING
    ensures |s'.lives| == RING
    decreases |inputs|
  {
    if inputs == [] then s else Frames(Frame(s, arabic, inputs[0]), arabic, inputs[1..])
  }

  /** No scrolling, and the time the last event asked for is over. */
  predicate Still(s: Scene, progress: real, inputs: seq<Input>) {
    forall k :: 0 <= k < |inputs| ==> Clamp(inputs[k].scrolled) == progress && inputs[k].now >= s.activeUntil
  }

  /** The life a particle has left after n frames without a new emission. */
  function After(life: real, n: nat): real {
    if life <= 0.0 then life else if life - n as real * DECAY < 0.0 then 0.0 else life - n as real * DECAY
  }

  lemma AfterFade(life: real, n: nat)
    ensures After(Fade(life), n) == After(life, n + 1)
  {
    assert (n + 1) as real * DECAY == n as real * DECAY + DECAY;
  }

  lemma StillFrame(s: Scene, arabic: bool, i: Input)
    requires |s.lives| == RING && s.visible && !s.disposed
    requires Clamp(i.scrolled) == s.lastProgress && i.now >= s.activeUntil
    ensures var s' := Frame(s, arabic, i);
      && s'.lives == FadeAll(s.lives) && s'.scheduled == Smoking(s'.lives)
      && s'.visible && !s'.disposed && s'.lastProgress == s.lastProgress && s'.activeUntil == s.activeUntil
  {
  }

  lemma {:induction false} StillFrames(s: Scene, arabic: bool, inputs: seq<Input>)
    requires |s.lives| == RING && s.visible && !s.disposed && Still(s, s.lastProgress, inputs) && inputs != []
    ensures var s' := Frames(s, arabic, inputs);
      && (forall k :: 0 <= k < RING ==> s'.lives[k] == After(s.lives[k], |inputs|))
      && s'.scheduled == Smoking(s'.lives)
    decreases |inputs|
  {
    var s1 := Frame(s, arabic, inputs[0]);
    StillFrame(s, arabic, inputs[0]);
    forall k | 0 <= k < RING ensures forall n: nat :: After(Fade(s.lives[k]), n) == After(s.lives[k], n + 1) {
      forall n: nat ensures After(Fade(s.lives[k]), n) == After(s.lives[k], n + 1) {
        AfterFade(s.lives[k], n);
      }
    }
    if |inputs| > 1 {
      StillFrames(s1, arabic, inputs[1..]);
    } else {
      assert forall k :: 0 <= k < RING ==> s1.lives[k] == After(s.lives[k], 1);
    }
  }

  /**
   Once nothing scrolls and the time asked for is over, the loop runs exactly as long as some
   particle has life left: after n more frames it is still scheduled if and only if some life
   exceeded n decays.
   */
  lemma LoopLength(s: Scene, arabic: bool, inputs: seq<Input>)
    requires |s.lives| == RING && s.visible && !s.disposed && Still(s, s.lastProgress, inputs) && inputs != []
    ensures Frames(s, arabic, inputs).scheduled <==>
      exists k :: 0 <= k < RING && s.lives[k] > 0.0 && s.lives[k] > |inputs| as real * DECAY
  {
    var s' := Frames(s, arabic, inputs);
    StillFrames(s, arabic, inputs);
    if Smoking(s'.lives) {
      var k :| 0 <= k < RING && s'.lives[k] > 0.0;
      assert s.lives[k] > |inputs| as real * DECAY;
    }
    if k :| 0 <= k < RING && s.lives[k] > 0.0 && s.lives[k] > |inputs| as real * DECAY {
      assert s'.lives[k] > 0.0;
    }
  }

  predicate InUnit(lives: seq<real>) { forall k :: 0 <= k < |lives| ==> 0.0 <= lives[k] <= 1.0 }

  lemma {:induction false} EmitInUnit(lives: seq<real>, cursor: nat, count: nat)
    requires |lives| == RING && InUnit(lives)
    ensures InUnit(Emit(lives, cursor, count))
    decreases count
  {
    if count > 0 {
      EmitInUnit(lives[cursor % RING := 1.0], cursor + 1, count - 1);
    }
  }

  /** A frame leaves every life in the unit interval, and no life above 1 - DECAY. */
  lemma LivesInUnit(s: Scene, arabic: bool, i: Input)
    requires |s.lives| == RING && InUnit(s.lives)
    ensures InUnit(Frame(s, arabic, i).lives)
    ensures s.visible && !s.disposed ==> forall k :: 0 <= k < RING ==> Frame(s, arabic, i).lives[k] <= 1.0 - DECAY
  {
    EmitInUnit(s.lives, s.cursor, Emissions(Clamp(i.scrolled), s.lastProgress));
  }

  /**
   When scrolling has stopped and the time asked for is over, the loop has ended after 56 more
   frames, the first of which may still have seen the last of the scrolling.
   */
  lemma EndsWithin56Frames(s: Scene, arabic: bool, progress: real, inputs: seq<Input>)
    requires |s.lives| == RING && InUnit(s.lives) && s.visible && !s.disposed
    requires |inputs| >= 56 && Still(s, progress, inputs)
    ensures !Frames(s, arabic, inputs).scheduled
  {
    var s1 := Frame(s, arabic, inputs[0]);
    LivesInUnit(s, arabic, inputs[0]);
    assert s1.lastProgress == progress;
    assert Still(s1, progress, inputs[1..]);
    LoopLength(s1, arabic, inputs[1..]);
    assert |inputs[1..]| as real >= 55.0;
  }

  /** The bound is sharp: after 55 frames the smoke of the first one can still be there. */
  lemma FiftyFiveCanRun(s: Scene, arabic: bool, progress: real, inputs: seq<Input>)
    requires |s.lives| == RING && s.visible && !s.disposed
    requires |inputs| == 55 && Still(s, progress, inputs) && Emissions(progress, s.lastProgress) == 1
    ensures Frames(s, arabic, inputs).scheduled
  {
    var s1 := Frame(s, arabic, inputs[0]);
    assert Emit(s.lives, s.cursor, 1) == Emit(s.lives[s.cursor % RING := 1.0], s.cursor + 1, 0);
    assert s1.lives[s.cursor % RING] == Fade(1.0) == 0.982;
    assert Still(s1, progress, inputs[1..]);
    LoopLength(s1, arabic, inputs[1..]);
    assert |inputs[1..]| as real * DECAY == 0.972;
  }

  // ------------------------------------------------------------------ any run

  datatype Event = Scroll(now: real) | ResizeTo(now: real) | Intersects(yes: bool) | Tick(input: Input)

  function Step(s: Scene, arabic: bool, e: Event): (s': Scene)
    requires |s.lives| == RING
    ensures |s'.lives| == RING
  {
    match e
    case Scroll(now) => Activated(s, now + 520.0)
    case ResizeTo(now) => Activated(s, now + 180.0)
    case Intersects(yes) => Shown(s, yes)
    case Tick(input) => if s.scheduled then Frame(s, arabic, input) else s
  }

  function Run(s: Scene, arabic: bool, events: seq<Event>): (s': Scene)
    requires |s.lives| == RING
    ensures |s'.lives| == RING
    decreases |events|
  {
    if events == [] then s else Run(Step(s, arabic, events[0]), arabic, events[1..])
  }

  /** Where the car can be: x within the sway, y and z within their targets. */
  predicate OnStage(s: Scene) {
    && InUnit(s.lives) && 0.0 <= s.lastProgress <= 1.0
    && -2.72 <= s.x <= 2.72 && -1.105 <= s.y <= -0.555 && -3.8 <= s.z <= 1.35
  }

  lemma ProductSign(a: real, b: real)
    requires a >= 0.0 && b >= 0.0
    ensures a * b >= 0.0
  {
  }

  lemma EaseWithin(at: real, target: real, rate: real, low: real, high: real)
    requires low <= at <= high && low <= target <= high && 0.0 <= rate <= 1.0
    ensures low <= Ease(at, target, rate) <= high
  {
    ProductSign(1.0 - rate, at - low);
    ProductSign(rate, target - low);
    ProductSign(1.0 - rate, high - at);
    ProductSign(rate, high - target);
    assert Ease(at, target, rate) - low == (1.0 - rate) * (at - low) + rate * (target - low);
    assert high - Ease(at, target, rate) == (1.0 - rate) * (high - at) + rate * (high - target);
  }

  lemma FrameOnStage(s: Scene, arabic: bool, i: Input)
    requires |s.lives| == RING && OnStage(s) && Plausible(i)
    ensures OnStage(Frame(s, arabic, i))
  {
    LivesInUnit(s, arabic, i);
    EaseWithin(s.x, TargetX(i, arabic), 0.13, -2.72, 2.72);
    EaseWithin(s.y, TargetY(i), 0.12, -1.105, -0.555);
    EaseWithin(s.z, TargetZ(i), 0.11, -3.8, 1.35);
  }

  /** Through any interleaving of scrolls, resizes, visibility changes and frames the car stays on stage. */
  lemma {:induction false} StaysOnStage(s: Scene, arabic: bool, events: seq<Event>)
    requires |s.lives| == RING && OnStage(s)
    requires forall e :: e in events && e.Tick? ==> Plausible(e.input)
    ensures OnStage(Run(s, arabic, events))
    decreases |events|
  {
    if events != [] {
      if events[0].Tick? {
        FrameOnStage(s, arabic, events[0].input);
      }
      StaysOnStage(Step(s, arabic, events[0]), arabic, events[1..]);
    }
  }

  // --------------------------------------------------------- overlay and easing

  function Smooth(t: real): real { t * t * (3.0 - 2.0 * t) }

  lemma SmoothGrows(t: real, u: real)
    requires 0.0 <= t <= u <= 1.0
    ensures Smooth(t) <= Smooth(u)
  {
    var d, slope := u - t, 3.0 * (t + u) - 2.0 * (t * t + t * u + u * u);
    ProductSign(t, 1.0 - t);
    ProductSign(u, 1.0 - u);
    ProductSign(t, 1.0 - u);
    ProductSign(u, 1.0 - t);
    assert slope == 2.0 * (t * (1.0 - t)) + 2.0 * (u * (1.0 - u)) + t * (1.0 - u) + u * (1.0 - t);
    ProductSign(d, slope);
    assert Smooth(u) - Smooth(t) == d * slope;
  }

  /** The overlay stays between its two ends and never gets stronger as the page scrolls down. */
  lemma OverlayFades(p: real, q: real, mobile: bool)
    requires 0.0 <= p <= q <= 1.0
    ensures Content(mobile) <= Overlay(q, mobile) <= Overlay(p, mobile) <= Arrival(mobile)
  {
    var t, u := Clamp((p - 0.008) / 0.055), Clamp((q - 0.008) / 0.055);
    assert t <= u;
    SmoothGrows(0.0, t);
    SmoothGrows(t, u);
    SmoothGrows(u, 1.0);
    assert Overlay(p, mobile) == Arrival(mobile) + (Content(mobile) - Arrival(mobile)) * Smooth(t);
    assert Overlay(q, mobile) == Arrival(mobile) + (Content(mobile) - Arrival(mobile)) * Smooth(u);
  }

  /** toFixed(3) of a positive number. */
  function Fixed3(v: real): real { (v * 1000.0 + 0.5).Floor as real / 1000.0 }

  lemma Fixed3Close(v: real)
    ensures v - 0.0005 <= Fixed3(v) <= v + 0.0005
  {
    var f := (v * 1000.0 + 0.5).Floor as real;
    assert v * 1000.0 - 0.5 <= f <= v * 1000.0 + 0.5;
  }

  /** Every rendered frame leaves the overlay on the page, written with three decimals, within 0.0045 of the true one. */
  lemma OverlayWritten(s: Scene, arabic: bool, i: Input)
    requires |s.lives| == RING && s.visible && !s.disposed
    ensures var last, overlay := Frame(s, arabic, i).lastOverlay, Overlay(Clamp(i.scrolled), i.mobile);
      Abs(last - overlay) <= 0.004 && Abs(Fixed3(last) - overlay) <= 0.0045
  {
    Fixed3Close(Frame(s, arabic, i).lastOverlay);
  }

  function Power(base: real, n: nat): real { if n == 0 then 1.0 else base * Power(base, n - 1) }

  function Eased(at: real, target: real, rate: real, n: nat): real
    decreases n
  {
    if n == 0 then at else Eased(Ease(at, target, rate), target, rate, n - 1)
  }

  lemma EaseStep(at: real, target: real, rate: real)
    ensures Ease(at, target, rate) - target == (1.0 - rate) * (at - target)
  {
  }

  lemma Regroup(p: real, b: real, d: real, step: real)
    requires step == b * d
    ensures p * step == b * p * d
  {
    assert p * (b * d) == b * p * d;
  }

  /** Towards a fixed target the distance shrinks by the same factor every frame. */
  lemma {:induction false} EasesGeometrically(at: real, target: real, rate: real, n: nat)
    ensures Eased(at, target, rate, n) - target == Power(1.0 - rate, n) * (at - target)
    decreases n
  {
    if n > 0 {
      var next := Ease(at, target, rate);
      EaseStep(at, target, rate);
      EasesGeometrically(next, target, rate, n - 1);
      Regroup(Power(1.0 - rate, n - 1), 1.0 - rate, at - target, next - target);
    }
  }

  lemma {:induction false} XApproaches(s: Scene, arabic: bool, inputs: seq<Input>, target: real)
    requires |s.lives| == RING && s.visible && !s.disposed
    requires forall k :: 0 <= k < |inputs| ==> TargetX(inputs[k], arabic) == target
    ensures Frames(s, arabic, inputs).x - target == Power(0.87, |inputs|) * (s.x - target)
    decreases |inputs|
  {
    XEased(s, arabic, inputs, target);
    EasesGeometrically(s.x, target, 0.13, |inputs|);
  }

  lemma {:induction false} XEased(s: Scene, arabic: bool, inputs: seq<Input>, target: real)
    requires |s.lives| == RING && s.visible && !s.disposed
    requires forall k :: 0 <= k < |inputs| ==> TargetX(inputs[k], arabic) == target
    ensures Frames(s, arabic, inputs).x == Eased(s.x, target, 0.13, |inputs|)
    decreases |inputs|
  {
    if inputs != [] {
      var s1 := Frame(s, arabic, inputs[0]);
      assert forall k :: 0 <= k < |inputs[1..]| ==> TargetX(inputs[1..][k], arabic) == TargetX(inputs[k + 1], arabic);
      XEased(s1, arabic, inputs[1..], target);
    }
  }
}
