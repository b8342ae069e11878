/** The input and pacing logic of ClothRenderer (clcloth/main.cpp:413-440, 455-473),
    as pure transitions: what a key press does to the interaction state, and when a
    displayed frame runs physics. */
module FrameControl {
  import opened ClothConfig

  /** Minimum gap, in ms, that must be exceeded between two physics updates (C int division). */
  const FRAME_INTERVAL: int := 1000 / TARGET_FRAME_RATE

  /** The renderer's interaction state; the camera offset has four integer-valued components. */
  datatype Input = Input(paused: bool, singleStep: bool, showNormals: bool, camera: seq<int>)

  predicate IsToggleKey(key: char) { key == '\r' || key == '\n' }

  /** Keys that move the camera: the component they move and by how much. */
  predicate IsMoveKey(key: char) { key in {'w', 'a', 's', 'd', 'q', 'z'} }

  function MoveAxis(key: char): nat
    requires IsMoveKey(key)
  {
    if key == 'w' || key == 's' then 1 else if key == 'a' || key == 'd' then 0 else 2
  }

  function MoveDelta(key: char): int
    requires IsMoveKey(key)
  {
    if key == 'w' || key == 'd' || key == 'z' then 1 else -1
  }

  /** The key that undoes a camera move. */
  function Opposite(key: char): (o: char)
    requires IsMoveKey(key)
    ensures IsMoveKey(o) && MoveAxis(o) == MoveAxis(key) && MoveDelta(o) == -MoveDelta(key)
  {
    match key
    case 'w' => 's'
    case 's' => 'w'
    case 'a' => 'd'
    case 'd' => 'a'
    case 'q' => 'z'
    case _ => 'q'
  }

  /** Every key the handler reacts to. */
  predicate IsBoundKey(key: char)
  {
    IsToggleKey(key) || key in {' ', 'r', 'n', 'c'} || IsMoveKey(key)
  }

  /** Effect of one key press on the interaction state ('r' resets the cloth, not this state). */
  function ApplyKey(s: Input, key: char): (t: Input)
    requires |s.camera| == 4
    ensures |t.camera| == 4
  {
    if IsToggleKey(key) then s.(paused := !s.paused)
    else if key == ' ' then s.(singleStep := true)
    else if key == 'r' then s
    else if key == 'n' then s.(showNormals := !s.showNormals)
    else if key == 'w' then s.(camera := s.camera[1 := s.camera[1] + 1])
    else if key == 'a' then s.(camera := s.camera[0 := s.camera[0] - 1])
    else if key == 's' then s.(camera := s.camera[1 := s.camera[1] - 1])
    else if key == 'd' then s.(camera := s.camera[0 := s.camera[0] + 1])
    else if key == 'c' then s.(camera := [0, 0, 0, 0])
    else if key == 'q' then s.(camera := s.camera[2 := s.camera[2] - 1])
    else if key == 'z' then s.(camera := s.camera[2 := s.camera[2] + 1])
    else s
  }

  /** A camera key moves exactly its own component by its delta and changes nothing else. */
  lemma MoveKeyEffect(s: Input, key: char)
    requires |s.camera| == 4 && IsMoveKey(key)
    ensures ApplyKey(s, key) == s.(camera := s.camera[MoveAxis(key) := s.camera[MoveAxis(key)] + MoveDelta(key)])
  {
  }

  /** Opposite camera keys cancel. */
  lemma OppositeKeysCancel(s: Input, key: char)
    requires |s.camera| == 4 && IsMoveKey(key)
    ensures ApplyKey(ApplyKey(s, key), Opposite(key)) == s
  {
    MoveKeyEffect(s, key);
    MoveKeyEffect(ApplyKey(s, key), Opposite(key));
    assert ApplyKey(ApplyKey(s, key), Opposite(key)).camera == s.camera;
  }

  /** Return/newline and 'n' each flip one flag, so pressing them twice restores the state. */
  lemma TogglesAreInvolutions(s: Input, k1: char, k2: char)
    requires |s.camera| == 4
    requires (IsToggleKey(k1) && IsToggleKey(k2)) || (k1 == 'n' && k2 == 'n')
    ensures IsToggleKey(k1) ==> ApplyKey(s, k1) == s.(paused := !s.paused)
    ensures k1 == 'n' ==> ApplyKey(s, k1) == s.(showNormals := !s.showNormals)
    ensures ApplyKey(ApplyKey(s, k1), k2) == s
    ensures ApplyKey(s, k1).paused != s.paused <==> IsToggleKey(k1)
  {
  }

  /** 'c' zeroes the camera offset, keeps every flag, and pressing it again changes nothing. */
  lemma CenterKey(s: Input)
    requires |s.camera| == 4
    ensures forall i :: 0 <= i < 4 ==> ApplyKey(s, 'c').camera[i] == 0
    ensures ApplyKey(s, 'c').(camera := s.camera) == s
    ensures ApplyKey(ApplyKey(s, 'c'), 'c') == ApplyKey(s, 'c')
  {
  }

  /** A key the handler does not react to, and 'r', leave the interaction state alone; the
      space bar only requests a single step. */
  lemma InertKeys(s: Input, key: char)
    requires |s.camera| == 4
    ensures !IsBoundKey(key) || key == 'r' ==> ApplyKey(s, key) == s
    ensures ApplyKey(s, ' ') == s.(singleStep := true)
  {
  }

  /** What the frame loop remembers between frames. */
  datatype Control = Control(input: Input, lastUpdateTime: int)

  /** Physics runs on a frame at `time` when not paused (or a single step is pending) and more
      than FRAME_INTERVAL ms have passed since the last update. */
  predicate ShouldUpdate(c: Control, time: int)
  {
    (!c.input.paused || c.input.singleStep) && time - c.lastUpdateTime > FRAME_INTERVAL
  }

  /** Inputs to the renderer: a key press, or a displayed frame at a clock reading in ms. */
  datatype Event = KeyPress(key: char) | Frame(time: int)

  function OnEvent(c: Control, e: Event): (d: Control)
    requires |c.input.camera| == 4
    ensures |d.input.camera| == 4
  {
    match e
    case KeyPress(key) => c.(input := ApplyKey(c.input, key))
    case Frame(time) =>
      Control(c.input.(singleStep := false), if ShouldUpdate(c, time) then time else c.lastUpdateTime)
  }

  /** A frame clears the single-step request whether or not physics ran, records `time` when
      physics ran and otherwise keeps the time of the last update. */
  lemma FrameEffect(c: Control, time: int)
    requires |c.input.camera| == 4
    ensures !OnEvent(c, Frame(time)).input.singleStep
    ensures OnEvent(c, Frame(time)).input.(singleStep := c.input.singleStep) == c.input
    ensures OnEvent(c, Frame(time)).lastUpdateTime == if ShouldUpdate(c, time) then time else c.lastUpdateTime
  {
  }

  function Run(c: Control, events: seq<Event>): (d: Control)
    requires |c.input.camera| == 4
    ensures |d.input.camera| == 4
    decreases |events|
  {
    if events == [] then c else Run(OnEvent(c, events[0]), events[1..])
  }

  /** Number of frames in `events` that run physics. */
  function UpdateCount(c: Control, events: seq<Event>): nat
    requires |c.input.camera| == 4
    decreases |events|
  {
    if events == [] then 0
    else
      (if events[0].Frame? && ShouldUpdate(c, events[0].time) then 1 else 0)
      + UpdateCount(OnEvent(c, events[0]), events[1..])
  }

  /** Whatever keys are pressed in between, physics updates are more than FRAME_INTERVAL ms
      apart: k updates advance lastUpdateTime by at least k * (FRAME_INTERVAL + 1). */
  lemma {:induction false} UpdatesAreSpaced(c: Control, events: seq<Event>)
    requires |c.input.camera| == 4
    ensures Run(c, events).lastUpdateTime >= c.lastUpdateTime + (FRAME_INTERVAL + 1) * UpdateCount(c, events)
    decreases |events|
  {
    if events != [] {
      UpdatesAreSpaced(OnEvent(c, events[0]), events[1..]);
    }
  }

  predicate NoKeys(events: seq<Event>)
  {
    forall i :: 0 <= i < |events| ==> events[i].Frame?
  }

  /** Paused with no single step pending and no key pressed, no frame runs physics. */
  lemma {:induction false} PausedStaysStill(c: Control, events: seq<Event>)
    requires |c.input.camera| == 4 && c.input.paused && !c.input.singleStep && NoKeys(events)
    ensures UpdateCount(c, events) == 0
    decreases |events|
  {
    if events != [] {
      PausedStaysStill(OnEvent(c, events[0]), events[1..]);
    }
  }

  /** Paused with no key pressed, at most one frame runs physics: the pending single step,
      if any, is consumed by the first frame. */
  lemma {:induction false} PausedStepsAtMostOnce(c: Control, events: seq<Event>)
    requires |c.input.camera| == 4 && c.input.paused && NoKeys(events)
    ensures UpdateCount(c, events) <= 1
    decreases |events|
  {
    if events != [] {
      PausedStaysStill(OnEvent(c, events[0]), events[1..]);
    }
  }

  /** Running, with frames whose clock readings are more than FRAME_INTERVAL ms apart (the
      first one more than that after the last update), every frame runs physics. */
  lemma {:induction false} RunningUpdatesEveryFrame(c: Control, events: seq<Event>)
    requires |c.input.camera| == 4 && !c.input.paused && NoKeys(events)
    requires |events| > 0 ==> events[0].time - c.lastUpdateTime > FRAME_INTERVAL
    requires forall i :: 0 < i < |events| ==> events[i].time - events[i - 1].time > FRAME_INTERVAL
    ensures UpdateCount(c, events) == |events|
    decreases |events|
  {
    if events != [] {
      var d := OnEvent(c, events[0]);
      var rest := events[1..];
      if |rest| > 0 {
        assert rest[0] == events[1];
      }
      forall i | 0 < i < |rest|
        ensures rest[i].time - rest[i - 1].time > FRAME_INTERVAL
      {
        assert rest[i] == events[i + 1] && rest[i - 1] == events[i];
      }
      RunningUpdatesEveryFrame(d, rest);
    }
  }

  /** A single step requested less than FRAME_INTERVAL ms after the last update is dropped:
      that frame does not run physics, yet it clears the request. */
  lemma SingleStepCanBeDropped(c: Control, time: int)
    requires |c.input.camera| == 4 && c.input.paused && c.input.singleStep
    requires time - c.lastUpdateTime <= FRAME_INTERVAL
    ensures !ShouldUpdate(c, time)
    ensures !OnEvent(c, Frame(time)).input.singleStep
    ensures UpdateCount(OnEvent(c, Frame(time)), [Frame(time + FRAME_INTERVAL + 1)]) == 0
  {
  }
}
