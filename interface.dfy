// The input channels of the desktop application: the pressed-key map, the
// pause toggle on the space bar and the mouse and wheel deltas that the frame
// update hands to the camera.

module Input {
  import opened Engine

  /** Key codes the interface reacts to. */
  const SPACE: int := 32
  const KEY_Q: int := 'q' as int
  const KEY_E: int := 'e' as int
  const KEY_T: int := 't' as int

  /** A call `updateContext` makes on the camera, recorded in call order. */
  datatype CameraCall =
    | MoveZ(amount: real)
    | SetPosition(px: real, py: real, pz: real)
    | Rotate(dx: int, dy: int)

  /** The interface's fields together with the engine's run flag. */
  datatype InputState = InputState(
    keymap: map<int, bool>,
    mouse: bool,
    x: int, y: int,
    deltaX: int, deltaY: int,
    deltaWheel: int,
    run: bool)

  /** Whether `key` is down: a key never seen reads as released. */
  predicate Held(keymap: map<int, bool>, key: int) {
    key in keymap && keymap[key]
  }

  /**
   * Reading `keymap[key]` on the hash map inserts a released entry for a
   * missing key; what is held does not change.
   */
  function Touch(keymap: map<int, bool>, key: int): (r: map<int, bool>)
    ensures key in r && r[key] == Held(keymap, key)
  {
    if key in keymap then keymap else keymap[key := false]
  }

  /** A lookup adds at most its own key and changes no key's state. */
  lemma TouchKeeps(keymap: map<int, bool>, key: int)
    ensures Touch(keymap, key).Keys == keymap.Keys + {key}
    ensures forall j :: Held(Touch(keymap, key), j) == Held(keymap, j)
  {
  }

  /** Key `key` goes down; the space bar being down afterwards flips `run`. */
  function KeyDown(s: InputState, key: int): (r: InputState)
    ensures Held(r.keymap, key)
    ensures forall j :: j != key ==> Held(r.keymap, j) == Held(s.keymap, j)
    ensures r.keymap.Keys == s.keymap.Keys + {key, SPACE}
    ensures r.run == (s.run != (key == SPACE || Held(s.keymap, SPACE)))
    ensures r.(keymap := s.keymap, run := s.run) == s
  {
    var keys := s.keymap[key := true];
    s.(keymap := Touch(keys, SPACE), run := if Held(keys, SPACE) then !s.run else s.run)
  }

  /** Key `key` goes up; nothing else changes. */
  function KeyUp(s: InputState, key: int): (r: InputState)
    ensures !Held(r.keymap, key) && key in r.keymap
    ensures forall j :: j != key ==> Held(r.keymap, j) == Held(s.keymap, j)
    ensures r.keymap.Keys == s.keymap.Keys + {key}
    ensures r.(keymap := s.keymap) == s
  {
    s.(keymap := s.keymap[key := false])
  }

  /** A mouse button goes down (`pressed`) or up at `(px, py)`. */
  function MouseButton(s: InputState, pressed: bool, px: int, py: int): (r: InputState)
    ensures r.mouse == pressed
    ensures r.x == px && r.y == py && r.deltaX == 0 && r.deltaY == 0
    ensures r.keymap == s.keymap && r.deltaWheel == s.deltaWheel && r.run == s.run
  {
    s.(mouse := pressed, x := px, y := py, deltaX := 0, deltaY := 0)
  }

  /** The pointer moves to `(px, py)`; the anchor `(x, y)` stays. */
  function PointerMoved(s: InputState, px: int, py: int): (r: InputState)
    ensures r.x + r.deltaX == px && r.y + r.deltaY == py
    ensures r.(deltaX := s.deltaX, deltaY := s.deltaY) == s
  {
    s.(deltaX := px - s.x, deltaY := py - s.y)
  }

  /** The wheel turns by `delta`; steps accumulate, ten units each. */
  function WheelTurned(s: InputState, delta: int): (r: InputState)
    ensures r.deltaWheel - s.deltaWheel == 10 * delta
    ensures r.(deltaWheel := s.deltaWheel) == s
  {
    s.(deltaWheel := s.deltaWheel + delta * 10)
  }

  /** The camera calls of one frame: keys q, e, t, then the drag, then the wheel. */
  function CameraCalls(s: InputState): (calls: seq<CameraCall>)
    ensures Held(s.keymap, KEY_Q) <==> |calls| > 0 && calls[0] == MoveZ(1.0)
    ensures Held(s.keymap, KEY_T) <==> SetPosition(0.0, 0.0, 100.0) in calls
    ensures (s.deltaX != 0 || s.deltaY != 0) <==> Rotate(s.deltaX, s.deltaY) in calls
    ensures s.deltaWheel != 0 <==> |calls| > 0 && calls[|calls| - 1] == MoveZ((s.deltaWheel * 10) as real)
    ensures |calls| <= 5
  {
    KeyCalls(s.keymap) + DragCalls(s) + WheelCalls(s)
  }

  /** The camera calls driven by the held keys q, e and t, in that order. */
  function KeyCalls(keymap: map<int, bool>): seq<CameraCall> {
    (if Held(keymap, KEY_Q) then [MoveZ(1.0)] else [])
    + (if Held(keymap, KEY_E) then [MoveZ(-1.0)] else [])
    + (if Held(keymap, KEY_T) then [SetPosition(0.0, 0.0, 100.0)] else [])
  }

  /** The rotation a pending drag asks for. */
  function DragCalls(s: InputState): seq<CameraCall> {
    if s.deltaX != 0 || s.deltaY != 0 then [Rotate(s.deltaX, s.deltaY)] else []
  }

  /** The zoom a pending wheel turn asks for. */
  function WheelCalls(s: InputState): seq<CameraCall> {
    if s.deltaWheel != 0 then [MoveZ((s.deltaWheel * 10) as real)] else []
  }

  /** The state after a frame update: the anchor absorbs the drag and every delta is consumed. */
  function Consume(s: InputState): (r: InputState)
    ensures r.x == s.x + s.deltaX && r.y == s.y + s.deltaY
    ensures r.deltaX == 0 && r.deltaY == 0 && r.deltaWheel == 0
    ensures r.keymap == ReadKeymap(s.keymap)
    ensures r.mouse == s.mouse && r.run == s.run
  {
    s.(keymap := ReadKeymap(s.keymap), x := s.x + s.deltaX, y := s.y + s.deltaY,
       deltaX := 0, deltaY := 0, deltaWheel := 0)
  }

  /** The keymap after `updateContext` has looked up q, e and t. */
  function ReadKeymap(keymap: map<int, bool>): map<int, bool> {
    Touch(Touch(Touch(keymap, KEY_Q), KEY_E), KEY_T)
  }

  /** A frame update adds entries for q, e and t but releases and presses nothing. */
  lemma ReadKeymapKeeps(keymap: map<int, bool>)
    ensures ReadKeymap(keymap).Keys == keymap.Keys + {KEY_Q, KEY_E, KEY_T}
    ensures forall j :: Held(ReadKeymap(keymap), j) == Held(keymap, j)
  {
    TouchKeeps(keymap, KEY_Q);
    TouchKeeps(Touch(keymap, KEY_Q), KEY_E);
    TouchKeeps(Touch(Touch(keymap, KEY_Q), KEY_E), KEY_T);
  }

  /** Once space is down, every further key press flips `run` again. */
  lemma HeldSpaceToggles(s: InputState, key: int)
    requires Held(s.keymap, SPACE)
    ensures KeyDown(s, key).run == !s.run
  {
  }

  /** After space is released, pressing any other key leaves `run` alone. */
  lemma ReleasedSpaceKeepsRun(s: InputState, key: int)
    requires key != SPACE
    ensures KeyDown(KeyUp(s, SPACE), key).run == s.run
  {
  }

  /** A drag to `(px, py)` followed by a frame update leaves the anchor at `(px, py)`. */
  lemma DragThenConsume(s: InputState, px: int, py: int)
    ensures var r := Consume(PointerMoved(s, px, py));
      r.x == px && r.y == py && r.deltaX == 0 && r.deltaY == 0
  {
  }

  /** Two wheel turns before a frame update reach the camera as a single move of their sum. */
  lemma WheelTurnsAccumulate(s: InputState, d1: int, d2: int)
    requires s.deltaWheel == 0 && d1 + d2 != 0
    ensures var calls := CameraCalls(WheelTurned(WheelTurned(s, d1), d2));
      calls[|calls| - 1] == MoveZ((100 * (d1 + d2)) as real)
  {
  }

  /** A frame update with nothing pending makes no camera call and changes nothing but the keymap. */
  lemma IdleFrame(s: InputState)
    requires !Held(s.keymap, KEY_Q) && !Held(s.keymap, KEY_E) && !Held(s.keymap, KEY_T)
    requires s.deltaX == 0 && s.deltaY == 0 && s.deltaWheel == 0
    ensures CameraCalls(s) == []
    ensures Consume(s).(keymap := s.keymap) == s
  {
  }

  /** The input object: its own fields plus the flag it flips on the engine it drives. */
  class Interface {
    const engine: SimulationEngine
    var keymap: map<int, bool>
    var mouse: bool
    var x: int
    var y: int
    var deltaX: int
    var deltaY: int
    var deltaWheel: int

    function State(): InputState
      reads this, engine`run
    {
      InputState(keymap, mouse, x, y, deltaX, deltaY, deltaWheel, engine.run)
    }

    constructor (e: SimulationEngine)
      ensures engine == e
      ensures State() == InputState(map[], false, 0, 0, 0, 0, 0, e.run)
    {
      engine := e;
      keymap := map[];
      mouse := false;
      x, y := 0, 0;
      deltaX, deltaY, deltaWheel := 0, 0, 0;
    }

    method Down(key: int)
      modifies this`keymap, engine`run
      ensures State() == KeyDown(old(State()), key)
    {
      keymap := keymap[key := true];
      var space := Held(keymap, SPACE);
      keymap := Touch(keymap, SPACE);
      if space {
        engine.run := !engine.run;
      }
    }

    method Up(key: int)
      modifies this`keymap
      ensures State() == KeyUp(old(State()), key)
    {
      keymap := keymap[key := false];
    }

    method MouseDown(px: int, py: int)
      modifies this`mouse, this`x, this`y, this`deltaX, this`deltaY
      ensures State() == MouseButton(old(State()), true, px, py)
    {
      mouse := true;
      x, y := px, py;
      deltaX, deltaY := 0, 0;
    }

    method MouseUp(px: int, py: int)
      modifies this`mouse, this`x, this`y, this`deltaX, this`deltaY
      ensures State() == MouseButton(old(State()), false, px, py)
    {
      mouse := false;
      x, y := px, py;
      deltaX, deltaY := 0, 0;
    }

    method MouseMove(px: int, py: int)
      modifies this`deltaX, this`deltaY
      ensures State() == PointerMoved(old(State()), px, py)
    {
      deltaX := px - x;
      deltaY := py - y;
    }

    method MouseWheel(delta: int)
      modifies this`deltaWheel
      ensures State() == WheelTurned(old(State()), delta)
    {
      deltaWheel := deltaWheel + delta * 10;
    }

    /** One frame update; returns the calls it makes on the camera, in order. */
    method UpdateContext() returns (calls: seq<CameraCall>)
      modifies this`keymap, this`x, this`y, this`deltaX, this`deltaY, this`deltaWheel
      ensures State() == Consume(old(State()))
      ensures calls == CameraCalls(old(State()))
    {
      var keys := ReadKeys();
      var drag: seq<CameraCall> := [];
      if deltaX != 0 || deltaY != 0 {
        drag := [Rotate(deltaX, deltaY)];
        x, y := x + deltaX, y + deltaY;
        deltaX, deltaY := 0, 0;
      }
      var wheel: seq<CameraCall> := [];
      if deltaWheel != 0 {
        wheel := [MoveZ((deltaWheel * 10) as real)];
        deltaWheel := 0;
      }
      calls := keys + drag + wheel;
    }

    /** The key part of `updateContext`: q and e zoom, t resets the camera. */
    method ReadKeys() returns (calls: seq<CameraCall>)
      modifies this`keymap
      ensures keymap == ReadKeymap(old(keymap))
      ensures calls == KeyCalls(old(keymap))
    {
      var q := Held(keymap, KEY_Q);
      keymap := Touch(keymap, KEY_Q);
      var e := Held(keymap, KEY_E);
      keymap := Touch(keymap, KEY_E);
      var t := Held(keymap, KEY_T);
      keymap := Touch(keymap, KEY_T);
      calls := (if q then [MoveZ(1.0)] else [])
        + (if e then [MoveZ(-1.0)] else [])
        + (if t then [SetPosition(0.0, 0.0, 100.0)] else []);
    }
  }
}
