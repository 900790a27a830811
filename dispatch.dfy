/**
 The window procedure and the per-frame pump. The native message queue is an
 explicit sequence of messages; the window's user-data pointer is the optional
 `app` argument; the function-local static `prevParam` of the window procedure is
 a field of `WndProc`.

 The pure part (`Step`, `Drain`, `PumpSpec` over `DispatchState`) specifies the
 imperative part (`WndProc.Dispatch`, `WndProc.GameLoop`), and the lemmas state
 what one frame does to the input state.
 */
module Dispatch {
  import opened Wrappers
  import opened Input
  import opened Keys
  import opened OpenGLApp

  // ---------------------------------------------------------------------------
  // LPARAM words

  /** A message's LPARAM, a signed machine word. */
  type LParam = int

  /** LOWORD: the low 16 bits (Euclidean `%` agrees with masking the two's complement). */
  function LoWord(l: LParam): (w: nat)
    ensures w < 0x10000
  {
    l % 0x10000
  }

  /** HIWORD: bits 16..31. */
  function HiWord(l: LParam): (w: nat)
    ensures w < 0x10000
  {
    (l / 0x10000) % 0x10000
  }

  /** The 16-bit word read as a `short`. */
  function SignedShort(w: nat): (v: int)
    requires w < 0x10000
    ensures -0x8000 <= v < 0x8000
    ensures v % 0x10000 == w
  {
    if w < 0x8000 then w else w - 0x10000
  }

  /** GET_X_LPARAM and GET_Y_LPARAM. */
  function GetX(l: LParam): int { SignedShort(LoWord(l)) }
  function GetY(l: LParam): int { SignedShort(HiWord(l)) }

  /** MAKELPARAM: the word pair a message carries. */
  function MakeLParam(lo: nat, hi: nat): LParam
    requires lo < 0x10000 && hi < 0x10000
  {
    hi * 0x10000 + lo
  }

  /** The LPARAM of a mouse message at client position (x, y). */
  function PointLParam(x: int, y: int): LParam
    requires -0x8000 <= x < 0x8000 && -0x8000 <= y < 0x8000
  {
    MakeLParam(x % 0x10000, y % 0x10000)
  }

  lemma {:induction false} WordsRoundTrip(lo: nat, hi: nat)
    requires lo < 0x10000 && hi < 0x10000
    ensures LoWord(MakeLParam(lo, hi)) == lo
    ensures HiWord(MakeLParam(lo, hi)) == hi
  {
    var l := MakeLParam(lo, hi);
    assert l / 0x10000 == hi;
  }

  lemma {:induction false} PointRoundTrip(x: int, y: int)
    requires -0x8000 <= x < 0x8000 && -0x8000 <= y < 0x8000
    ensures GetX(PointLParam(x, y)) == x
    ensures GetY(PointLParam(x, y)) == y
  {
    WordsRoundTrip(x % 0x10000, y % 0x10000);
  }

  // ---------------------------------------------------------------------------
  // Messages and their effect

  datatype Message =
    | KeyDown(wParam: nat)
    | KeyUp(wParam: nat)
    | LButtonDown | LButtonUp
    | RButtonDown | RButtonUp
    | MButtonDown | MButtonUp
    | MouseMove(lParam: LParam)
    | Size(lParam: LParam)
    | Quit
    | Other

  /** Whether `m` is a key message that reaches slot `k` of the key states. */
  predicate TouchesKey(m: Message, k: nat)
  {
    (m.KeyDown? || m.KeyUp?) && MapKey(m.wParam) == k && k != KeyUnknown
  }

  predicate IsButtonMessage(m: Message)
  {
    m.LButtonDown? || m.LButtonUp? || m.RButtonDown? || m.RButtonUp? ||
    m.MButtonDown? || m.MButtonUp?
  }

  /** What the window procedure does to an attached app for one message. */
  function DispatchApp(a: Snapshot, prevParam: Option<LParam>, m: Message): (b: Snapshot)
    requires WellFormed(a)
    ensures WellFormed(b)
  {
    match m
    case KeyDown(code) =>
      var k := MapKey(code);
      if k != KeyUnknown then a.(keys := a.keys[k := AfterKeyDown(a.keys[k])]) else a
    case KeyUp(code) =>
      var k := MapKey(code);
      if k != KeyUnknown then a.(keys := a.keys[k := AfterKeyUp(a.keys[k])]) else a
    case LButtonDown => a.(buttons := a.buttons[MouseLeftButton := AfterKeyDown(a.buttons[MouseLeftButton])])
    case LButtonUp => a.(buttons := a.buttons[MouseLeftButton := AfterKeyUp(a.buttons[MouseLeftButton])])
    case RButtonDown => a.(buttons := a.buttons[MouseRightButton := AfterKeyDown(a.buttons[MouseRightButton])])
    case RButtonUp => a.(buttons := a.buttons[MouseRightButton := AfterKeyUp(a.buttons[MouseRightButton])])
    case MButtonDown => a.(buttons := a.buttons[MouseMiddleButton := AfterKeyDown(a.buttons[MouseMiddleButton])])
    case MButtonUp => a.(buttons := a.buttons[MouseMiddleButton := AfterKeyUp(a.buttons[MouseMiddleButton])])
    case MouseMove(l) =>
      // the static is initialised from the first mouse message it sees
      var prev := if prevParam.Some? then prevParam.value else l;
      a.(mousePosX := GetX(l), mousePosY := GetY(l),
         mouseDiffX := GetX(prev) - GetX(l), mouseDiffY := GetY(prev) - GetY(l))
    case Size(l) => a.(width := LoWord(l), height := HiWord(l), resized := true)
    case _ => a
  }

  /** The window procedure's own state together with the attached app, if any. */
  datatype DispatchState = DispatchState(app: Option<Snapshot>, prevParam: Option<LParam>)

  predicate StateOk(st: DispatchState)
  {
    st.app.Some? ==> WellFormed(st.app.value)
  }

  /** One message through the window procedure. */
  function Step(st: DispatchState, m: Message): (r: DispatchState)
    requires StateOk(st)
    ensures StateOk(r) && r.app.Some? == st.app.Some?
  {
    DispatchState(
      if st.app.Some? then Some(DispatchApp(st.app.value, st.prevParam, m)) else None,
      if m.MouseMove? then Some(m.lParam) else st.prevParam)
  }

  /** The outcome of draining the queue: new state, whether to keep running, what is left queued. */
  datatype PumpResult = PumpResult(state: DispatchState, running: bool, rest: seq<Message>)

  /** Takes messages off the front of the queue until it is empty or a quit message is taken. */
  function Drain(st: DispatchState, q: seq<Message>): (r: PumpResult)
    requires StateOk(st)
    ensures StateOk(r.state) && r.state.app.Some? == st.app.Some?
    decreases |q|
  {
    if q == [] then PumpResult(st, true, [])
    else if q[0] == Quit then PumpResult(st, false, q[1..])
    else Drain(Step(st, q[0]), q[1..])
  }

  /** The start-of-frame decay: transient key states settle, the resize flag clears. */
  function Decayed(a: Snapshot): (b: Snapshot)
    requires WellFormed(a)
    ensures WellFormed(b)
    ensures forall k :: 0 <= k < KeyboardButtonsCount ==> !Transient(b.keys[k])
  {
    a.(keys := seq(|a.keys|, k requires 0 <= k < |a.keys| => Decay(a.keys[k])), resized := false)
  }

  /** One call of the game loop. */
  function PumpSpec(st: DispatchState, q: seq<Message>): (r: PumpResult)
    requires StateOk(st)
    ensures StateOk(r.state) && r.state.app.Some? == st.app.Some?
  {
    var start := if st.app.Some? then st.(app := Some(Decayed(st.app.value))) else st;
    Drain(start, q)
  }

  // ---------------------------------------------------------------------------
  // Reference semantics: replaying a queue with no quit in it

  /** Applies every message of `q`, last message last (a left fold). */
  function Replay(st: DispatchState, q: seq<Message>): (r: DispatchState)
    requires StateOk(st)
    ensures StateOk(r) && r.app.Some? == st.app.Some?
    decreases |q|
  {
    if q == [] then st else Step(Replay(st, q[..|q| - 1]), q[|q| - 1])
  }

  /** The position of the first quit message. */
  function FirstQuit(q: seq<Message>): (i: nat)
    requires Quit in q
    ensures i < |q| && q[i] == Quit
    ensures forall j :: 0 <= j < i ==> q[j] != Quit
  {
    if q[0] == Quit then 0 else 1 + FirstQuit(q[1..])
  }

  /** The messages a pump dispatches: all of them, or those before the first quit. */
  function Dispatched(q: seq<Message>): (d: seq<Message>)
    ensures Quit !in d
  {
    if Quit in q then q[..FirstQuit(q)] else q
  }

  lemma {:induction false} ReplayCons(st: DispatchState, m: Message, q: seq<Message>)
    requires StateOk(st)
    ensures Replay(st, [m] + q) == Replay(Step(st, m), q)
    decreases |q|
  {
    if q != [] {
      assert ([m] + q)[..|[m] + q| - 1] == [m] + q[..|q| - 1];
      ReplayCons(st, m, q[..|q| - 1]);
    }
  }

  /**
   Draining the queue is replaying the messages before the first quit; the pump keeps
   running iff there is no quit, and the messages after the quit stay queued.
   */
  lemma {:induction false} DrainIsReplay(st: DispatchState, q: seq<Message>)
    requires StateOk(st)
    ensures Drain(st, q).state == Replay(st, Dispatched(q))
    ensures Drain(st, q).running == (Quit !in q)
    ensures Drain(st, q).rest == if Quit in q then q[FirstQuit(q) + 1..] else []
    decreases |q|
  {
    if q != [] && q[0] != Quit {
      DrainIsReplay(Step(st, q[0]), q[1..]);
      assert Quit in q <==> Quit in q[1..] by {
        assert q == [q[0]] + q[1..];
      }
      if Quit in q {
        assert FirstQuit(q) == 1 + FirstQuit(q[1..]);
        assert Dispatched(q) == [q[0]] + Dispatched(q[1..]);
        assert q[FirstQuit(q) + 1..] == q[1..][FirstQuit(q[1..]) + 1..];
      } else {
        assert Dispatched(q) == [q[0]] + Dispatched(q[1..]);
      }
      ReplayCons(st, q[0], Dispatched(q[1..]));
    }
  }

  // ---------------------------------------------------------------------------
  // Single-message properties

  /**
   A key message whose code maps to KeyUnknown changes nothing; any other key message
   changes only the slot of its key, by the key-down or key-up transition.
   */
  lemma KeyMessageEffect(a: Snapshot, prev: Option<LParam>, m: Message)
    requires WellFormed(a) && (m.KeyDown? || m.KeyUp?)
    ensures MapKey(m.wParam) == KeyUnknown ==> DispatchApp(a, prev, m) == a
    ensures MapKey(m.wParam) != KeyUnknown ==>
      var k := MapKey(m.wParam);
      var b := DispatchApp(a, prev, m);
      && b.keys[k] == (if m.KeyDown? then AfterKeyDown(a.keys[k]) else AfterKeyUp(a.keys[k]))
      && (forall j :: 0 <= j < KeyboardButtonsCount && j != k ==> b.keys[j] == a.keys[j])
      && b == a.(keys := b.keys)
  {
  }

  /** A mouse-button message rewrites its own fixed slot of the button states and nothing else. */
  lemma ButtonMessageEffect(a: Snapshot, prev: Option<LParam>, m: Message)
    requires WellFormed(a) && IsButtonMessage(m)
    ensures
      var slot := if m.LButtonDown? || m.LButtonUp? then MouseLeftButton
                  else if m.RButtonDown? || m.RButtonUp? then MouseRightButton
                  else MouseMiddleButton;
      var down := m.LButtonDown? || m.RButtonDown? || m.MButtonDown?;
      var b := DispatchApp(a, prev, m);
      && b.buttons[slot] == (if down then AfterKeyDown(a.buttons[slot]) else AfterKeyUp(a.buttons[slot]))
      && (forall j :: 0 <= j < MouseButtonsCount && j != slot ==> b.buttons[j] == a.buttons[j])
      && b == a.(buttons := b.buttons)
  {
  }

  /**
   A mouse move records the new position and the delta previous - current; the very
   first move of the process has delta (0, 0); the previous sample is updated whether
   or not an app is attached. Keys, buttons, size and the resize flag stay as they were.
   */
  lemma MouseMoveEffect(st: DispatchState, x: int, y: int)
    requires StateOk(st)
    requires -0x8000 <= x < 0x8000 && -0x8000 <= y < 0x8000
    ensures Step(st, MouseMove(PointLParam(x, y))).prevParam == Some(PointLParam(x, y))
    ensures st.app.Some? ==>
      var b := Step(st, MouseMove(PointLParam(x, y))).app.value;
      && b.mousePosX == x && b.mousePosY == y
      && (st.prevParam.None? ==> b.mouseDiffX == 0 && b.mouseDiffY == 0)
      && (st.prevParam.Some? ==>
            b.mouseDiffX == GetX(st.prevParam.value) - x && b.mouseDiffY == GetY(st.prevParam.value) - y)
      && b == st.app.value.(mousePosX := x, mousePosY := y, mouseDiffX := b.mouseDiffX, mouseDiffY := b.mouseDiffY)
  {
    PointRoundTrip(x, y);
  }

  /**
   Between two mouse moves at (px, py) and then (x, y) the recorded delta is
   (px - x, py - y): moving from (100, 100) to (80, 90) records (20, 10).
   */
  lemma MouseDelta(a: Snapshot, px: int, py: int, x: int, y: int)
    requires WellFormed(a)
    requires -0x8000 <= px < 0x8000 && -0x8000 <= py < 0x8000
    requires -0x8000 <= x < 0x8000 && -0x8000 <= y < 0x8000
    ensures
      var b := Step(DispatchState(Some(a), Some(PointLParam(px, py))), MouseMove(PointLParam(x, y))).app.value;
      b.mouseDiffX == px - x && b.mouseDiffY == py - y
  {
    PointRoundTrip(px, py);
    MouseMoveEffect(DispatchState(Some(a), Some(PointLParam(px, py))), x, y);
  }

  /** A size message sets width and height from the low and high words and raises the flag, nothing else. */
  lemma SizeEffect(a: Snapshot, prev: Option<LParam>, w: nat, h: nat)
    requires WellFormed(a) && w < 0x10000 && h < 0x10000
    ensures DispatchApp(a, prev, Size(MakeLParam(w, h))) == a.(width := w, height := h, resized := true)
  {
    WordsRoundTrip(w, h);
  }

  // ---------------------------------------------------------------------------
  // Properties of a replayed queue

  /** One message leaves the resize flag as it was unless it is a resize, which sets it. */
  lemma StepResized(st: DispatchState, m: Message)
    requires StateOk(st) && st.app.Some?
    ensures Step(st, m).app.value.resized == (st.app.value.resized || m.Size?)
  {
  }

  /** Whether a run of messages holds a resize. */
  predicate HasResize(q: seq<Message>)
  {
    exists m :: m in q && m.Size?
  }

  /** After a replay the resize flag is set iff it was set before or some message was a resize. */
  lemma {:induction false} ReplayResized(st: DispatchState, q: seq<Message>)
    requires StateOk(st) && st.app.Some?
    ensures Replay(st, q).app.value.resized <==> st.app.value.resized || HasResize(q)
    decreases |q|
  {
    if q != [] {
      var p := q[..|q| - 1];
      var last := q[|q| - 1];
      ReplayResized(st, p);
      var mid := Replay(st, p);
      assert Replay(st, q) == Step(mid, last);
      StepResized(mid, last);
      assert q == p + [last];
      assert HasResize(q) <==> HasResize(p) || last.Size? by {
        if HasResize(q) {
          var m :| m in q && m.Size?;
          assert m in p || m == last;
        }
        if last.Size? {
          assert last in q;
        }
        if HasResize(p) {
          var m :| m in p && m.Size?;
          assert m in q;
        }
      }
    }
  }

  /** A key slot that no message in the queue reaches keeps its state. */
  lemma {:induction false} ReplayKeyUntouched(st: DispatchState, q: seq<Message>, k: KeyIndex)
    requires StateOk(st) && st.app.Some?
    requires forall i :: 0 <= i < |q| ==> !TouchesKey(q[i], k)
    ensures Replay(st, q).app.value.keys[k] == st.app.value.keys[k]
    decreases |q|
  {
    if q != [] {
      ReplayKeyUntouched(st, q[..|q| - 1], k);
    }
  }

  /** Without mouse-button messages the button states do not change at all. */
  lemma {:induction false} ReplayButtonsUntouched(st: DispatchState, q: seq<Message>)
    requires StateOk(st) && st.app.Some?
    requires forall i :: 0 <= i < |q| ==> !IsButtonMessage(q[i])
    ensures Replay(st, q).app.value.buttons == st.app.value.buttons
    decreases |q|
  {
    if q != [] {
      ReplayButtonsUntouched(st, q[..|q| - 1]);
    }
  }

  // ---------------------------------------------------------------------------
  // Properties of one frame

  /** The game loop keeps running iff no quit message was queued; after a quit the remaining messages stay queued. */
  lemma PumpStopsAtFirstQuit(st: DispatchState, q: seq<Message>)
    requires StateOk(st)
    ensures PumpSpec(st, q).running == (Quit !in q)
    ensures Quit in q ==> PumpSpec(st, q).rest == q[FirstQuit(q) + 1..]
    ensures Quit !in q ==> PumpSpec(st, q).rest == []
  {
    var start := if st.app.Some? then st.(app := Some(Decayed(st.app.value))) else st;
    DrainIsReplay(start, q);
  }

  /** After a frame the resize flag is set iff a resize message was dispatched in that frame. */
  lemma PumpResizeFlag(st: DispatchState, q: seq<Message>)
    requires StateOk(st) && st.app.Some?
    ensures PumpSpec(st, q).state.app.value.resized <==> HasResize(Dispatched(q))
  {
    var start := st.(app := Some(Decayed(st.app.value)));
    DrainIsReplay(start, q);
    ReplayResized(start, Dispatched(q));
  }

  /**
   A key that receives no message in a frame only decays: Pressed becomes Down,
   Released becomes Up, and the other states stay.
   */
  lemma PumpKeyDecays(st: DispatchState, q: seq<Message>, k: KeyIndex)
    requires StateOk(st) && st.app.Some?
    requires forall i :: 0 <= i < |Dispatched(q)| ==> !TouchesKey(Dispatched(q)[i], k)
    ensures PumpSpec(st, q).state.app.value.keys[k] == Decay(st.app.value.keys[k])
  {
    var start := st.(app := Some(Decayed(st.app.value)));
    DrainIsReplay(start, q);
    ReplayKeyUntouched(start, Dispatched(q), k);
  }

  /** The KeyUnknown slot is never written by a message, so it only decays. */
  lemma PumpUnknownSlot(st: DispatchState, q: seq<Message>)
    requires StateOk(st) && st.app.Some?
    ensures PumpSpec(st, q).state.app.value.keys[KeyUnknown] == Decay(st.app.value.keys[KeyUnknown])
  {
    PumpKeyDecays(st, q, KeyUnknown);
  }

  /**
   A slot that no virtual-key code maps to (no `VirtualKey`) is never written by a
   message: from Up it stays Up forever.
   */
  lemma PumpUnmappedSlot(st: DispatchState, q: seq<Message>, k: KeyIndex)
    requires StateOk(st) && st.app.Some?
    requires VirtualKey(k).None?
    ensures PumpSpec(st, q).state.app.value.keys[k] == Decay(st.app.value.keys[k])
  {
    forall i | 0 <= i < |Dispatched(q)|
      ensures !TouchesKey(Dispatched(q)[i], k)
    {
      var m := Dispatched(q)[i];
      if (m.KeyDown? || m.KeyUp?) && MapKey(m.wParam) == k && k != KeyUnknown {
        MapKeyInverse(m.wParam);
      }
    }
    PumpKeyDecays(st, q, k);
  }

  /**
   The game loop does not decay mouse buttons: without button messages a Pressed or
   Released button stays Pressed or Released frame after frame.
   */
  lemma PumpButtonsNotDecayed(st: DispatchState, q: seq<Message>)
    requires StateOk(st) && st.app.Some?
    requires forall i :: 0 <= i < |Dispatched(q)| ==> !IsButtonMessage(Dispatched(q)[i])
    ensures PumpSpec(st, q).state.app.value.buttons == st.app.value.buttons
  {
    var start := st.(app := Some(Decayed(st.app.value)));
    DrainIsReplay(start, q);
    ReplayButtonsUntouched(start, Dispatched(q));
  }

  /**
   A key pressed in one frame reads as pressed for exactly that frame: if the next
   frame brings no message for it, it is down but no longer pressed.
   */
  lemma PressedForOneFrame(st: DispatchState, q: seq<Message>, k: KeyIndex)
    requires StateOk(st) && st.app.Some?
    requires st.app.value.keys[k] == Pressed
    requires forall i :: 0 <= i < |Dispatched(q)| ==> !TouchesKey(Dispatched(q)[i], k)
    ensures PumpSpec(st, q).state.app.value.keys[k] == Down
  {
    PumpKeyDecays(st, q, k);
  }

  // ---------------------------------------------------------------------------
  // The imperative window procedure and game loop

  class WndProc {
    /** The function-local `static LPARAM prevParam`; None until the first mouse move. */
    var prevParam: Option<LParam>

    constructor ()
      ensures prevParam == None
    {
      prevParam := None;
    }

    ghost function ModelState(app: App?): (st: DispatchState)
      reads this, if app == null then {} else app.Repr()
      requires app != null ==> app.Valid()
      ensures StateOk(st) && st.app.Some? == (app != null)
    {
      DispatchState(if app == null then None else Some(app.Snap()), prevParam)
    }

    /** The body of `wndProc` for the messages that reach the input state. */
    method Dispatch(app: App?, m: Message)
      requires app != null ==> app.Valid()
      modifies this, if app == null then {} else app.Repr()
      ensures ModelState(app) == Step(old(ModelState(app)), m)
      ensures app != null ==> app.gameLoopInstalled == old(app.gameLoopInstalled)
    {
      match m {
        case KeyDown(code) =>
          if app != null {
            var key := MapKey(code);
            if key != KeyUnknown {
              UpdateKeyStateOnKeyDown(app.keyStates, key);
            }
          }
        case KeyUp(code) =>
          if app != null {
            var key := MapKey(code);
            if key != KeyUnknown {
              UpdateKeyStateOnKeyUp(app.keyStates, key);
            }
          }
        case LButtonDown =>
          if app != null { UpdateKeyStateOnKeyDown(app.buttonStates, MouseLeftButton); }
        case LButtonUp =>
          if app != null { UpdateKeyStateOnKeyUp(app.buttonStates, MouseLeftButton); }
        case RButtonDown =>
          if app != null { UpdateKeyStateOnKeyDown(app.buttonStates, MouseRightButton); }
        case RButtonUp =>
          if app != null { UpdateKeyStateOnKeyUp(app.buttonStates, MouseRightButton); }
        case MButtonDown =>
          if app != null { UpdateKeyStateOnKeyDown(app.buttonStates, MouseMiddleButton); }
        case MButtonUp =>
          if app != null { UpdateKeyStateOnKeyUp(app.buttonStates, MouseMiddleButton); }
        case MouseMove(l) =>
          if prevParam.None? {
            prevParam := Some(l);
          }
          if app != null {
            app.mousePosX := GetX(l);
            app.mousePosY := GetY(l);
            app.mouseDiffX := GetX(prevParam.value) - app.mousePosX;
            app.mouseDiffY := GetY(prevParam.value) - app.mousePosY;
          }
          prevParam := Some(l);
        case Size(l) =>
          if app != null {
            app.width := LoWord(l);
            app.height := HiWord(l);
            app.isResizedInCurrentFrame := true;
          }
        case Quit =>
        case Other =>
      }
    }

    /**
     The `GameLoop` closure: decay the key states in place, clear the resize flag,
     then dispatch queued messages until the queue is empty (keep running) or a quit
     message is taken (stop; later messages stay queued).
     */
    method GameLoop(app: App?, queue: seq<Message>) returns (running: bool, rest: seq<Message>)
      requires app != null ==> app.Valid()
      modifies this, if app == null then {} else app.Repr()
      ensures PumpResult(ModelState(app), running, rest) == PumpSpec(old(ModelState(app)), queue)
      ensures app != null ==> app.gameLoopInstalled == old(app.gameLoopInstalled)
    {
      if app != null {
        for i := 0 to KeyboardButtonsCount
          modifies app.keyStates
          invariant forall j :: 0 <= j < i ==> app.keyStates[j] == Decay(old(app.keyStates[j]))
          invariant forall j :: i <= j < KeyboardButtonsCount ==> app.keyStates[j] == old(app.keyStates[j])
        {
          if app.keyStates[i] == Pressed { app.keyStates[i] := Down; }
          if app.keyStates[i] == Released { app.keyStates[i] := Up; }
        }
        app.isResizedInCurrentFrame := false;
        assert app.Snap() == Decayed(old(app.Snap()));
      }
      ghost var target := PumpSpec(old(ModelState(app)), queue);
      var q := queue;
      while q != []
        invariant app != null ==> app.Valid()
        invariant Drain(ModelState(app), q) == target
        invariant app != null ==> app.gameLoopInstalled == old(app.gameLoopInstalled)
        decreases |q|
      {
        var m := q[0];
        q := q[1..];
        if m == Quit {
          return false, q;
        }
        Dispatch(app, m);
      }
      return true, [];
    }
  }
}
