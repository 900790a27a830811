/**
 The `OpenGLApp` record: window size, mouse sample, the key and mouse-button
 state arrays, the resize flag and the per-frame queries over the arrays.
 The arrays are embedded in the C++ struct, so here they are `const` array
 fields that are never replaced, only rewritten slot by slot.
 */
module OpenGLApp {
  import opened Input
  import opened Keys

  /** A value copy of everything a frame can observe of the app. */
  datatype Snapshot = Snapshot(
    keys: seq<KeyState>,
    buttons: seq<KeyState>,
    width: int,
    height: int,
    mousePosX: int,
    mousePosY: int,
    mouseDiffX: int,
    mouseDiffY: int,
    resized: bool)

  predicate WellFormed(a: Snapshot)
  {
    |a.keys| == KeyboardButtonsCount && |a.buttons| == MouseButtonsCount
  }

  class App {
    /** Requested window size; 0 in either means full screen (see Window.PlaceWindow). */
    var width: int
    var height: int
    var mousePosX: int
    var mousePosY: int
    var mouseDiffX: int
    var mouseDiffY: int
    /** `KeyStates`, one slot per `KeyboardButtons` value. */
    const keyStates: array<KeyState>
    /** `ButtonStates`, one slot per `MouseButtons` value, MouseUnknown included. */
    const buttonStates: array<KeyState>
    var isResizedInCurrentFrame: bool
    /** Whether `GameLoop` and `Cleanup` have been installed (only embedApp does so). */
    var gameLoopInstalled: bool

    predicate Valid()
    {
      keyStates.Length == KeyboardButtonsCount &&
      buttonStates.Length == MouseButtonsCount &&
      keyStates != buttonStates
    }

    function Repr(): set<object>
    {
      {this, keyStates, buttonStates}
    }

    /**
     A default-initialised app with the requested size: every slot of both arrays
     is Up (the C++ initialiser sets slot 0 to Up = 0 and zero-fills the rest).
     */
    constructor (width: int, height: int)
      ensures Valid() && fresh(keyStates) && fresh(buttonStates)
      ensures this.width == width && this.height == height
      ensures mousePosX == 0 && mousePosY == 0 && mouseDiffX == 0 && mouseDiffY == 0
      ensures forall k :: 0 <= k < keyStates.Length ==> keyStates[k] == Up
      ensures forall b :: 0 <= b < buttonStates.Length ==> buttonStates[b] == Up
      ensures !isResizedInCurrentFrame && !gameLoopInstalled
    {
      this.width := width;
      this.height := height;
      mousePosX, mousePosY, mouseDiffX, mouseDiffY := 0, 0, 0, 0;
      keyStates := new KeyState[KeyboardButtonsCount](_ => Up);
      buttonStates := new KeyState[MouseButtonsCount](_ => Up);
      isResizedInCurrentFrame := false;
      gameLoopInstalled := false;
    }

    /** The observable state as a value. */
    function Snap(): (a: Snapshot)
      reads this, keyStates, buttonStates
      requires Valid()
      ensures WellFormed(a)
      ensures forall k :: 0 <= k < KeyboardButtonsCount ==> a.keys[k] == keyStates[k]
      ensures forall b :: 0 <= b < MouseButtonsCount ==> a.buttons[b] == buttonStates[b]
    {
      Snapshot(keyStates[..], buttonStates[..], width, height,
               mousePosX, mousePosY, mouseDiffX, mouseDiffY, isResizedInCurrentFrame)
    }

    // -------------------------------------------------------------------------
    // Queries of the current frame

    function PressedKeyInCurrentFrame(key: KeyIndex): (pressed: bool)
      reads keyStates
      requires Valid()
      ensures pressed == PressedThisFrame(keyStates[key])
    {
      keyStates[key] == Pressed
    }

    function IsKeyDown(key: KeyIndex): (down: bool)
      reads keyStates
      requires Valid()
      ensures down == IsDown(keyStates[key])
    {
      keyStates[key] == Down || keyStates[key] == Pressed
    }

    function ReleasedKeyInCurrentFrame(key: KeyIndex): (released: bool)
      reads keyStates
      requires Valid()
      ensures released == ReleasedThisFrame(keyStates[key])
    {
      keyStates[key] == Released
    }

    function PressedButtonInCurrentFrame(button: ButtonIndex): (pressed: bool)
      reads buttonStates
      requires Valid()
      ensures pressed == PressedThisFrame(buttonStates[button])
    {
      buttonStates[button] == Pressed
    }

    function IsButtonDown(button: ButtonIndex): (down: bool)
      reads buttonStates
      requires Valid()
      ensures down == IsDown(buttonStates[button])
    {
      buttonStates[button] == Down || buttonStates[button] == Pressed
    }

    function ReleasedButtonInCurrentFrame(button: ButtonIndex): (released: bool)
      reads buttonStates
      requires Valid()
      ensures released == ReleasedThisFrame(buttonStates[button])
    {
      buttonStates[button] == Released
    }
  }

  /**
   Over any app state: a key pressed in this frame is down, a key released in this
   frame is not down, and no key is both; likewise for mouse buttons.
   */
  lemma QueriesConsistentOnApp(app: App, key: KeyIndex, button: ButtonIndex)
    requires app.Valid()
    ensures app.PressedKeyInCurrentFrame(key) ==> app.IsKeyDown(key)
    ensures app.ReleasedKeyInCurrentFrame(key) ==> !app.IsKeyDown(key)
    ensures !(app.PressedKeyInCurrentFrame(key) && app.ReleasedKeyInCurrentFrame(key))
    ensures app.PressedButtonInCurrentFrame(button) ==> app.IsButtonDown(button)
    ensures app.ReleasedButtonInCurrentFrame(button) ==> !app.IsButtonDown(button)
    ensures !(app.PressedButtonInCurrentFrame(button) && app.ReleasedButtonInCurrentFrame(button))
  {
    QueriesConsistent(app.keyStates[key]);
    QueriesConsistent(app.buttonStates[button]);
  }
}
