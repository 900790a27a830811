/**
 The per-key (and per-mouse-button) input automaton of the application: the four
 states of `KeyButtonStates`, the two edge transitions applied when a key or button
 message arrives, the per-frame decay applied by the game loop, and the three
 queries a frame can ask of a state.
 */
module Input {
  import opened Wrappers

  datatype KeyState = Up | Pressed | Down | Released

  /** The integer value each state has in the C++ enum. */
  function Encoding(s: KeyState): (v: int)
    ensures -1 <= v <= 2
  {
    match s
    case Up => 0
    case Pressed => 1
    case Down => 2
    case Released => -1
  }

  /** Reads an enum value back; any other integer is not a state. */
  function StateOfEncoding(v: int): (s: Option<KeyState>)
    ensures s.Some? <==> -1 <= v <= 2
  {
    if v == 0 then Some(Up)
    else if v == 1 then Some(Pressed)
    else if v == 2 then Some(Down)
    else if v == -1 then Some(Released)
    else None
  }

  /** The four encodings are distinct, and zero-filled storage reads as Up. */
  lemma EncodingRoundTrip(s: KeyState)
    ensures StateOfEncoding(Encoding(s)) == Some(s)
    ensures StateOfEncoding(0) == Some(Up)
  {
  }

  lemma EncodingInjective(s: KeyState, t: KeyState)
    ensures Encoding(s) == Encoding(t) ==> s == t
  {
    EncodingRoundTrip(s);
    EncodingRoundTrip(t);
  }

  // ---------------------------------------------------------------------------
  // Queries

  predicate PressedThisFrame(s: KeyState) { s == Pressed }

  predicate IsDown(s: KeyState) { s == Down || s == Pressed }

  predicate ReleasedThisFrame(s: KeyState) { s == Released }

  predicate Transient(s: KeyState) { s == Pressed || s == Released }

  /** Pressed-this-frame implies down; released-this-frame excludes down. */
  lemma QueriesConsistent(s: KeyState)
    ensures PressedThisFrame(s) ==> IsDown(s)
    ensures ReleasedThisFrame(s) ==> !IsDown(s)
    ensures !(PressedThisFrame(s) && ReleasedThisFrame(s))
  {
  }

  // ---------------------------------------------------------------------------
  // Transitions

  /** The state after a key-down (or button-down) message. */
  function AfterKeyDown(s: KeyState): (t: KeyState)
    ensures s != Released ==> IsDown(t)
    ensures PressedThisFrame(t) <==> s == Up
    ensures s == Released ==> t == Released
  {
    if s == Up then Pressed
    else if s == Down || s == Pressed then Down
    else s
  }

  /** The state after a key-up (or button-up) message. */
  function AfterKeyUp(s: KeyState): (t: KeyState)
    ensures ReleasedThisFrame(t) <==> s == Down
    ensures s != Pressed ==> !IsDown(t)
  {
    if s == Down then Released
    else if s == Up || s == Released then Up
    else s
  }

  /** What the game loop does to every slot at the start of a frame. */
  function Decay(s: KeyState): (t: KeyState)
    ensures !Transient(t)
    ensures IsDown(t) == IsDown(s)
  {
    if s == Pressed then Down
    else if s == Released then Up
    else s
  }

  /**
   The edges of the intended state machine: Up -> Pressed -> Down -> Released -> Up.
   A step that changes nothing is also allowed.
   */
  predicate ValidTransition(s: KeyState, t: KeyState)
  {
    s == t ||
    (s, t) == (Up, Pressed) ||
    (s, t) == (Pressed, Down) ||
    (s, t) == (Down, Released) ||
    (s, t) == (Released, Up)
  }

  /** Every transition the code performs is an edge of the intended machine. */
  lemma TransitionsAreValid(s: KeyState)
    ensures ValidTransition(s, AfterKeyDown(s))
    ensures ValidTransition(s, AfterKeyUp(s))
    ensures ValidTransition(s, Decay(s))
  {
  }

  /** Key repeat: a second key-down before the next frame collapses to Down. */
  lemma KeyDownTwiceIsDown(s: KeyState)
    requires s != Released
    ensures AfterKeyDown(AfterKeyDown(s)) == Down
  {
  }

  /** A key-up while the key is still Pressed leaves it Pressed. */
  lemma KeyUpKeepsPressed()
    ensures AfterKeyUp(Pressed) == Pressed
  {
  }

  /**
   A press and release within one frame (no decay between them) is not seen as a
   release: after the next decay the key reads as held down.
   */
  lemma TapWithinFrameReadsAsHeld()
    ensures Decay(AfterKeyUp(AfterKeyDown(Up))) == Down
    ensures IsDown(Decay(AfterKeyUp(AfterKeyDown(Up))))
  {
  }

  /**
   The mirror case: a release and a re-press within one frame leave the key Released,
   so after the next decay it reads as up although it is held.
   */
  lemma RepressWithinFrameReadsAsUp()
    ensures AfterKeyDown(AfterKeyUp(Down)) == Released
    ensures Decay(AfterKeyDown(AfterKeyUp(Down))) == Up
    ensures !IsDown(Decay(AfterKeyDown(AfterKeyUp(Down))))
  {
  }

  /**
   Press, frame, release, frame: the key reads down after the first frame and is
   back to Up after the second.
   */
  lemma PressReleaseCycle()
    ensures IsDown(Decay(AfterKeyDown(Up)))
    ensures Decay(AfterKeyUp(Decay(AfterKeyDown(Up)))) == Up
  {
  }

  /** Pressed is visible for exactly one frame boundary after the edge. */
  lemma PressedLastsOneFrame(s: KeyState)
    requires s == Up
    ensures PressedThisFrame(AfterKeyDown(s))
    ensures !PressedThisFrame(Decay(AfterKeyDown(s)))
    ensures Decay(Decay(AfterKeyDown(s))) == Decay(AfterKeyDown(s))
  {
  }

  // ---------------------------------------------------------------------------
  // In-place updates through a reference to one slot

  /** `updateKeyStateOnKeyDown`: rewrites slot `i` of `states` in place. */
  method UpdateKeyStateOnKeyDown(states: array<KeyState>, i: nat)
    requires i < states.Length
    modifies states
    ensures states[..] == old(states[..])[i := AfterKeyDown(old(states[i]))]
  {
    if states[i] == Up {
      states[i] := Pressed;
    } else if states[i] == Down || states[i] == Pressed {
      states[i] := Down;
    }
  }

  /** `updateKeyStateOnKeyUp`: rewrites slot `i` of `states` in place. */
  method UpdateKeyStateOnKeyUp(states: array<KeyState>, i: nat)
    requires i < states.Length
    modifies states
    ensures states[..] == old(states[..])[i := AfterKeyUp(old(states[i]))]
  {
    if states[i] == Down {
      states[i] := Released;
    } else if states[i] == Up || states[i] == Released {
      states[i] := Up;
    }
  }
}
