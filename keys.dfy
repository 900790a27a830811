/**
 The keyboard and mouse-button identifier spaces of the application (the enums
 `KeyboardButtons` and `MouseButtons`) and the two switches that translate a
 Windows virtual-key code into them. Identifiers are integers, as in the C++
 enums, because the state arrays are indexed by them.
 */
module Keys {
  import opened Wrappers

  // KeyboardButtons: every value is typed as a valid index into the key-state array

  const KeyUnknown: KeyIndex := 0
  const KeySpace: KeyIndex := 32
  const KeyApostrophe: KeyIndex := 39
  const KeyComma: KeyIndex := 44
  const KeyMinus: KeyIndex := 45
  const KeyPeriod: KeyIndex := 46
  const KeySlash: KeyIndex := 47
  const Key0: KeyIndex := 48
  const Key1: KeyIndex := 49
  const Key2: KeyIndex := 50
  const Key3: KeyIndex := 51
  const Key4: KeyIndex := 52
  const Key5: KeyIndex := 53
  const Key6: KeyIndex := 54
  const Key7: KeyIndex := 55
  const Key8: KeyIndex := 56
  const Key9: KeyIndex := 57
  const KeySemicolon: KeyIndex := 59
  const KeyEqual: KeyIndex := 61
  const KeyA: KeyIndex := 65
  const KeyB: KeyIndex := 66
  const KeyC: KeyIndex := 67
  const KeyD: KeyIndex := 68
  const KeyE: KeyIndex := 69
  const KeyF: KeyIndex := 70
  const KeyG: KeyIndex := 71
  const KeyH: KeyIndex := 72
  const KeyI: KeyIndex := 73
  const KeyJ: KeyIndex := 74
  const KeyK: KeyIndex := 75
  const KeyL: KeyIndex := 76
  const KeyM: KeyIndex := 77
  const KeyN: KeyIndex := 78
  const KeyO: KeyIndex := 79
  const KeyP: KeyIndex := 80
  const KeyQ: KeyIndex := 81
  const KeyR: KeyIndex := 82
  const KeyS: KeyIndex := 83
  const KeyT: KeyIndex := 84
  const KeyU: KeyIndex := 85
  const KeyV: KeyIndex := 86
  const KeyW: KeyIndex := 87
  const KeyX: KeyIndex := 88
  const KeyY: KeyIndex := 89
  const KeyZ: KeyIndex := 90
  const KeyLeftBracket: KeyIndex := 91
  const KeyBackslash: KeyIndex := 92
  const KeyRightBracket: KeyIndex := 93
  const KeyGraveAccent: KeyIndex := 96
  const KeyWorld1: KeyIndex := 161
  const KeyWorld2: KeyIndex := 162
  const KeyEscape: KeyIndex := 256
  const KeyEnter: KeyIndex := 257
  const KeyTab: KeyIndex := 258
  const KeyBackspace: KeyIndex := 259
  const KeyInsert: KeyIndex := 260
  const KeyDelete: KeyIndex := 261
  const KeyRight: KeyIndex := 262
  const KeyLeft: KeyIndex := 263
  const KeyDown: KeyIndex := 264
  const KeyUp: KeyIndex := 265
  const KeyPageUp: KeyIndex := 266
  const KeyPageDown: KeyIndex := 267
  const KeyHome: KeyIndex := 268
  const KeyEnd: KeyIndex := 269
  const KeyCapsLock: KeyIndex := 280
  const KeyScrollLock: KeyIndex := 281
  const KeyNumLock: KeyIndex := 282
  const KeyPrintScreen: KeyIndex := 283
  const KeyPause: KeyIndex := 284
  const KeyF1: KeyIndex := 290
  const KeyF2: KeyIndex := 291
  const KeyF3: KeyIndex := 292
  const KeyF4: KeyIndex := 293
  const KeyF5: KeyIndex := 294
  const KeyF6: KeyIndex := 295
  const KeyF7: KeyIndex := 296
  const KeyF8: KeyIndex := 297
  const KeyF9: KeyIndex := 298
  const KeyF10: KeyIndex := 299
  const KeyF11: KeyIndex := 300
  const KeyF12: KeyIndex := 301
  const KeyF13: KeyIndex := 302
  const KeyF14: KeyIndex := 303
  const KeyF15: KeyIndex := 304
  const KeyF16: KeyIndex := 305
  const KeyF17: KeyIndex := 306
  const KeyF18: KeyIndex := 307
  const KeyF19: KeyIndex := 308
  const KeyF20: KeyIndex := 309
  const KeyF21: KeyIndex := 310
  const KeyF22: KeyIndex := 311
  const KeyF23: KeyIndex := 312
  const KeyF24: KeyIndex := 313
  const KeyF25: KeyIndex := 314
  const KeyKp0: KeyIndex := 320
  const KeyKp1: KeyIndex := 321
  const KeyKp2: KeyIndex := 322
  const KeyKp3: KeyIndex := 323
  const KeyKp4: KeyIndex := 324
  const KeyKp5: KeyIndex := 325
  const KeyKp6: KeyIndex := 326
  const KeyKp7: KeyIndex := 327
  const KeyKp8: KeyIndex := 328
  const KeyKp9: KeyIndex := 329
  const KeyKpDecimal: KeyIndex := 330
  const KeyKpDivide: KeyIndex := 331
  const KeyKpMultiply: KeyIndex := 332
  const KeyKpSubtract: KeyIndex := 333
  const KeyKpAdd: KeyIndex := 334
  const KeyKpEnter: KeyIndex := 335
  const KeyKpEqual: KeyIndex := 336
  const KeyLeftShift: KeyIndex := 340
  const KeyLeftControl: KeyIndex := 341
  const KeyLeftAlt: KeyIndex := 342
  const KeyLeftSuper: KeyIndex := 343
  const KeyRightShift: KeyIndex := 344
  const KeyRightControl: KeyIndex := 345
  const KeyRightAlt: KeyIndex := 346
  const KeyRightSuper: KeyIndex := 347
  const KeyMenu: KeyIndex := 348

  /** One past the largest key value: the length of the key-state array. */
  const KeyboardButtonsCount: nat := 349

  // MouseButtons
  const MouseUnknown: nat := 0
  const MouseLeftButton: nat := 1
  const MouseRightButton: nat := 2
  const MouseMiddleButton: nat := 3
  /** The length of the button-state array. */
  const MouseButtonsCount: nat := 4

  /** A valid index into the key-state array. */
  type KeyIndex = k: nat | k < KeyboardButtonsCount

  /** A valid index into the button-state array. */
  type ButtonIndex = b: nat | b < MouseButtonsCount

  /**
   `mapKey`: the switch from a Windows virtual-key code to a key identifier.
   Codes the switch lists as unknown, and every code it does not list, give
   KeyUnknown. `MapKeyInverse` and `VirtualKeyRoundTrip` relate it to the
   independent table `VirtualKey`.
   */
  function MapKey(code: nat): (k: nat)
    ensures k < KeyboardButtonsCount
  {
    match code
    case 0x08 => KeyBackspace // VK_BACK
    case 0x09 => KeyTab // VK_TAB
    case 0x0C => KeyUnknown // VK_CLEAR
    case 0x0D => KeyEnter // VK_RETURN
    case 0x10 => KeyUnknown // VK_SHIFT
    case 0x11 => KeyUnknown // VK_CONTROL
    case 0x12 => KeyUnknown // VK_MENU
    case 0x13 => KeyPause // VK_PAUSE
    case 0x14 => KeyCapsLock // VK_CAPITAL
    case 0x1B => KeyEscape // VK_ESCAPE
    case 0x20 => KeySpace // VK_SPACE
    case 0x21 => KeyPageUp // VK_PRIOR
    case 0x22 => KeyPageDown // VK_NEXT
    case 0x23 => KeyEnd // VK_END
    case 0x24 => KeyHome // VK_HOME
    case 0x25 => KeyLeft // VK_LEFT
    case 0x26 => KeyUp // VK_UP
    case 0x27 => KeyRight // VK_RIGHT
    case 0x28 => KeyDown // VK_DOWN
    case 0x29 => KeyUnknown // VK_SELECT
    case 0x2A => KeyUnknown // VK_PRINT
    case 0x2B => KeyUnknown // VK_EXECUTE
    case 0x2C => KeyPrintScreen // VK_SNAPSHOT
    case 0x2D => KeyInsert // VK_INSERT
    case 0x2E => KeyDelete // VK_DELETE
    case 0x2F => KeyUnknown // VK_HELP
    case 0x5B => KeyLeftSuper // VK_LWIN
    case 0x5C => KeyRightSuper // VK_RWIN
    case 0x5D => KeyUnknown // VK_APPS
    case 0x5F => KeyUnknown // VK_SLEEP
    case 0x60 => KeyKp0 // VK_NUMPAD0
    case 0x61 => KeyKp1 // VK_NUMPAD1
    case 0x62 => KeyKp2 // VK_NUMPAD2
    case 0x63 => KeyKp3 // VK_NUMPAD3
    case 0x64 => KeyKp4 // VK_NUMPAD4
    case 0x65 => KeyKp5 // VK_NUMPAD5
    case 0x66 => KeyKp6 // VK_NUMPAD6
    case 0x67 => KeyKp7 // VK_NUMPAD7
    case 0x68 => KeyKp8 // VK_NUMPAD8
    case 0x69 => KeyKp9 // VK_NUMPAD9
    case 0x6A => KeyUnknown // VK_MULTIPLY
    case 0x6B => KeyUnknown // VK_ADD
    case 0x6C => KeyUnknown // VK_SEPARATOR
    case 0x6D => KeyMinus // VK_SUBTRACT
    case 0x6E => KeyComma // VK_DECIMAL
    case 0x6F => KeySlash // VK_DIVIDE
    case 0x70 => KeyF1 // VK_F1
    case 0x71 => KeyF2 // VK_F2
    case 0x72 => KeyF3 // VK_F3
    case 0x73 => KeyF4 // VK_F4
    case 0x74 => KeyF5 // VK_F5
    case 0x75 => KeyF6 // VK_F6
    case 0x76 => KeyF7 // VK_F7
    case 0x77 => KeyF8 // VK_F8
    case 0x78 => KeyF9 // VK_F9
    case 0x79 => KeyF10 // VK_F10
    case 0x7A => KeyF11 // VK_F11
    case 0x7B => KeyF12 // VK_F12
    case 0x7C => KeyF13 // VK_F13
    case 0x7D => KeyF14 // VK_F14
    case 0x7E => KeyF15 // VK_F15
    case 0x7F => KeyF16 // VK_F16
    case 0x80 => KeyF17 // VK_F17
    case 0x81 => KeyF18 // VK_F18
    case 0x82 => KeyF19 // VK_F19
    case 0x83 => KeyF20 // VK_F20
    case 0x84 => KeyF21 // VK_F21
    case 0x85 => KeyF22 // VK_F22
    case 0x86 => KeyF23 // VK_F23
    case 0x87 => KeyF24 // VK_F24
    case 0x90 => KeyNumLock // VK_NUMLOCK
    case 0x91 => KeyScrollLock // VK_SCROLL
    case 0xA0 => KeyLeftShift // VK_LSHIFT
    case 0xA1 => KeyRightShift // VK_RSHIFT
    case 0xA2 => KeyLeftControl // VK_LCONTROL
    case 0xA3 => KeyRightControl // VK_RCONTROL
    case 0xA4 => KeyLeftAlt // VK_LMENU
    case 0xA5 => KeyRightAlt // VK_RMENU
    case 0xA6 => KeyUnknown // VK_BROWSER_BACK
    case 0xA7 => KeyUnknown // VK_BROWSER_FORWARD
    case 0xA8 => KeyUnknown // VK_BROWSER_REFRESH
    case 0xA9 => KeyUnknown // VK_BROWSER_STOP
    case 0xAA => KeyUnknown // VK_BROWSER_SEARCH
    case 0xAB => KeyUnknown // VK_BROWSER_FAVORITES
    case 0xAC => KeyUnknown // VK_BROWSER_HOME
    case 0xAD => KeyUnknown // VK_VOLUME_MUTE
    case 0xAE => KeyUnknown // VK_VOLUME_DOWN
    case 0xAF => KeyUnknown // VK_VOLUME_UP
    case 0xB0 => KeyUnknown // VK_MEDIA_NEXT_TRACK
    case 0xB1 => KeyUnknown // VK_MEDIA_PREV_TRACK
    case 0xB2 => KeyUnknown // VK_MEDIA_STOP
    case 0xB3 => KeyUnknown // VK_MEDIA_PLAY_PAUSE
    case 0xB4 => KeyUnknown // VK_LAUNCH_MAIL
    case 0xB5 => KeyUnknown // VK_LAUNCH_MEDIA_SELECT
    case 0xB6 => KeyUnknown // VK_LAUNCH_APP1
    case 0xB7 => KeyUnknown // VK_LAUNCH_APP2
    case 0xBA => KeyUnknown // VK_OEM_1
    case 0xBB => KeyUnknown // VK_OEM_PLUS
    case 0xBC => KeyUnknown // VK_OEM_COMMA
    case 0xBD => KeyUnknown // VK_OEM_MINUS
    case 0xBE => KeyUnknown // VK_OEM_PERIOD
    case 0xBF => KeyUnknown // VK_OEM_2
    case 0xC0 => KeyUnknown // VK_OEM_3
    case 0xDB => KeyUnknown // VK_OEM_4
    case 0xDC => KeyUnknown // VK_OEM_5
    case 0xDD => KeyUnknown // VK_OEM_6
    case 0xDE => KeyUnknown // VK_OEM_7
    case 0xDF => KeyUnknown // VK_OEM_8
    case 0xE2 => KeyUnknown // VK_OEM_102
    case 0xE5 => KeyUnknown // VK_PROCESSKEY
    case 0xE7 => KeyUnknown // VK_PACKET
    case 0xF6 => KeyUnknown // VK_ATTN
    case 0xF7 => KeyUnknown // VK_CRSEL
    case 0xF8 => KeyUnknown // VK_EXSEL
    case 0xF9 => KeyUnknown // VK_EREOF
    case 0xFA => KeyUnknown // VK_PLAY
    case 0xFB => KeyUnknown // VK_ZOOM
    case 0xFC => KeyUnknown // VK_NONAME
    case 0xFD => KeyUnknown // VK_PA1
    case 0xFE => KeyUnknown // VK_OEM_CLEAR
    case 0x30 => Key0 // 0x30
    case 0x31 => Key1 // 0x31
    case 0x32 => Key2 // 0x32
    case 0x33 => Key3 // 0x33
    case 0x34 => Key4 // 0x34
    case 0x35 => Key5 // 0x35
    case 0x36 => Key6 // 0x36
    case 0x37 => Key7 // 0x37
    case 0x38 => Key8 // 0x38
    case 0x39 => Key9 // 0x39
    case 0x41 => KeyA // 0x41
    case 0x42 => KeyB // 0x42
    case 0x43 => KeyC // 0x43
    case 0x44 => KeyD // 0x44
    case 0x45 => KeyE // 0x45
    case 0x46 => KeyF // 0x46
    case 0x47 => KeyG // 0x47
    case 0x48 => KeyH // 0x48
    case 0x49 => KeyI // 0x49
    case 0x4A => KeyJ // 0x4A
    case 0x4B => KeyK // 0x4B
    case 0x4C => KeyL // 0x4C
    case 0x4D => KeyM // 0x4D
    case 0x4E => KeyN // 0x4E
    case 0x4F => KeyO // 0x4F
    case 0x50 => KeyP // 0x50
    case 0x51 => KeyQ // 0x51
    case 0x52 => KeyR // 0x52
    case 0x53 => KeyS // 0x53
    case 0x54 => KeyT // 0x54
    case 0x55 => KeyU // 0x55
    case 0x56 => KeyV // 0x56
    case 0x57 => KeyW // 0x57
    case 0x58 => KeyX // 0x58
    case 0x59 => KeyY // 0x59
    case 0x5A => KeyZ // 0x5A
    case _ => KeyUnknown
  }

  /**
   The virtual-key code that produces key `k`, if any: digits and letters map to
   their own value, F1..F24 sit 178 above their code, keypad 0..9 sit 224 above
   their code, and the remaining keys are listed one by one.
   */
  function VirtualKey(k: nat): (code: Option<nat>)
    ensures code.Some? ==> k != KeyUnknown && k < KeyboardButtonsCount
  {
    if Key0 <= k <= Key9 || KeyA <= k <= KeyZ then Some(k)
    else if KeyF1 <= k <= KeyF24 then Some(k - 178)
    else if KeyKp0 <= k <= KeyKp9 then Some(k - 224)
    else if k == KeyBackspace then Some(0x08) // VK_BACK
    else if k == KeyTab then Some(0x09) // VK_TAB
    else if k == KeyEnter then Some(0x0D) // VK_RETURN
    else if k == KeyPause then Some(0x13) // VK_PAUSE
    else if k == KeyCapsLock then Some(0x14) // VK_CAPITAL
    else if k == KeyEscape then Some(0x1B) // VK_ESCAPE
    else if k == KeySpace then Some(0x20) // VK_SPACE
    else if k == KeyPageUp then Some(0x21) // VK_PRIOR
    else if k == KeyPageDown then Some(0x22) // VK_NEXT
    else if k == KeyEnd then Some(0x23) // VK_END
    else if k == KeyHome then Some(0x24) // VK_HOME
    else if k == KeyLeft then Some(0x25) // VK_LEFT
    else if k == KeyUp then Some(0x26) // VK_UP
    else if k == KeyRight then Some(0x27) // VK_RIGHT
    else if k == KeyDown then Some(0x28) // VK_DOWN
    else if k == KeyPrintScreen then Some(0x2C) // VK_SNAPSHOT
    else if k == KeyInsert then Some(0x2D) // VK_INSERT
    else if k == KeyDelete then Some(0x2E) // VK_DELETE
    else if k == KeyLeftSuper then Some(0x5B) // VK_LWIN
    else if k == KeyRightSuper then Some(0x5C) // VK_RWIN
    else if k == KeyMinus then Some(0x6D) // VK_SUBTRACT
    else if k == KeyComma then Some(0x6E) // VK_DECIMAL
    else if k == KeySlash then Some(0x6F) // VK_DIVIDE
    else if k == KeyNumLock then Some(0x90) // VK_NUMLOCK
    else if k == KeyScrollLock then Some(0x91) // VK_SCROLL
    else if k == KeyLeftShift then Some(0xA0) // VK_LSHIFT
    else if k == KeyRightShift then Some(0xA1) // VK_RSHIFT
    else if k == KeyLeftControl then Some(0xA2) // VK_LCONTROL
    else if k == KeyRightControl then Some(0xA3) // VK_RCONTROL
    else if k == KeyLeftAlt then Some(0xA4) // VK_LMENU
    else if k == KeyRightAlt then Some(0xA5) // VK_RMENU
    else None
  }

  lemma MapKeyInverseFrom00(code: nat)
    requires code <= 0x1f
    requires MapKey(code) != KeyUnknown
    ensures VirtualKey(MapKey(code)) == Some(code)
  {
    if code == 0x08 { assert MapKey(0x08) == KeyBackspace; }
    if code == 0x09 { assert MapKey(0x09) == KeyTab; }
    if code == 0x0d { assert MapKey(0x0d) == KeyEnter; }
    if code == 0x13 { assert MapKey(0x13) == KeyPause; }
    if code == 0x14 { assert MapKey(0x14) == KeyCapsLock; }
    if code == 0x1b { assert MapKey(0x1b) == KeyEscape; }
  }

  lemma MapKeyInverseFrom20(code: nat)
    requires 0x20 <= code <= 0x25
    requires MapKey(code) != KeyUnknown
    ensures VirtualKey(MapKey(code)) == Some(code)
  {
    if code == 0x20 { assert MapKey(0x20) == KeySpace; }
    if code == 0x21 { assert MapKey(0x21) == KeyPageUp; }
    if code == 0x22 { assert MapKey(0x22) == KeyPageDown; }
    if code == 0x23 { assert MapKey(0x23) == KeyEnd; }
    if code == 0x24 { assert MapKey(0x24) == KeyHome; }
    if code == 0x25 { assert MapKey(0x25) == KeyLeft; }
  }

  lemma MapKeyInverseFrom26(code: nat)
    requires 0x26 <= code <= 0x2f
    requires MapKey(code) != KeyUnknown
    ensures VirtualKey(MapKey(code)) == Some(code)
  {
    if code == 0x26 { assert MapKey(0x26) == KeyUp; }
    if code == 0x27 { assert MapKey(0x27) == KeyRight; }
    if code == 0x28 { assert MapKey(0x28) == KeyDown; }
    if code == 0x2c { assert MapKey(0x2c) == KeyPrintScreen; }
    if code == 0x2d { assert MapKey(0x2d) == KeyInsert; }
    if code == 0x2e { assert MapKey(0x2e) == KeyDelete; }
  }

  lemma MapKeyInverseFrom30(code: nat)
    requires 0x30 <= code <= 0x35
    requires MapKey(code) != KeyUnknown
    ensures VirtualKey(MapKey(code)) == Some(code)
  {
    if code == 0x30 { assert MapKey(0x30) == Key0; }
    if code == 0x31 { assert MapKey(0x31) == Key1; }
    if code == 0x32 { assert MapKey(0x32) == Key2; }
    if code == 0x33 { assert MapKey(0x33) == Key3; }
    if code == 0x34 { assert MapKey(0x34) == Key4; }
    if code == 0x35 { assert MapKey(0x35) == Key5; }
  }

  lemma MapKeyInverseFrom36(code: nat)
    requires 0x36 <= code <= 0x42
    requires MapKey(code) != KeyUnknown
    ensures VirtualKey(MapKey(code)) == Some(code)
  {
    if code == 0x36 { assert MapKey(0x36) == Key6; }
    if code == 0x37 { assert MapKey(0x37) == Key7; }
    if code == 0x38 { assert MapKey(0x38) == Key8; }
    if code == 0x39 { assert MapKey(0x39) == Key9; }
    if code == 0x41 { assert MapKey(0x41) == KeyA; }
    if code == 0x42 { assert MapKey(0x42) == KeyB; }
  }

  lemma MapKeyInverseFrom43(code: nat)
    requires 0x43 <= code <= 0x48
    requires MapKey(code) != KeyUnknown
    ensures VirtualKey(MapKey(code)) == Some(code)
  {
    if code == 0x43 { assert MapKey(0x43) == KeyC; }
    if code == 0x44 { assert MapKey(0x44) == KeyD; }
    if code == 0x45 { assert MapKey(0x45) == KeyE; }
    if code == 0x46 { assert MapKey(0x46) == KeyF; }
    if code == 0x47 { assert MapKey(0x47) == KeyG; }
    if code == 0x48 { assert MapKey(0x48) == KeyH; }
  }

  lemma MapKeyInverseFrom49(code: nat)
    requires 0x49 <= code <= 0x4e
    requires MapKey(code) != KeyUnknown
    ensures VirtualKey(MapKey(code)) == Some(code)
  {
    if code == 0x49 { assert MapKey(0x49) == KeyI; }
    if code == 0x4a { assert MapKey(0x4a) == KeyJ; }
    if code == 0x4b { assert MapKey(0x4b) == KeyK; }
    if code == 0x4c { assert MapKey(0x4c) == KeyL; }
    if code == 0x4d { assert MapKey(0x4d) == KeyM; }
    if code == 0x4e { assert MapKey(0x4e) == KeyN; }
  }

  lemma MapKeyInverseFrom4F(code: nat)
    requires 0x4f <= code <= 0x54
    requires MapKey(code) != KeyUnknown
    ensures VirtualKey(MapKey(code)) == Some(code)
  {
    if code == 0x4f { assert MapKey(0x4f) == KeyO; }
    if code == 0x50 { assert MapKey(0x50) == KeyP; }
    if code == 0x51 { assert MapKey(0x51) == KeyQ; }
    if code == 0x52 { assert MapKey(0x52) == KeyR; }
    if code == 0x53 { assert MapKey(0x53) == KeyS; }
    if code == 0x54 { assert MapKey(0x54) == KeyT; }
  }

  lemma MapKeyInverseFrom55(code: nat)
    requires 0x55 <= code <= 0x5a
    requires MapKey(code) != KeyUnknown
    ensures VirtualKey(MapKey(code)) == Some(code)
  {
    if code == 0x55 { assert MapKey(0x55) == KeyU; }
    if code == 0x56 { assert MapKey(0x56) == KeyV; }
    if code == 0x57 { assert MapKey(0x57) == KeyW; }
    if code == 0x58 { assert MapKey(0x58) == KeyX; }
    if code == 0x59 { assert MapKey(0x59) == KeyY; }
    if code == 0x5a { assert MapKey(0x5a) == KeyZ; }
  }

  lemma MapKeyInverseFrom5B(code: nat)
    requires 0x5b <= code <= 0x63
    requires MapKey(code) != KeyUnknown
    ensures VirtualKey(MapKey(code)) == Some(code)
  {
    if code == 0x5b { assert MapKey(0x5b) == KeyLeftSuper; }
    if code == 0x5c { assert MapKey(0x5c) == KeyRightSuper; }
    if code == 0x60 { assert MapKey(0x60) == KeyKp0; }
    if code == 0x61 { assert MapKey(0x61) == KeyKp1; }
    if code == 0x62 { assert MapKey(0x62) == KeyKp2; }
    if code == 0x63 { assert MapKey(0x63) == KeyKp3; }
  }

  lemma MapKeyInverseFrom64(code: nat)
    requires 0x64 <= code <= 0x6c
    requires MapKey(code) != KeyUnknown
    ensures VirtualKey(MapKey(code)) == Some(code)
  {
    if code == 0x64 { assert MapKey(0x64) == KeyKp4; }
    if code == 0x65 { assert MapKey(0x65) == KeyKp5; }
    if code == 0x66 { assert MapKey(0x66) == KeyKp6; }
    if code == 0x67 { assert MapKey(0x67) == KeyKp7; }
    if code == 0x68 { assert MapKey(0x68) == KeyKp8; }
    if code == 0x69 { assert MapKey(0x69) == KeyKp9; }
  }

  lemma MapKeyInverseFrom6D(code: nat)
    requires 0x6d <= code <= 0x72
    requires MapKey(code) != KeyUnknown
    ensures VirtualKey(MapKey(code)) == Some(code)
  {
    if code == 0x6d { assert MapKey(0x6d) == KeyMinus; }
    if code == 0x6e { assert MapKey(0x6e) == KeyComma; }
    if code == 0x6f { assert MapKey(0x6f) == KeySlash; }
    if code == 0x70 { assert MapKey(0x70) == KeyF1; }
    if code == 0x71 { assert MapKey(0x71) == KeyF2; }
    if code == 0x72 { assert MapKey(0x72) == KeyF3; }
  }

  lemma MapKeyInverseFrom73(code: nat)
    requires 0x73 <= code <= 0x78
    requires MapKey(code) != KeyUnknown
    ensures VirtualKey(MapKey(code)) == Some(code)
  {
    if code == 0x73 { assert MapKey(0x73) == KeyF4; }
    if code == 0x74 { assert MapKey(0x74) == KeyF5; }
    if code == 0x75 { assert MapKey(0x75) == KeyF6; }
    if code == 0x76 { assert MapKey(0x76) == KeyF7; }
    if code == 0x77 { assert MapKey(0x77) == KeyF8; }
    if code == 0x78 { assert MapKey(0x78) == KeyF9; }
  }

  lemma MapKeyInverseFrom79(code: nat)
    requires 0x79 <= code <= 0x7e
    requires MapKey(code) != KeyUnknown
    ensures VirtualKey(MapKey(code)) == Some(code)
  {
    if code == 0x79 { assert MapKey(0x79) == KeyF10; }
    if code == 0x7a { assert MapKey(0x7a) == KeyF11; }
    if code == 0x7b { assert MapKey(0x7b) == KeyF12; }
    if code == 0x7c { assert MapKey(0x7c) == KeyF13; }
    if code == 0x7d { assert MapKey(0x7d) == KeyF14; }
    if code == 0x7e { assert MapKey(0x7e) == KeyF15; }
  }

  lemma MapKeyInverseFrom7F(code: nat)
    requires 0x7f <= code <= 0x84
    requires MapKey(code) != KeyUnknown
    ensures VirtualKey(MapKey(code)) == Some(code)
  {
    if code == 0x7f { assert MapKey(0x7f) == KeyF16; }
    if code == 0x80 { assert MapKey(0x80) == KeyF17; }
    if code == 0x81 { assert MapKey(0x81) == KeyF18; }
    if code == 0x82 { assert MapKey(0x82) == KeyF19; }
    if code == 0x83 { assert MapKey(0x83) == KeyF20; }
    if code == 0x84 { assert MapKey(0x84) == KeyF21; }
  }

  lemma MapKeyInverseFrom85(code: nat)
    requires 0x85 <= code <= 0xa0
    requires MapKey(code) != KeyUnknown
    ensures VirtualKey(MapKey(code)) == Some(code)
  {
    if code == 0x85 { assert MapKey(0x85) == KeyF22; }
    if code == 0x86 { assert MapKey(0x86) == KeyF23; }
    if code == 0x87 { assert MapKey(0x87) == KeyF24; }
    if code == 0x90 { assert MapKey(0x90) == KeyNumLock; }
    if code == 0x91 { assert MapKey(0x91) == KeyScrollLock; }
    if code == 0xa0 { assert MapKey(0xa0) == KeyLeftShift; }
  }

  lemma MapKeyInverseFromA1(code: nat)
    requires 0xa1 <= code
    requires MapKey(code) != KeyUnknown
    ensures VirtualKey(MapKey(code)) == Some(code)
  {
    if code == 0xa1 { assert MapKey(0xa1) == KeyRightShift; }
    if code == 0xa2 { assert MapKey(0xa2) == KeyLeftControl; }
    if code == 0xa3 { assert MapKey(0xa3) == KeyRightControl; }
    if code == 0xa4 { assert MapKey(0xa4) == KeyLeftAlt; }
    if code == 0xa5 { assert MapKey(0xa5) == KeyRightAlt; }
  }

  /** Every known result of MapKey is the key whose virtual-key code is `code`. */
  lemma MapKeyInverse(code: nat)
    requires MapKey(code) != KeyUnknown
    ensures VirtualKey(MapKey(code)) == Some(code)
  {
    if code <= 0x1f {
      MapKeyInverseFrom00(code);
    } else if code <= 0x25 {
      MapKeyInverseFrom20(code);
    } else if code <= 0x2f {
      MapKeyInverseFrom26(code);
    } else if code <= 0x35 {
      MapKeyInverseFrom30(code);
    } else if code <= 0x42 {
      MapKeyInverseFrom36(code);
    } else if code <= 0x48 {
      MapKeyInverseFrom43(code);
    } else if code <= 0x4e {
      MapKeyInverseFrom49(code);
    } else if code <= 0x54 {
      MapKeyInverseFrom4F(code);
    } else if code <= 0x5a {
      MapKeyInverseFrom55(code);
    } else if code <= 0x63 {
      MapKeyInverseFrom5B(code);
    } else if code <= 0x6c {
      MapKeyInverseFrom64(code);
    } else if code <= 0x72 {
      MapKeyInverseFrom6D(code);
    } else if code <= 0x78 {
      MapKeyInverseFrom73(code);
    } else if code <= 0x7e {
      MapKeyInverseFrom79(code);
    } else if code <= 0x84 {
      MapKeyInverseFrom7F(code);
    } else if code <= 0xa0 {
      MapKeyInverseFrom85(code);
    } else {
      MapKeyInverseFromA1(code);
    }
  }

  lemma VirtualKeyRoundTripFrom0(k: nat)
    requires k <= 46
    requires VirtualKey(k).Some?
    ensures MapKey(VirtualKey(k).value) == k
  {
    if k == 32 { assert MapKey(0x20) == KeySpace; }
    if k == 44 { assert MapKey(0x6e) == KeyComma; }
    if k == 45 { assert MapKey(0x6d) == KeyMinus; }
  }

  lemma VirtualKeyRoundTripFrom47(k: nat)
    requires 47 <= k <= 49
    requires VirtualKey(k).Some?
    ensures MapKey(VirtualKey(k).value) == k
  {
    if k == 47 { assert MapKey(0x6f) == KeySlash; }
    if k == 48 { assert MapKey(0x30) == Key0; }
    if k == 49 { assert MapKey(0x31) == Key1; }
  }

  lemma VirtualKeyRoundTripFrom50(k: nat)
    requires 50 <= k <= 52
    requires VirtualKey(k).Some?
    ensures MapKey(VirtualKey(k).value) == k
  {
    if k == 50 { assert MapKey(0x32) == Key2; }
    if k == 51 { assert MapKey(0x33) == Key3; }
    if k == 52 { assert MapKey(0x34) == Key4; }
  }

  lemma VirtualKeyRoundTripFrom53(k: nat)
    requires 53 <= k <= 55
    requires VirtualKey(k).Some?
    ensures MapKey(VirtualKey(k).value) == k
  {
    if k == 53 { assert MapKey(0x35) == Key5; }
    if k == 54 { assert MapKey(0x36) == Key6; }
    if k == 55 { assert MapKey(0x37) == Key7; }
  }

  lemma VirtualKeyRoundTripFrom56(k: nat)
    requires 56 <= k <= 65
    requires VirtualKey(k).Some?
    ensures MapKey(VirtualKey(k).value) == k
  {
    if k == 56 { assert MapKey(0x38) == Key8; }
    if k == 57 { assert MapKey(0x39) == Key9; }
    if k == 65 { assert MapKey(0x41) == KeyA; }
  }

  lemma VirtualKeyRoundTripFrom66(k: nat)
    requires 66 <= k <= 68
    requires VirtualKey(k).Some?
    ensures MapKey(VirtualKey(k).value) == k
  {
    if k == 66 { assert MapKey(0x42) == KeyB; }
    if k == 67 { assert MapKey(0x43) == KeyC; }
    if k == 68 { assert MapKey(0x44) == KeyD; }
  }

  lemma VirtualKeyRoundTripFrom69(k: nat)
    requires 69 <= k <= 71
    requires VirtualKey(k).Some?
    ensures MapKey(VirtualKey(k).value) == k
  {
    if k == 69 { assert MapKey(0x45) == KeyE; }
    if k == 70 { assert MapKey(0x46) == KeyF; }
    if k == 71 { assert MapKey(0x47) == KeyG; }
  }

  lemma VirtualKeyRoundTripFrom72(k: nat)
    requires 72 <= k <= 74
    requires VirtualKey(k).Some?
    ensures MapKey(VirtualKey(k).value) == k
  {
    if k == 72 { assert MapKey(0x48) == KeyH; }
    if k == 73 { assert MapKey(0x49) == KeyI; }
    if k == 74 { assert MapKey(0x4a) == KeyJ; }
  }

  lemma VirtualKeyRoundTripFrom75(k: nat)
    requires 75 <= k <= 77
    requires VirtualKey(k).Some?
    ensures MapKey(VirtualKey(k).value) == k
  {
    if k == 75 { assert MapKey(0x4b) == KeyK; }
    if k == 76 { assert MapKey(0x4c) == KeyL; }
    if k == 77 { assert MapKey(0x4d) == KeyM; }
  }

  lemma VirtualKeyRoundTripFrom78(k: nat)
    requires 78 <= k <= 80
    requires VirtualKey(k).Some?
    ensures MapKey(VirtualKey(k).value) == k
  {
    if k == 78 { assert MapKey(0x4e) == KeyN; }
    if k == 79 { assert MapKey(0x4f) == KeyO; }
    if k == 80 { assert MapKey(0x50) == KeyP; }
  }

  lemma VirtualKeyRoundTripFrom81(k: nat)
    requires 81 <= k <= 83
    requires VirtualKey(k).Some?
    ensures MapKey(VirtualKey(k).value) == k
  {
    if k == 81 { assert MapKey(0x51) == KeyQ; }
    if k == 82 { assert MapKey(0x52) == KeyR; }
    if k == 83 { assert MapKey(0x53) == KeyS; }
  }

  lemma VirtualKeyRoundTripFrom84(k: nat)
    requires 84 <= k <= 86
    requires VirtualKey(k).Some?
    ensures MapKey(VirtualKey(k).value) == k
  {
    if k == 84 { assert MapKey(0x54) == KeyT; }
    if k == 85 { assert MapKey(0x55) == KeyU; }
    if k == 86 { assert MapKey(0x56) == KeyV; }
  }

  lemma VirtualKeyRoundTripFrom87(k: nat)
    requires 87 <= k <= 89
    requires VirtualKey(k).Some?
    ensures MapKey(VirtualKey(k).value) == k
  {
    if k == 87 { assert MapKey(0x57) == KeyW; }
    if k == 88 { assert MapKey(0x58) == KeyX; }
    if k == 89 { assert MapKey(0x59) == KeyY; }
  }

  lemma VirtualKeyRoundTripFrom90(k: nat)
    requires 90 <= k <= 257
    requires VirtualKey(k).Some?
    ensures MapKey(VirtualKey(k).value) == k
  {
    if k == 90 { assert MapKey(0x5a) == KeyZ; }
    if k == 256 { assert MapKey(0x1b) == KeyEscape; }
    if k == 257 { assert MapKey(0x0d) == KeyEnter; }
  }

  lemma VirtualKeyRoundTripFrom258(k: nat)
    requires 258 <= k <= 260
    requires VirtualKey(k).Some?
    ensures MapKey(VirtualKey(k).value) == k
  {
    if k == 258 { assert MapKey(0x09) == KeyTab; }
    if k == 259 { assert MapKey(0x08) == KeyBackspace; }
    if k == 260 { assert MapKey(0x2d) == KeyInsert; }
  }

  lemma VirtualKeyRoundTripFrom261(k: nat)
    requires 261 <= k <= 263
    requires VirtualKey(k).Some?
    ensures MapKey(VirtualKey(k).value) == k
  {
    if k == 261 { assert MapKey(0x2e) == KeyDelete; }
    if k == 262 { assert MapKey(0x27) == KeyRight; }
    if k == 263 { assert MapKey(0x25) == KeyLeft; }
  }

  lemma VirtualKeyRoundTripFrom264(k: nat)
    requires 264 <= k <= 266
    requires VirtualKey(k).Some?
    ensures MapKey(VirtualKey(k).value) == k
  {
    if k == 264 { assert MapKey(0x28) == KeyDown; }
    if k == 265 { assert MapKey(0x26) == KeyUp; }
    if k == 266 { assert MapKey(0x21) == KeyPageUp; }
  }

  lemma VirtualKeyRoundTripFrom267(k: nat)
    requires 267 <= k <= 279
    requires VirtualKey(k).Some?
    ensures MapKey(VirtualKey(k).value) == k
  {
    if k == 267 { assert MapKey(0x22) == KeyPageDown; }
    if k == 268 { assert MapKey(0x24) == KeyHome; }
    if k == 269 { assert MapKey(0x23) == KeyEnd; }
  }

  lemma VirtualKeyRoundTripFrom280(k: nat)
    requires 280 <= k <= 282
    requires VirtualKey(k).Some?
    ensures MapKey(VirtualKey(k).value) == k
  {
    if k == 280 { assert MapKey(0x14) == KeyCapsLock; }
    if k == 281 { assert MapKey(0x91) == KeyScrollLock; }
    if k == 282 { assert MapKey(0x90) == KeyNumLock; }
  }

  lemma VirtualKeyRoundTripFrom283(k: nat)
    requires 283 <= k <= 290
    requires VirtualKey(k).Some?
    ensures MapKey(VirtualKey(k).value) == k
  {
    if k == 283 { assert MapKey(0x2c) == KeyPrintScreen; }
    if k == 284 { assert MapKey(0x13) == KeyPause; }
    if k == 290 { assert MapKey(0x70) == KeyF1; }
  }

  lemma VirtualKeyRoundTripFrom291(k: nat)
    requires 291 <= k <= 293
    requires VirtualKey(k).Some?
    ensures MapKey(VirtualKey(k).value) == k
  {
    if k == 291 { assert MapKey(0x71) == KeyF2; }
    if k == 292 { assert MapKey(0x72) == KeyF3; }
    if k == 293 { assert MapKey(0x73) == KeyF4; }
  }

  lemma VirtualKeyRoundTripFrom294(k: nat)
    requires 294 <= k <= 296
    requires VirtualKey(k).Some?
    ensures MapKey(VirtualKey(k).value) == k
  {
    if k == 294 { assert MapKey(0x74) == KeyF5; }
    if k == 295 { assert MapKey(0x75) == KeyF6; }
    if k == 296 { assert MapKey(0x76) == KeyF7; }
  }

  lemma VirtualKeyRoundTripFrom297(k: nat)
    requires 297 <= k <= 299
    requires VirtualKey(k).Some?
    ensures MapKey(VirtualKey(k).value) == k
  {
    if k == 297 { assert MapKey(0x77) == KeyF8; }
    if k == 298 { assert MapKey(0x78) == KeyF9; }
    if k == 299 { assert MapKey(0x79) == KeyF10; }
  }

  lemma VirtualKeyRoundTripFrom300(k: nat)
    requires 300 <= k <= 302
    requires VirtualKey(k).Some?
    ensures MapKey(VirtualKey(k).value) == k
  {
    if k == 300 { assert MapKey(0x7a) == KeyF11; }
    if k == 301 { assert MapKey(0x7b) == KeyF12; }
    if k == 302 { assert MapKey(0x7c) == KeyF13; }
  }

  lemma VirtualKeyRoundTripFrom303(k: nat)
    requires 303 <= k <= 305
    requires VirtualKey(k).Some?
    ensures MapKey(VirtualKey(k).value) == k
  {
    if k == 303 { assert MapKey(0x7d) == KeyF14; }
    if k == 304 { assert MapKey(0x7e) == KeyF15; }
    if k == 305 { assert MapKey(0x7f) == KeyF16; }
  }

  lemma VirtualKeyRoundTripFrom306(k: nat)
    requires 306 <= k <= 308
    requires VirtualKey(k).Some?
    ensures MapKey(VirtualKey(k).value) == k
  {
    if k == 306 { assert MapKey(0x80) == KeyF17; }
    if k == 307 { assert MapKey(0x81) == KeyF18; }
    if k == 308 { assert MapKey(0x82) == KeyF19; }
  }

  lemma VirtualKeyRoundTripFrom309(k: nat)
    requires 309 <= k <= 311
    requires VirtualKey(k).Some?
    ensures MapKey(VirtualKey(k).value) == k
  {
    if k == 309 { assert MapKey(0x83) == KeyF20; }
    if k == 310 { assert MapKey(0x84) == KeyF21; }
    if k == 311 { assert MapKey(0x85) == KeyF22; }
  }

  lemma VirtualKeyRoundTripFrom312(k: nat)
    requires 312 <= k <= 320
    requires VirtualKey(k).Some?
    ensures MapKey(VirtualKey(k).value) == k
  {
    if k == 312 { assert MapKey(0x86) == KeyF23; }
    if k == 313 { assert MapKey(0x87) == KeyF24; }
    if k == 320 { assert MapKey(0x60) == KeyKp0; }
  }

  lemma VirtualKeyRoundTripFrom321(k: nat)
    requires 321 <= k <= 323
    requires VirtualKey(k).Some?
    ensures MapKey(VirtualKey(k).value) == k
  {
    if k == 321 { assert MapKey(0x61) == KeyKp1; }
    if k == 322 { assert MapKey(0x62) == KeyKp2; }
    if k == 323 { assert MapKey(0x63) == KeyKp3; }
  }

  lemma VirtualKeyRoundTripFrom324(k: nat)
    requires 324 <= k <= 326
    requires VirtualKey(k).Some?
    ensures MapKey(VirtualKey(k).value) == k
  {
    if k == 324 { assert MapKey(0x64) == KeyKp4; }
    if k == 325 { assert MapKey(0x65) == KeyKp5; }
    if k == 326 { assert MapKey(0x66) == KeyKp6; }
  }

  lemma VirtualKeyRoundTripFrom327(k: nat)
    requires 327 <= k <= 339
    requires VirtualKey(k).Some?
    ensures MapKey(VirtualKey(k).value) == k
  {
    if k == 327 { assert MapKey(0x67) == KeyKp7; }
    if k == 328 { assert MapKey(0x68) == KeyKp8; }
    if k == 329 { assert MapKey(0x69) == KeyKp9; }
  }

  lemma VirtualKeyRoundTripFrom340(k: nat)
    requires 340 <= k <= 342
    requires VirtualKey(k).Some?
    ensures MapKey(VirtualKey(k).value) == k
  {
    if k == 340 { assert MapKey(0xa0) == KeyLeftShift; }
    if k == 341 { assert MapKey(0xa2) == KeyLeftControl; }
    if k == 342 { assert MapKey(0xa4) == KeyLeftAlt; }
  }

  lemma VirtualKeyRoundTripFrom343(k: nat)
    requires 343 <= k <= 345
    requires VirtualKey(k).Some?
    ensures MapKey(VirtualKey(k).value) == k
  {
    if k == 343 { assert MapKey(0x5b) == KeyLeftSuper; }
    if k == 344 { assert MapKey(0xa1) == KeyRightShift; }
    if k == 345 { assert MapKey(0xa3) == KeyRightControl; }
  }

  lemma VirtualKeyRoundTripFrom346(k: nat)
    requires 346 <= k
    requires VirtualKey(k).Some?
    ensures MapKey(VirtualKey(k).value) == k
  {
    if k == 346 { assert MapKey(0xa5) == KeyRightAlt; }
    if k == 347 { assert MapKey(0x5c) == KeyRightSuper; }
  }

  /** Every key that has a virtual-key code is produced by MapKey from it. */
  lemma VirtualKeyRoundTrip(k: nat)
    requires VirtualKey(k).Some?
    ensures MapKey(VirtualKey(k).value) == k
  {
    if k <= 46 {
      VirtualKeyRoundTripFrom0(k);
    } else if k <= 49 {
      VirtualKeyRoundTripFrom47(k);
    } else if k <= 52 {
      VirtualKeyRoundTripFrom50(k);
    } else if k <= 55 {
      VirtualKeyRoundTripFrom53(k);
    } else if k <= 65 {
      VirtualKeyRoundTripFrom56(k);
    } else if k <= 68 {
      VirtualKeyRoundTripFrom66(k);
    } else if k <= 71 {
      VirtualKeyRoundTripFrom69(k);
    } else if k <= 74 {
      VirtualKeyRoundTripFrom72(k);
    } else if k <= 77 {
      VirtualKeyRoundTripFrom75(k);
    } else if k <= 80 {
      VirtualKeyRoundTripFrom78(k);
    } else if k <= 83 {
      VirtualKeyRoundTripFrom81(k);
    } else if k <= 86 {
      VirtualKeyRoundTripFrom84(k);
    } else if k <= 89 {
      VirtualKeyRoundTripFrom87(k);
    } else if k <= 257 {
      VirtualKeyRoundTripFrom90(k);
    } else if k <= 260 {
      VirtualKeyRoundTripFrom258(k);
    } else if k <= 263 {
      VirtualKeyRoundTripFrom261(k);
    } else if k <= 266 {
      VirtualKeyRoundTripFrom264(k);
    } else if k <= 279 {
      VirtualKeyRoundTripFrom267(k);
    } else if k <= 282 {
      VirtualKeyRoundTripFrom280(k);
    } else if k <= 290 {
      VirtualKeyRoundTripFrom283(k);
    } else if k <= 293 {
      VirtualKeyRoundTripFrom291(k);
    } else if k <= 296 {
      VirtualKeyRoundTripFrom294(k);
    } else if k <= 299 {
      VirtualKeyRoundTripFrom297(k);
    } else if k <= 302 {
      VirtualKeyRoundTripFrom300(k);
    } else if k <= 305 {
      VirtualKeyRoundTripFrom303(k);
    } else if k <= 308 {
      VirtualKeyRoundTripFrom306(k);
    } else if k <= 311 {
      VirtualKeyRoundTripFrom309(k);
    } else if k <= 320 {
      VirtualKeyRoundTripFrom312(k);
    } else if k <= 323 {
      VirtualKeyRoundTripFrom321(k);
    } else if k <= 326 {
      VirtualKeyRoundTripFrom324(k);
    } else if k <= 339 {
      VirtualKeyRoundTripFrom327(k);
    } else if k <= 342 {
      VirtualKeyRoundTripFrom340(k);
    } else if k <= 345 {
      VirtualKeyRoundTripFrom343(k);
    } else {
      VirtualKeyRoundTripFrom346(k);
    }
  }
  /**
   MapKey and the table VirtualKey describe the same relation: `code` maps to the
   known key `k` exactly when `k`'s virtual-key code is `code`.
   */
  lemma MapKeyCharacterised(code: nat, k: nat)
    ensures MapKey(code) == k && k != KeyUnknown <==> VirtualKey(k) == Some(code)
  {
    if MapKey(code) == k && k != KeyUnknown {
      MapKeyInverse(code);
    }
    if VirtualKey(k) == Some(code) {
      VirtualKeyRoundTrip(k);
    }
  }

  /** A code that is no key's virtual-key code maps to KeyUnknown. */
  lemma MapKeyUnlisted(code: nat)
    ensures (forall k: nat :: VirtualKey(k) != Some(code)) ==> MapKey(code) == KeyUnknown
  {
    if MapKey(code) != KeyUnknown {
      MapKeyInverse(code);
    }
  }

  /**
   The arithmetic families of the switch: digits and letters map to their own
   code, F1..F24 to code + 178, keypad digits to code + 224.
   */
  lemma MapKeyFamilies(code: nat)
    ensures 0x30 <= code <= 0x39 || 0x41 <= code <= 0x5A ==> MapKey(code) == code
    ensures 0x70 <= code <= 0x87 ==> MapKey(code) == code + 178
    ensures 0x60 <= code <= 0x69 ==> MapKey(code) == code + 224
  {
    if 0x30 <= code <= 0x39 || 0x41 <= code <= 0x5A {
      VirtualKeyRoundTrip(code);
    } else if 0x70 <= code <= 0x87 {
      VirtualKeyRoundTrip(code + 178);
    } else if 0x60 <= code <= 0x69 {
      VirtualKeyRoundTrip(code + 224);
    }
  }

  // ---------------------------------------------------------------------------
  // Mouse buttons

  /**
   `mapButton`: the switch from a virtual-key code to a mouse button. Only the
   left, right and middle button codes are known; X1, X2, control-break and every
   other code give MouseUnknown.
   */
  function MapButton(code: nat): (b: nat)
    ensures b < MouseButtonsCount
    ensures b != MouseUnknown ==> ButtonCode(b) == Some(code)
  {
    match code
    case 0x01 => MouseLeftButton // VK_LBUTTON
    case 0x02 => MouseRightButton // VK_RBUTTON
    case 0x03 => MouseUnknown // VK_CANCEL
    case 0x04 => MouseMiddleButton // VK_MBUTTON
    case 0x05 => MouseUnknown // VK_XBUTTON1
    case 0x06 => MouseUnknown // VK_XBUTTON2
    case _ => MouseUnknown
  }

  /** The virtual-key code of each known mouse button. */
  function ButtonCode(b: nat): Option<nat>
  {
    if b == MouseLeftButton then Some(0x01)
    else if b == MouseRightButton then Some(0x02)
    else if b == MouseMiddleButton then Some(0x04)
    else None
  }

  /** MapButton recovers every known button from its code. */
  lemma ButtonCodeRoundTrip(b: nat)
    requires ButtonCode(b).Some?
    ensures MapButton(ButtonCode(b).value) == b
  {
  }
}
