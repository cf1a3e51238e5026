/**
 * The keyboard half of the nano ImGui backend: the backend's own keycode
 * enumeration and `nano_cimgui_wgpukey_to_imguikey`, the switch that maps a
 * keycode to the ImGui key it stands for.
 */
module CimguiKeys {

  // The keycodes of the `wgpu_keycode` enumeration, by ordinal.
  const KEY_INVALID: int := 0
  const KEY_SPACE: int := 1
  const KEY_APOSTROPHE: int := 2
  const KEY_COMMA: int := 3
  const KEY_MINUS: int := 4
  const KEY_PERIOD: int := 5
  const KEY_SLASH: int := 6
  const KEY_0: int := 7
  const KEY_1: int := 8
  const KEY_2: int := 9
  const KEY_3: int := 10
  const KEY_4: int := 11
  const KEY_5: int := 12
  const KEY_6: int := 13
  const KEY_7: int := 14
  const KEY_8: int := 15
  const KEY_9: int := 16
  const KEY_SEMICOLON: int := 17
  const KEY_EQUAL: int := 18
  const KEY_A: int := 19
  const KEY_B: int := 20
  const KEY_C: int := 21
  const KEY_D: int := 22
  const KEY_E: int := 23
  const KEY_F: int := 24
  const KEY_G: int := 25
  const KEY_H: int := 26
  const KEY_I: int := 27
  const KEY_J: int := 28
  const KEY_K: int := 29
  const KEY_L: int := 30
  const KEY_M: int := 31
  const KEY_N: int := 32
  const KEY_O: int := 33
  const KEY_P: int := 34
  const KEY_Q: int := 35
  const KEY_R: int := 36
  const KEY_S: int := 37
  const KEY_T: int := 38
  const KEY_U: int := 39
  const KEY_V: int := 40
  const KEY_W: int := 41
  const KEY_X: int := 42
  const KEY_Y: int := 43
  const KEY_Z: int := 44
  const KEY_LEFT_BRACKET: int := 45
  const KEY_BACKSLASH: int := 46
  const KEY_RIGHT_BRACKET: int := 47
  const KEY_GRAVE_ACCENT: int := 48
  const KEY_WORLD_1: int := 49
  const KEY_WORLD_2: int := 50
  const KEY_ESCAPE: int := 51
  const KEY_ENTER: int := 52
  const KEY_TAB: int := 53
  const KEY_BACKSPACE: int := 54
  const KEY_INSERT: int := 55
  const KEY_DELETE: int := 56
  const KEY_RIGHT: int := 57
  const KEY_LEFT: int := 58
  const KEY_DOWN: int := 59
  const KEY_UP: int := 60
  const KEY_PAGE_UP: int := 61
  const KEY_PAGE_DOWN: int := 62
  const KEY_HOME: int := 63
  const KEY_END: int := 64
  const KEY_CAPS_LOCK: int := 65
  const KEY_SCROLL_LOCK: int := 66
  const KEY_NUM_LOCK: int := 67
  const KEY_PRINT_SCREEN: int := 68
  const KEY_PAUSE: int := 69
  const KEY_F1: int := 70
  const KEY_F2: int := 71
  const KEY_F3: int := 72
  const KEY_F4: int := 73
  const KEY_F5: int := 74
  const KEY_F6: int := 75
  const KEY_F7: int := 76
  const KEY_F8: int := 77
  const KEY_F9: int := 78
  const KEY_F10: int := 79
  const KEY_F11: int := 80
  const KEY_F12: int := 81
  const KEY_F13: int := 82
  const KEY_F14: int := 83
  const KEY_F15: int := 84
  const KEY_F16: int := 85
  const KEY_F17: int := 86
  const KEY_F18: int := 87
  const KEY_F19: int := 88
  const KEY_F20: int := 89
  const KEY_F21: int := 90
  const KEY_F22: int := 91
  const KEY_F23: int := 92
  const KEY_F24: int := 93
  const KEY_F25: int := 94
  const KEY_KP_0: int := 95
  const KEY_KP_1: int := 96
  const KEY_KP_2: int := 97
  const KEY_KP_3: int := 98
  const KEY_KP_4: int := 99
  const KEY_KP_5: int := 100
  const KEY_KP_6: int := 101
  const KEY_KP_7: int := 102
  const KEY_KP_8: int := 103
  const KEY_KP_9: int := 104
  const KEY_KP_DECIMAL: int := 105
  const KEY_KP_DIVIDE: int := 106
  const KEY_KP_MULTIPLY: int := 107
  const KEY_KP_SUBTRACT: int := 108
  const KEY_KP_ADD: int := 109
  const KEY_KP_ENTER: int := 110
  const KEY_KP_EQUAL: int := 111
  const KEY_LEFT_SHIFT: int := 112
  const KEY_LEFT_CONTROL: int := 113
  const KEY_LEFT_ALT: int := 114
  const KEY_LEFT_SUPER: int := 115
  const KEY_RIGHT_SHIFT: int := 116
  const KEY_RIGHT_CONTROL: int := 117
  const KEY_RIGHT_ALT: int := 118
  const KEY_RIGHT_SUPER: int := 119
  const KEY_MENU: int := 120

  /** The ImGui keys the switch can return; `NoKey` is ImGuiKey_None. */
  datatype ImGuiKey =
    NoKey | Tab | LeftArrow | RightArrow | UpArrow | DownArrow | PageUp | PageDown | Home | End
    | Insert | Delete | Backspace | Space | Enter | Escape | Apostrophe | Comma | Minus | Period
    | Slash | Semicolon | Equal | LeftBracket | Backslash | RightBracket | GraveAccent | CapsLock
    | ScrollLock | NumLock | PrintScreen | Pause | Keypad0 | Keypad1 | Keypad2 | Keypad3 | Keypad4
    | Keypad5 | Keypad6 | Keypad7 | Keypad8 | Keypad9 | KeypadDecimal | KeypadDivide
    | KeypadMultiply | KeypadSubtract | KeypadAdd | KeypadEnter | KeypadEqual | LeftShift
    | LeftCtrl | LeftAlt | LeftSuper | RightShift | RightCtrl | RightAlt | RightSuper | Menu | Key0
    | Key1 | Key2 | Key3 | Key4 | Key5 | Key6 | Key7 | Key8 | Key9 | A | B | C | D | E | F | G | H
    | I | J | K | L | M | N | O | P | Q | R | S | T | U | V | W | X | Y | Z | F1 | F2 | F3 | F4
    | F5 | F6 | F7 | F8 | F9 | F10 | F11 | F12

  /** nano_cimgui_wgpukey_to_imguikey: every case of the switch, in its order; anything else is NoKey. */
  function ToImGuiKey(keycode: int): ImGuiKey
  {
    if keycode == KEY_TAB then Tab
    else if keycode == KEY_LEFT then LeftArrow
    else if keycode == KEY_RIGHT then RightArrow
    else if keycode == KEY_UP then UpArrow
    else if keycode == KEY_DOWN then DownArrow
    else if keycode == KEY_PAGE_UP then PageUp
    else if keycode == KEY_PAGE_DOWN then PageDown
    else if keycode == KEY_HOME then Home
    else if keycode == KEY_END then End
    else if keycode == KEY_INSERT then Insert
    else if keycode == KEY_DELETE then Delete
    else if keycode == KEY_BACKSPACE then Backspace
    else if keycode == KEY_SPACE then Space
    else if keycode == KEY_ENTER then Enter
    else if keycode == KEY_ESCAPE then Escape
    else if keycode == KEY_APOSTROPHE then Apostrophe
    else if keycode == KEY_COMMA then Comma
    else if keycode == KEY_MINUS then Minus
    else if keycode == KEY_PERIOD then Period
    else if keycode == KEY_SLASH then Slash
    else if keycode == KEY_SEMICOLON then Semicolon
    else if keycode == KEY_EQUAL then Equal
    else if keycode == KEY_LEFT_BRACKET then LeftBracket
    else if keycode == KEY_BACKSLASH then Backslash
    else if keycode == KEY_RIGHT_BRACKET then RightBracket
    else if keycode == KEY_GRAVE_ACCENT then GraveAccent
    else if keycode == KEY_CAPS_LOCK then CapsLock
    else if keycode == KEY_SCROLL_LOCK then ScrollLock
    else if keycode == KEY_NUM_LOCK then NumLock
    else if keycode == KEY_PRINT_SCREEN then PrintScreen
    else if keycode == KEY_PAUSE then Pause
    else if keycode == KEY_KP_0 then Keypad0
    else if keycode == KEY_KP_1 then Keypad1
    else if keycode == KEY_KP_2 then Keypad2
    else if keycode == KEY_KP_3 then Keypad3
    else if keycode == KEY_KP_4 then Keypad4
    else if keycode == KEY_KP_5 then Keypad5
    else if keycode == KEY_KP_6 then Keypad6
    else if keycode == KEY_KP_7 then Keypad7
    else if keycode == KEY_KP_8 then Keypad8
    else if keycode == KEY_KP_9 then Keypad9
    else if keycode == KEY_KP_DECIMAL then KeypadDecimal
    else if keycode == KEY_KP_DIVIDE then KeypadDivide
    else if keycode == KEY_KP_MULTIPLY then KeypadMultiply
    else if keycode == KEY_KP_SUBTRACT then KeypadSubtract
    else if keycode == KEY_KP_ADD then KeypadAdd
    else if keycode == KEY_KP_ENTER then KeypadEnter
    else if keycode == KEY_KP_EQUAL then KeypadEqual
    else if keycode == KEY_LEFT_SHIFT then LeftShift
    else if keycode == KEY_LEFT_CONTROL then LeftCtrl
    else if keycode == KEY_LEFT_ALT then LeftAlt
    else if keycode == KEY_LEFT_SUPER then LeftSuper
    else if keycode == KEY_RIGHT_SHIFT then RightShift
    else if keycode == KEY_RIGHT_CONTROL then RightCtrl
    else if keycode == KEY_RIGHT_ALT then RightAlt
    else if keycode == KEY_RIGHT_SUPER then RightSuper
    else if keycode == KEY_MENU then Menu
    else if keycode == KEY_0 then Key0
    else if keycode == KEY_1 then Key1
    else if keycode == KEY_2 then Key2
    else if keycode == KEY_3 then Key3
    else if keycode == KEY_4 then Key4
    else if keycode == KEY_5 then Key5
    else if keycode == KEY_6 then Key6
    else if keycode == KEY_7 then Key7
    else if keycode == KEY_8 then Key8
    else if keycode == KEY_9 then Key9
    else if keycode == KEY_A then A
    else if keycode == KEY_B then B
    else if keycode == KEY_C then C
    else if keycode == KEY_D then D
    else if keycode == KEY_E then E
    else if keycode == KEY_F then F
    else if keycode == KEY_G then G
    else if keycode == KEY_H then H
    else if keycode == KEY_I then I
    else if keycode == KEY_J then J
    else if keycode == KEY_K then K
    else if keycode == KEY_L then L
    else if keycode == KEY_M then M
    else if keycode == KEY_N then N
    else if keycode == KEY_O then O
    else if keycode == KEY_P then P
    else if keycode == KEY_Q then Q
    else if keycode == KEY_R then R
    else if keycode == KEY_S then S
    else if keycode == KEY_T then T
    else if keycode == KEY_U then U
    else if keycode == KEY_V then V
    else if keycode == KEY_W then W
    else if keycode == KEY_X then X
    else if keycode == KEY_Y then Y
    else if keycode == KEY_Z then Z
    else if keycode == KEY_F1 then F1
    else if keycode == KEY_F2 then F2
    else if keycode == KEY_F3 then F3
    else if keycode == KEY_F4 then F4
    else if keycode == KEY_F5 then F5
    else if keycode == KEY_F6 then F6
    else if keycode == KEY_F7 then F7
    else if keycode == KEY_F8 then F8
    else if keycode == KEY_F9 then F9
    else if keycode == KEY_F10 then F10
    else if keycode == KEY_F11 then F11
    else if keycode == KEY_F12 then F12
    else NoKey
  }

  /** The keycodes the switch has no case for: outside the enumeration, INVALID, WORLD_1/2 and F13 to F25. */
  predicate Unmapped(keycode: int)
  {
    keycode < KEY_INVALID || keycode > KEY_MENU || keycode == KEY_INVALID
    || keycode == KEY_WORLD_1 || keycode == KEY_WORLD_2 || KEY_F13 <= keycode <= KEY_F25
  }

  /** The switch is total and its NoKey cases are exactly the unmapped keycodes. */
  lemma NoKeyIffUnmapped(keycode: int)
    ensures ToImGuiKey(keycode) == NoKey <==> Unmapped(keycode)
  {
  }

  /** Distinct mapped keycodes give distinct ImGui keys. */
  lemma MappedInjective(a: int, b: int)
    requires ToImGuiKey(a) != NoKey && ToImGuiKey(a) == ToImGuiKey(b)
    ensures a == b
  {
  }
}
