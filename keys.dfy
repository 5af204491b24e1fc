/** Keyboard::Key: the keys a Keyboard distinguishes. The enumerator values
    copy the Windows virtual-key code table ("Virtual-Key Codes" in Microsoft's
    Win32 documentation); three sentinels follow the last named key. */
module KeyboardKeys {

  /** The enum's value type. Like a C++ scoped enumeration, a Key is an
      integer that converts to and from int only explicitly; enumerators that
      are given the same value (the aliases below) are the same Key. */
  newtype Key = int

  const ControlBreak: Key := 0x03

  const Backspace: Key := 0x08
  const Tab: Key := 0x09
  const Clear: Key := 0x0c
  const Enter: Key := 0x0d
  const Shift: Key := 0x10
  const Ctrl: Key := 0x11
  const Alt: Key := 0x12
  const Pause: Key := 0x13
  const CapsLock: Key := 0x14

  const IMEKanaMode: Key := 0x15
  const IMEHanguelMode: Key := 0x15
  const IMEHangulMode: Key := 0x15
  const IMEHanjaMode: Key := 0x19
  const IMEKanjiMode: Key := 0x19

  const Escape: Key := 0x1b

  const IMEConvert: Key := 0x1c
  const IMENonConvert: Key := 0x1d
  const IMEAccept: Key := 0x1e
  const IMEModeChangeRequest: Key := 0x1f

  const SpaceBar: Key := 0x20
  const PageUp: Key := 0x21
  const PageDown: Key := 0x22
  const End: Key := 0x23
  const Home: Key := 0x24

  const LeftArrow: Key := 0x25
  const UpArrow: Key := 0x26
  const RightArrow: Key := 0x27
  const DownArrow: Key := 0x28

  const Select: Key := 0x29
  const Print: Key := 0x2a
  const Execute: Key := 0x2b
  const PrintScreen: Key := 0x2c
  const Insert: Key := 0x2d
  const Delete: Key := 0x2e
  const Help: Key := 0x2f

  const Zero: Key := 0x30
  const One: Key := 0x31
  const Two: Key := 0x32
  const Three: Key := 0x33
  const Four: Key := 0x34
  const Five: Key := 0x35
  const Six: Key := 0x36
  const Seven: Key := 0x37
  const Eight: Key := 0x38
  const Nine: Key := 0x39

  const A: Key := 0x41
  const B: Key := 0x42
  const C: Key := 0x43
  const D: Key := 0x44
  const E: Key := 0x45
  const F: Key := 0x46
  const G: Key := 0x47
  const H: Key := 0x48
  const I: Key := 0x49
  const J: Key := 0x4a
  const K: Key := 0x4b
  const L: Key := 0x4c
  const M: Key := 0x4d
  const N: Key := 0x4e
  const O: Key := 0x4f
  const P: Key := 0x50
  const Q: Key := 0x51
  const R: Key := 0x52
  const S: Key := 0x53
  const T: Key := 0x54
  const U: Key := 0x55
  const V: Key := 0x56
  const W: Key := 0x57
  const X: Key := 0x58
  const Y: Key := 0x59
  const Z: Key := 0x5a

  const LeftWindow: Key := 0x58
  const RightWindow: Key := 0x5c
  const Applications: Key := 0x5d
  const PowerSleep: Key := 0x5f

  const NumPad0: Key := 0x60
  const NumPad1: Key := 0x61
  const NumPad2: Key := 0x62
  const NumPad3: Key := 0x63
  const NumPad4: Key := 0x64
  const NumPad5: Key := 0x65
  const NumPad6: Key := 0x66
  const NumPad7: Key := 0x67
  const NumPad8: Key := 0x68
  const NumPad9: Key := 0x69

  const Multiply: Key := 0x6a
  const Add: Key := 0x6b
  const Seperator: Key := 0x6c
  const Subtract: Key := 0x6d
  const Decimal: Key := 0x6e
  const Divide: Key := 0x6f

  const F1: Key := 0x70
  const F2: Key := 0x71
  const F3: Key := 0x72
  const F4: Key := 0x73
  const F5: Key := 0x74
  const F6: Key := 0x75
  const F7: Key := 0x76
  const F8: Key := 0x77
  const F9: Key := 0x78
  const F10: Key := 0x79
  const F11: Key := 0x7a
  const F12: Key := 0x7b
  const F13: Key := 0x7c
  const F14: Key := 0x7d
  const F15: Key := 0x7e
  const F16: Key := 0x7f
  const F17: Key := 0x80
  const F18: Key := 0x81
  const F19: Key := 0x82
  const F20: Key := 0x83
  const F21: Key := 0x84
  const F22: Key := 0x85
  const F23: Key := 0x86
  const F24: Key := 0x87

  const NumLock: Key := 0x90
  const ScrollLock: Key := 0x91

  const LeftShift: Key := 0xa0
  const RightShift: Key := 0xa1
  const LeftControl: Key := 0xa2
  const RightControl: Key := 0xa3

  const LeftMenu: Key := 0xa4
  const RightMenu: Key := 0xa5
  const BrowserBack: Key := 0xa6
  const BrowserForward: Key := 0xa7
  const BroserRefresh: Key := 0xa8
  const BrowserStop: Key := 0xa9
  const BrowserSearch: Key := 0xaa
  const BrowserFavorites: Key := 0xab
  const BrowserHome: Key := 0xac

  const VolumeMute: Key := 0xad
  const VolumeDown: Key := 0xae
  const VolumeUp: Key := 0xaf

  const MediaNextTrack: Key := 0xb0
  const MediaPreviousTrack: Key := 0xb1
  const MediaStop: Key := 0xb2
  const MediaPlayPause: Key := 0xb3

  const LaunchMail: Key := 0xb4
  const LaunchMediaSelect: Key := 0xb5
  const LaunchApp_1: Key := 0xb6
  const LaunchApp_2: Key := 0xb7

  const OEM_SemiColon: Key := 0xba
  const OEM_Plus: Key := 0xbb
  const OEM_Comma: Key := 0xbc
  const OEM_Minus: Key := 0xbd
  const OEM_Period: Key := 0xbe
  const OEM_ForwardSlash: Key := 0xbf
  const OEM_Tilde: Key := 0xc0
  const OEM_OpenBracket: Key := 0xdb
  const OEM_BackSlash: Key := 0xdc
  const OEM_CloseBracket: Key := 0xdd
  const OEM_Quote: Key := 0xde
  const OEM_Misc: Key := 0xdf
  const OEM_102: Key := 0xe2

  const Process: Key := 0xe5

  const Packet: Key := 0xe7

  const Attn: Key := 0xf6
  const CrSel: Key := 0xf7
  const ExSel: Key := 0xf8
  const EraseEOF: Key := 0xf9
  const Play: Key := 0xfa
  const Zoom: Key := 0xfb
  const PA1: Key := 0xfd

  const OEM_Clear: Key := 0xfe

  // The three sentinels are numbered implicitly, each one past the previous.
  const Unknown: Key := OEM_Clear + 1
  const Count: Key := Unknown + 1
  const Any: Key := Count + 1

  /** The number of bits in a State: std::bitset<static_cast<size_t>(Key::Count)>. */
  const KeySetSize: nat := Count as nat

  /** A key that may index a State. Indexing with Count, Any or any other
      value outside the bit set is undefined behaviour in the source. */
  predicate InKeySet(key: Key) {
    0 <= key < Count
  }

  /** Whether key is the value of an enumerator that names a key, that is of
      any enumerator except Count and Any. */
  predicate IsNamed(key: Key) {
    key in {
      ControlBreak, Backspace, Tab, Clear, Enter, Shift, Ctrl, Alt, Pause, CapsLock, IMEKanaMode,
      IMEHanguelMode, IMEHangulMode, IMEHanjaMode, IMEKanjiMode, Escape, IMEConvert, IMENonConvert,
      IMEAccept, IMEModeChangeRequest, SpaceBar, PageUp, PageDown, End, Home, LeftArrow, UpArrow,
      RightArrow, DownArrow, Select, Print, Execute, PrintScreen, Insert, Delete, Help, Zero, One,
      Two, Three, Four, Five, Six, Seven, Eight, Nine, A, B, C, D, E, F, G, H, I, J, K, L, M, N, O,
      P, Q, R, S, T, U, V, W, X, Y, Z, LeftWindow, RightWindow, Applications, PowerSleep, NumPad0,
      NumPad1, NumPad2, NumPad3, NumPad4, NumPad5, NumPad6, NumPad7, NumPad8, NumPad9, Multiply,
      Add, Seperator, Subtract, Decimal, Divide, F1, F2, F3, F4, F5, F6, F7, F8, F9, F10, F11, F12,
      F13, F14, F15, F16, F17, F18, F19, F20, F21, F22, F23, F24, NumLock, ScrollLock, LeftShift,
      RightShift, LeftControl, RightControl, LeftMenu, RightMenu, BrowserBack, BrowserForward,
      BroserRefresh, BrowserStop, BrowserSearch, BrowserFavorites, BrowserHome, VolumeMute,
      VolumeDown, VolumeUp, MediaNextTrack, MediaPreviousTrack, MediaStop, MediaPlayPause,
      LaunchMail, LaunchMediaSelect, LaunchApp_1, LaunchApp_2, OEM_SemiColon, OEM_Plus, OEM_Comma,
      OEM_Minus, OEM_Period, OEM_ForwardSlash, OEM_Tilde, OEM_OpenBracket, OEM_BackSlash,
      OEM_CloseBracket, OEM_Quote, OEM_Misc, OEM_102, Process, Packet, Attn, CrSel, ExSel,
      EraseEOF, Play, Zoom, PA1, OEM_Clear, Unknown
    }
  }

  /** Every named key indexes a State, while the two sentinels after Unknown do not. */
  lemma NamedKeysInKeySet()
    ensures forall key | IsNamed(key) :: InKeySet(key)
    ensures KeySetSize == 0x100 && Unknown == 0xff && Any == 0x101
    ensures !InKeySet(Count) && !InKeySet(Any)
  {
  }

  /** The enumerators that the table gives one value: IMEKanaMode, IMEHanguelMode
      and IMEHangulMode; IMEHanjaMode and IMEKanjiMode; and X and LeftWindow. */
  lemma DeclaredAliases()
    ensures IMEKanaMode == IMEHanguelMode == IMEHangulMode == 0x15
    ensures IMEHanjaMode == IMEKanjiMode == 0x19
    ensures X == LeftWindow == 0x58
  {
  }
}
