/**
 * The static keymap table: six layers of four rows by twelve columns.
 * Keycodes other than the custom ones and the transparent sentinel are kept
 * by their firmware names.
 */
module Keymap {
  import opened Planck

  const Rows: nat := 4
  const Cols: nat := 12

  /** The table of one layer, row by row. */
  function Table(l: Layer): (t: seq<seq<Keycode>>)
    ensures |t| == Rows
    ensures forall row :: 0 <= row < |t| ==> |t[row]| == Cols
  {
    match l
    case Qwerty => [
      [Kc("KC_TAB"), Kc("KC_Q"), Kc("KC_W"), Kc("KC_E"), Kc("KC_R"), Kc("KC_T"), Kc("KC_Y"), Kc("KC_U"), Kc("KC_I"), Kc("KC_O"), Kc("KC_P"), Kc("KC_BSPC")],
      [Kc("KC_GESC"), Kc("KC_A"), Kc("KC_S"), Kc("KC_D"), Kc("KC_F"), Kc("KC_G"), Kc("KC_H"), Kc("KC_J"), Kc("KC_K"), Kc("KC_L"), Kc("KC_SCLN"), Kc("KC_QUOT")],
      [Kc("KC_LSFT"), Kc("KC_Z"), Kc("KC_X"), Kc("KC_C"), Kc("KC_V"), Kc("KC_B"), Kc("KC_N"), Kc("KC_M"), Kc("KC_COMM"), Kc("KC_DOT"), Kc("KC_SLSH"), Kc("KC_ENT")],
      [Transparent, Kc("KC_LCTL"), Kc("KC_LALT"), Kc("KC_LGUI"), LowerKey, Kc("KC_SPC"), Kc("KC_SPC"), RaiseKey, Kc("KC_LEFT"), Kc("KC_DOWN"), Kc("KC_UP"), Kc("KC_RGHT")]
    ]
    case Lower => [
      [Kc("KC_TILD"), Kc("KC_EXLM"), Kc("KC_AT"), Kc("KC_HASH"), Kc("KC_DLR"), Kc("KC_PERC"), Kc("KC_CIRC"), Kc("KC_AMPR"), Kc("KC_ASTR"), Kc("KC_LPRN"), Kc("KC_RPRN"), Kc("KC_BSPC")],
      [Kc("KC_DEL"), Kc("KC_F1"), Kc("KC_F2"), Kc("KC_F3"), Kc("KC_F4"), Kc("KC_F5"), Kc("KC_F6"), Kc("KC_UNDS"), Kc("KC_PLUS"), Kc("KC_LCBR"), Kc("KC_RCBR"), Kc("KC_PIPE")],
      [Transparent, Kc("KC_F7"), Kc("KC_F8"), Kc("KC_F9"), Kc("KC_F10"), Kc("KC_F11"), Kc("KC_F12"), Transparent, Transparent, Kc("KC_HOME"), Kc("KC_END"), Transparent],
      [Transparent, Transparent, Transparent, Transparent, Transparent, Transparent, Transparent, Transparent, Kc("KC_MNXT"), Kc("KC_VOLD"), Kc("KC_VOLU"), Kc("KC_MPLY")]
    ]
    case Raise => [
      [Kc("KC_GRV"), Kc("KC_1"), Kc("KC_2"), Kc("KC_3"), Kc("KC_4"), Kc("KC_5"), Kc("KC_6"), Kc("KC_7"), Kc("KC_8"), Kc("KC_9"), Kc("KC_0"), Kc("KC_BSPC")],
      [Kc("KC_DEL"), Kc("KC_F1"), Kc("KC_F2"), Kc("KC_F3"), Kc("KC_F4"), Kc("KC_F5"), Kc("KC_F6"), Kc("KC_MINS"), Kc("KC_EQL"), Kc("KC_LBRC"), Kc("KC_RBRC"), Kc("KC_BSLS")],
      [Transparent, Kc("KC_F7"), Kc("KC_F8"), Kc("KC_F9"), Kc("KC_F10"), Kc("KC_F11"), Kc("KC_F12"), Transparent, Transparent, Kc("KC_PGDN"), Kc("KC_PGUP"), Transparent],
      [Transparent, Transparent, Transparent, Transparent, Transparent, Transparent, Transparent, Transparent, Kc("KC_MNXT"), Kc("KC_VOLD"), Kc("KC_VOLU"), Kc("KC_MPLY")]
    ]
    case Game1 => [
      [Transparent, Transparent, Transparent, Transparent, Transparent, Kc("KC_1"), Kc("KC_2"), Kc("KC_3"), Kc("KC_4"), Transparent, Kc("KC_F4"), Transparent],
      [Transparent, Transparent, Transparent, Transparent, Transparent, Kc("KC_5"), Kc("KC_6"), Kc("KC_7"), Kc("KC_8"), Transparent, Transparent, Transparent],
      [Transparent, Transparent, Transparent, Transparent, Kc("KC_M"), Kc("KC_9"), Kc("KC_0"), Kc("KC_MINS"), Kc("KC_EQL"), Transparent, Transparent, Transparent],
      [Transparent, Transparent, Transparent, Transparent, Transparent, Game1LowerKey, Transparent, Transparent, Transparent, Transparent, Transparent, Transparent]
    ]
    case Game1Lower => [
      [Transparent, Kc("KC_1"), Kc("KC_2"), Kc("KC_3"), Kc("KC_4"), Transparent, Transparent, Transparent, Transparent, Transparent, Transparent, Transparent],
      [Transparent, Kc("KC_5"), Kc("KC_6"), Kc("KC_7"), Kc("KC_8"), Transparent, Transparent, Transparent, Transparent, Transparent, Transparent, Transparent],
      [Transparent, Kc("KC_9"), Kc("KC_0"), Kc("KC_MINS"), Kc("KC_EQL"), Transparent, Transparent, Transparent, Transparent, Transparent, Transparent, Transparent],
      [Transparent, Transparent, Transparent, Transparent, Transparent, Transparent, Transparent, Transparent, Transparent, Transparent, Transparent, Transparent]
    ]
    case Adjust => [
      [Transparent, Kc("RESET"), Kc("DEBUG"), Kc("AU_ON"), Kc("AU_OFF"), Kc("AG_NORM"), Kc("AG_SWAP"), ToggleGame1Key, Transparent, Transparent, Transparent, Kc("KC_DEL")],
      [Transparent, Kc("C_SS"), Kc("C_SSA"), Kc("C_SSC"), Kc("C_SSAC"), Transparent, Transparent, Kc("CMD_1P"), Kc("CMD_1PO"), Transparent, Transparent, Transparent],
      [Transparent, Transparent, Transparent, Transparent, Transparent, Transparent, Transparent, Transparent, Transparent, Transparent, Transparent, Transparent],
      [Transparent, Transparent, Transparent, Transparent, Transparent, Transparent, Transparent, Transparent, Transparent, Transparent, Transparent, Transparent]
    ]
  }

  /** The entry of layer `l` at a key position. */
  function KeymapAt(l: Layer, row: nat, col: nat): Keycode
    requires row < Rows && col < Cols
  {
    Table(l)[row][col]
  }

  /** Each custom keycode sits at exactly one position of exactly one layer. */
  lemma ControlKeyPositions(l: Layer, row: nat, col: nat)
    requires row < Rows && col < Cols
    ensures KeymapAt(l, row, col) == LowerKey <==> l == Qwerty && row == 3 && col == 4
    ensures KeymapAt(l, row, col) == RaiseKey <==> l == Qwerty && row == 3 && col == 7
    ensures KeymapAt(l, row, col) == Game1LowerKey <==> l == Game1 && row == 3 && col == 5
    ensures KeymapAt(l, row, col) == ToggleGame1Key <==> l == Adjust && row == 0 && col == 7
  {
    if row == 0 {
      ControlKeysInRow0(l, col);
    } else if row == 1 {
      ControlKeysInRow1(l, col);
    } else if row == 2 {
      ControlKeysInRow2(l, col);
    } else {
      ControlKeysInRow3(l, col);
    }
  }

  /** Row 0 holds only `T_GAME1`, in `Adjust`. */
  lemma ControlKeysInRow0(l: Layer, col: nat)
    requires col < Cols
    ensures KeymapAt(l, 0, col) != LowerKey && KeymapAt(l, 0, col) != RaiseKey && KeymapAt(l, 0, col) != Game1LowerKey
    ensures KeymapAt(l, 0, col) == ToggleGame1Key <==> l == Adjust && col == 7
  {
    assert col == 0 || col == 1 || col == 2 || col == 3 || col == 4 || col == 5 || col == 6 || col == 7 || col == 8 || col == 9 || col == 10 || col == 11;
    match l
    case Qwerty =>
    case Lower =>
    case Raise =>
    case Game1 =>
    case Game1Lower =>
    case Adjust =>
  }

  /** Row 1 holds no custom keycode. */
  lemma ControlKeysInRow1(l: Layer, col: nat)
    requires col < Cols
    ensures !IsCustom(KeymapAt(l, 1, col))
  {
    assert col == 0 || col == 1 || col == 2 || col == 3 || col == 4 || col == 5 || col == 6 || col == 7 || col == 8 || col == 9 || col == 10 || col == 11;
    match l
    case Qwerty =>
    case Lower =>
    case Raise =>
    case Game1 =>
    case Game1Lower =>
    case Adjust =>
  }

  /** Row 2 holds no custom keycode. */
  lemma ControlKeysInRow2(l: Layer, col: nat)
    requires col < Cols
    ensures !IsCustom(KeymapAt(l, 2, col))
  {
    assert col == 0 || col == 1 || col == 2 || col == 3 || col == 4 || col == 5 || col == 6 || col == 7 || col == 8 || col == 9 || col == 10 || col == 11;
    match l
    case Qwerty =>
    case Lower =>
    case Raise =>
    case Game1 =>
    case Game1Lower =>
    case Adjust =>
  }

  /** Row 3 holds `LOWER` and `RAISE` in the base layer and `GAME1_L` in `Game1`. */
  lemma ControlKeysInRow3(l: Layer, col: nat)
    requires col < Cols
    ensures KeymapAt(l, 3, col) == LowerKey <==> l == Qwerty && col == 4
    ensures KeymapAt(l, 3, col) == RaiseKey <==> l == Qwerty && col == 7
    ensures KeymapAt(l, 3, col) == Game1LowerKey <==> l == Game1 && col == 5
    ensures KeymapAt(l, 3, col) != ToggleGame1Key
  {
    assert col == 0 || col == 1 || col == 2 || col == 3 || col == 4 || col == 5 || col == 6 || col == 7 || col == 8 || col == 9 || col == 10 || col == 11;
    match l
    case Qwerty =>
    case Lower =>
    case Raise =>
    case Game1 =>
    case Game1Lower =>
    case Adjust =>
  }

  /** The base layer is not free of transparent entries: its bottom-left key
      is one, and it is the only one. */
  lemma QwertyTransparentCorner(row: nat, col: nat)
    requires row < Rows && col < Cols
    ensures KeymapAt(Qwerty, row, col) == Transparent <==> row == 3 && col == 0
  {
    assert col == 0 || col == 1 || col == 2 || col == 3 || col == 4 || col == 5 || col == 6 || col == 7 || col == 8 || col == 9 || col == 10 || col == 11;
    if row == 0 {
    } else if row == 1 {
    } else if row == 2 {
    } else {
    }
  }
}
