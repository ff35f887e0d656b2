/**
 * How QMK picks the keycode of a key position from the active layers: the
 * highest-numbered active layer whose entry is not transparent supplies it;
 * the base layer, always active through the default layer state, is the
 * fallback. This is library behaviour, not code of this keymap; it is
 * modelled here to show where each custom key can be reached from.
 */
module Resolution {
  import opened Planck
  import opened Keymap

  /** The layer that supplies the keycode, searching layers `i` down to 0. */
  function ResolvedFrom(active: set<Layer>, row: nat, col: nat, i: nat): (l: Layer)
    requires row < Rows && col < Cols && i < 6
    ensures Index(l) <= i
    ensures l == Qwerty || (l in active && KeymapAt(l, row, col) != Transparent)
    ensures forall x :: x in active && Index(l) < Index(x) <= i ==> KeymapAt(x, row, col) == Transparent
    decreases i
  {
    var l := LayerAt(i);
    if l in active && KeymapAt(l, row, col) != Transparent then l
    else if i == 0 then Qwerty
    else ResolvedFrom(active, row, col, i - 1)
  }

  /** The keycode a key position produces with the given layers active. */
  function Resolve(active: set<Layer>, row: nat, col: nat): (k: Keycode)
    requires row < Rows && col < Cols
    ensures k == Transparent ==> row == 3 && col == 0
  {
    QwertyTransparentCorner(row, col);
    KeymapAt(ResolvedFrom(active, row, col, 5), row, col)
  }

  /** Resolution is the entry of the layer chosen: every active layer above it
      is transparent there, and it is either an active layer with a concrete
      entry or the base layer. */
  lemma ResolveChoosesHighest(active: set<Layer>, row: nat, col: nat)
    requires row < Rows && col < Cols
    ensures exists l ::
      && Resolve(active, row, col) == KeymapAt(l, row, col)
      && (l == Qwerty || (l in active && KeymapAt(l, row, col) != Transparent))
      && (forall x :: x in active && Index(l) < Index(x) ==> KeymapAt(x, row, col) == Transparent)
  {
    var l := ResolvedFrom(active, row, col, 5);
    assert Resolve(active, row, col) == KeymapAt(l, row, col);
  }

  /** `LOWER` and `RAISE` are reachable whatever layers are on: every layer
      above the base layer is transparent at their positions. */
  lemma LowerAndRaiseAlwaysReachable(active: set<Layer>)
    ensures Resolve(active, 3, 4) == LowerKey
    ensures Resolve(active, 3, 7) == RaiseKey
  {
    ControlKeyPositions(ResolvedFrom(active, 3, 4, 5), 3, 4);
    ControlKeyPositions(ResolvedFrom(active, 3, 7, 5), 3, 7);
  }

  /** `GAME1_L` is produced exactly at its position while the game layer is on. */
  lemma Game1LowerReachable(active: set<Layer>, row: nat, col: nat)
    requires row < Rows && col < Cols
    ensures Resolve(active, row, col) == Game1LowerKey <==> Game1 in active && row == 3 && col == 5
  {
    var l := ResolvedFrom(active, row, col, 5);
    ControlKeyPositions(l, row, col);
    if Game1 in active && row == 3 && col == 5 {
      ControlKeyPositions(Game1, row, col);
    }
  }

  /** `T_GAME1` is produced exactly at its position while `Adjust` is on. */
  lemma ToggleGame1Reachable(active: set<Layer>, row: nat, col: nat)
    requires row < Rows && col < Cols
    ensures Resolve(active, row, col) == ToggleGame1Key <==> Adjust in active && row == 0 && col == 7
  {
    var l := ResolvedFrom(active, row, col, 5);
    ControlKeyPositions(l, row, col);
  }

  /** A transparent entry of `Lower` falls through to the base layer. */
  lemma LowerFallsThrough()
    ensures Resolve({Lower}, 2, 0) == Kc("KC_LSFT")
  {
  }
}
