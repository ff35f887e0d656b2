/**
 * The layers and custom keycodes of the cflee Planck keymap, and the audio
 * cues its handler can emit.
 */
module Planck {

  /** The layers of the keymap, in declaration order; a later layer takes
      priority over an earlier one when a key position is resolved. */
  datatype Layer = Qwerty | Lower | Raise | Game1 | Game1Lower | Adjust

  /** A logical keycode. The four custom keycodes are distinct from every
      other keycode; `Transparent` is the table sentinel meaning "defer to the
      next active layer below"; every other keycode is kept opaque by name. */
  datatype Keycode =
    | LowerKey
    | RaiseKey
    | ToggleGame1Key
    | Game1LowerKey
    | Transparent
    | Kc(name: string)

  /** The two tone sequences the game-mode latch plays. */
  datatype Cue = Game1SongOn | Game1SongOff

  /** The position of a layer in the enumeration: its number in the firmware. */
  function Index(l: Layer): (i: nat)
    ensures i < 6
  {
    match l
    case Qwerty => 0
    case Lower => 1
    case Raise => 2
    case Game1 => 3
    case Game1Lower => 4
    case Adjust => 5
  }

  /** The layer with number `i`. */
  function LayerAt(i: nat): (l: Layer)
    requires i < 6
    ensures Index(l) == i
  {
    if i == 0 then Qwerty
    else if i == 1 then Lower
    else if i == 2 then Raise
    else if i == 3 then Game1
    else if i == 4 then Game1Lower
    else Adjust
  }

  /** The keycodes the handler intercepts instead of passing them on. */
  predicate IsCustom(kc: Keycode)
  {
    kc.LowerKey? || kc.RaiseKey? || kc.ToggleGame1Key? || kc.Game1LowerKey?
  }
}
