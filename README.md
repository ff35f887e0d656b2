# cflee Planck keymap: layer-switching handler

A Dafny model of the user-level key handler of the cflee keymap for the Planck
keyboard (QMK firmware). The keymap declares six layers (`_QWERTY`, `_LOWER`,
`_RAISE`, `_GAME1`, `_GAME1_LOWER`, `_ADJUST`), four custom keycodes (`LOWER`,
`RAISE`, `T_GAME1`, `GAME1_L`) and a 6 × 4 × 12 keymap table. Its handler
`process_record_user` is called for every key event:

- `LOWER`, `RAISE` and `GAME1_L` are momentary: their layer goes on at press
  and off at release, and `_ADJUST` is then recomputed with
  `update_tri_layer` from one source pair (`_LOWER`/`_RAISE` for the first two,
  `_GAME1_LOWER`/`_RAISE` for the third);
- `T_GAME1` latches: each press flips `_GAME1` and plays an "on" or "off"
  tone sequence; releases do nothing;
- every other keycode is passed on (`true`) without touching any layer.

Files:

- `planck.dfy` (module `Planck`): the layer and keycode enumerations and the cues.
- `keymap.dfy` (module `Keymap`): the keymap table as constant data and where
  the custom keys sit in it.
- `qmk_layer.dfy` (module `QmkLayer`): QMK's `layer_on`, `layer_off`,
  `IS_LAYER_ON` and `update_tri_layer` on the set of active layers. They are
  QMK library code, declared through `action_layer.h`, and not part of this
  model; they are given their documented meaning, and that is an assumption of
  the model.
- `handler.dfy` (module `Handler`): `Handle`, the handler as a function of the
  active layers, its per-keycode properties, and the class `Keyboard`, which
  holds the process-wide layer state and a ghost trace of played cues, with
  `ProcessRecord` doing what `process_record_user` does, step by step, through
  the layer primitives.
- `runs.dfy` (module `Runs`): sequences of events; the parity of the game-mode
  latch, the cue trace, the invariants kept over any sequence, and concrete
  scenarios.
- `resolution.dfy` (module `Resolution`): QMK's choice of the keycode of a key
  position through transparent entries. This is also library behaviour and an
  assumption; it is used only to show from which layers each custom key can be
  reached.

Three facts about the code that the model keeps:

- `_ADJUST` is recomputed from one source pair per call, with no OR across
  the two bindings (`_LOWER`+`_RAISE` and `_GAME1_LOWER`+`_RAISE`), so the
  order of presses matters (`Runs.Game1LowerThenRaise`,
  `Runs.RaiseThenGame1Lower`, `Runs.Game1LowerTapDropsAdjust`).
- Turning `_GAME1` off does not turn `_GAME1_LOWER` off
  (`Runs.Game1OffKeepsGame1Lower`).
- The base layer has a transparent entry at row 3, column 0
  (`Keymap.QwertyTransparentCorner`).

## Model

| member | source | states |
|---|---|---|
| Keymap.Table | keyboards/planck/keymaps/cflee/keymap.c:34-154 | every layer of the table has 4 rows of 12 keycodes |
| Keymap.ControlKeyPositions | keyboards/planck/keymaps/cflee/keymap.c:34-154 | `LOWER` and `RAISE` occur only in `_QWERTY` at row 3, columns 4 and 7; `GAME1_L` only in `_GAME1` at row 3, column 5; `T_GAME1` only in `_ADJUST` at row 0, column 7 (both directions) |
| Keymap.QwertyTransparentCorner | keyboards/planck/keymaps/cflee/keymap.c:55-60 | the base layer has a transparent entry at row 3, column 0, and nowhere else |
| QmkLayer.LayerOn | keyboards/planck/keymaps/cflee/keymap.c:165 | (assumed meaning) the layer becomes active and no other layer changes |
| QmkLayer.LayerOff | keyboards/planck/keymaps/cflee/keymap.c:168 | (assumed meaning) the layer becomes inactive and no other layer changes |
| QmkLayer.UpdateTriLayer | keyboards/planck/keymaps/cflee/keymap.c:166 | (assumed meaning) the third layer is on exactly when the first two are both on; no other layer changes |
| Handler.PassThroughIffNotCustom | keyboards/planck/keymaps/cflee/keymap.c:161-211 | the handler returns `false` exactly for the four custom keycodes; any other keycode returns `true`, changes no layer and plays no cue |
| Handler.LowerKeyEffect | keyboards/planck/keymaps/cflee/keymap.c:163-172 | after a `LOWER` event `_LOWER` is on iff it was a press, `_ADJUST` is on iff `_LOWER` and `_RAISE` are, no other layer changes, no cue |
| Handler.RaiseKeyEffect | keyboards/planck/keymaps/cflee/keymap.c:173-182 | after a `RAISE` event `_RAISE` is on iff it was a press, `_ADJUST` is on iff `_LOWER` and `_RAISE` are (whatever `_GAME1_LOWER` is), no other layer changes, no cue |
| Handler.ToggleGame1KeyEffect | keyboards/planck/keymaps/cflee/keymap.c:183-198 | a `T_GAME1` press flips `_GAME1` and nothing else (no tri-layer update) and plays "off" if `_GAME1` was on, "on" if it was off; a release changes nothing and plays nothing |
| Handler.Game1LowerKeyEffect | keyboards/planck/keymaps/cflee/keymap.c:199-208 | after a `GAME1_L` event `_GAME1_LOWER` is on iff it was a press, `_ADJUST` is on iff `_GAME1_LOWER` and `_RAISE` are, no other layer changes, no cue |
| Handler.QwertyUntouched | keyboards/planck/keymaps/cflee/keymap.c:161-211 | no event adds or removes `_QWERTY` |
| Handler.MomentaryRepeatIdempotent | keyboards/planck/keymaps/cflee/keymap.c:163-208 | repeating the same momentary-key event gives the same layers as doing it once |
| Handler.Keyboard.constructor | keyboards/planck/keymaps/cflee/keymap.c:161-211 | (assumed) the layer state the handler first sees at start-up is empty and no cue has been played |
| Handler.Keyboard.LayerOn | keyboards/planck/keymaps/cflee/keymap.c:165 | (assumed meaning) the `layer_on` step of the handler (also lines 175, 194, 201): the new layer state is `QmkLayer.LayerOn` of the old, no cue |
| Handler.Keyboard.LayerOff | keyboards/planck/keymaps/cflee/keymap.c:168 | (assumed meaning) the `layer_off` step of the handler (also lines 178, 189, 204): the new layer state is `QmkLayer.LayerOff` of the old, no cue |
| Handler.Keyboard.UpdateTriLayer | keyboards/planck/keymaps/cflee/keymap.c:166 | (assumed meaning) the `update_tri_layer` step of the handler (also lines 169, 176, 179, 202, 205): the new layer state is `QmkLayer.UpdateTriLayer` of the old, no cue |
| Handler.Keyboard.PlaySong | keyboards/planck/keymaps/cflee/keymap.c:186-193 | the cue is appended to the trace; the layer state is unchanged |
| Handler.Keyboard.ProcessRecord | keyboards/planck/keymaps/cflee/keymap.c:161-211 | the new layer state, the return value and the appended cues are those of `Handle` on the old layer state |
| Runs.Game1Parity | keyboards/planck/keymaps/cflee/keymap.c:183-198 | after any sequence of events `_GAME1` has flipped iff `T_GAME1` was pressed an odd number of times |
| Runs.Game1ParityFromStart | keyboards/planck/keymaps/cflee/keymap.c:183-198 | from start-up, N presses of `T_GAME1` with anything in between leave `_GAME1` on iff N is odd |
| Runs.OneCuePerTogglePress | keyboards/planck/keymaps/cflee/keymap.c:184-195 | a sequence of events plays exactly one cue per `T_GAME1` press |
| Runs.CuesAlternate | keyboards/planck/keymaps/cflee/keymap.c:184-195 | the cues played alternate, starting with "on" when `_GAME1` was off and "off" when it was on |
| Runs.QwertyNeverChanges | keyboards/planck/keymaps/cflee/keymap.c:161-211 | no sequence of events adds or removes `_QWERTY` |
| Runs.HandleKeepsAdjustSound | keyboards/planck/keymaps/cflee/keymap.c:161-208 | every event keeps: `_ADJUST` on only with `_RAISE` and one of `_LOWER`, `_GAME1_LOWER` on |
| Runs.RunKeepsAdjustSound | keyboards/planck/keymaps/cflee/keymap.c:161-208 | the same invariant holds after any sequence of events |
| Runs.TriLayerWithoutGame1Lower | keyboards/planck/keymaps/cflee/keymap.c:163-198 | while `GAME1_L` is not used, `_ADJUST` stays on exactly when `_LOWER` and `_RAISE` both are |
| Runs.Game1LowerThenRaise | keyboards/planck/keymaps/cflee/keymap.c:173-182 | holding `GAME1_L` and then pressing `RAISE` leaves `_ADJUST` off |
| Runs.RaiseThenGame1Lower | keyboards/planck/keymaps/cflee/keymap.c:199-208 | pressing `RAISE` and then `GAME1_L` turns `_ADJUST` on |
| Runs.Game1LowerTapDropsAdjust | keyboards/planck/keymaps/cflee/keymap.c:199-208 | tapping `GAME1_L` while `LOWER` and `RAISE` are held leaves `_ADJUST` off |
| Runs.Game1OffKeepsGame1Lower | keyboards/planck/keymaps/cflee/keymap.c:183-208 | turning `_GAME1` off while `GAME1_L` is held leaves `_GAME1_LOWER` on; cues "on" then "off" |
| Resolution.ResolvedFrom | keyboards/planck/keymaps/cflee/keymap.c:34-154 | (assumed library behaviour) the chosen layer is the base layer or an active layer with a concrete entry, and every active layer above it is transparent there |
| Resolution.Resolve | keyboards/planck/keymaps/cflee/keymap.c:34-154 | (assumed library behaviour) the keycode a position produces; it is transparent only at the base layer's one transparent entry, row 3, column 0 |
| Resolution.ResolveChoosesHighest | keyboards/planck/keymaps/cflee/keymap.c:34-154 | (assumed library behaviour) the resolved keycode is the entry of such a layer |
| Resolution.LowerAndRaiseAlwaysReachable | keyboards/planck/keymaps/cflee/keymap.c:59 | with any layers on, row 3 columns 4 and 7 produce `LOWER` and `RAISE` |
| Resolution.Game1LowerReachable | keyboards/planck/keymaps/cflee/keymap.c:115 | a position produces `GAME1_L` iff `_GAME1` is on and it is row 3, column 5 |
| Resolution.ToggleGame1Reachable | keyboards/planck/keymaps/cflee/keymap.c:148 | a position produces `T_GAME1` iff `_ADJUST` is on and it is row 0, column 7 |
| Resolution.LowerFallsThrough | keyboards/planck/keymaps/cflee/keymap.c:78 | with only `_LOWER` on, its transparent entry at row 2, column 0 falls through to the base layer's Shift |

## Left out

- The tone data `game1_song_on` / `game1_song_off` (frequencies as floats): only which cue is played is modelled, as an entry of a ghost trace.
- `PLAY_SONG` itself and the `AUDIO_ENABLE` build switch: the model plays the cues as a build with audio enabled does; a build without audio plays none and the layer logic is the same.
- The numeric keycode values (`SAFE_RANGE` and up) and the shortcut macros such as `CMD_1P` and `C_SS`: keycodes other than the four custom ones and the transparent entry are kept opaque by name.
- The bodies of `layer_on`, `layer_off`, `IS_LAYER_ON`, `update_tri_layer` and of key resolution through transparent entries: QMK library code, given their documented meaning on a set of layers; the 32-bit layer bitmask is not modelled.
- The rest of the key record (position, timestamp) and what QMK does with a keycode the handler passes on.
- Matrix scanning, USB HID reports, the `RESET`, `DEBUG`, `AG_*` and `AU_*` actions and `keymap_config`: firmware services outside this keymap.
