/**
 * The layer primitives of QMK's action_layer.h, which this keymap calls but
 * whose bodies are not part of this model, given their documented meaning on
 * the set of active layers (the firmware keeps that set as a bitmask).
 */
module QmkLayer {
  import opened Planck

  /** `layer_on`: the layer becomes active, no other layer changes. */
  function LayerOn(s: set<Layer>, l: Layer): (r: set<Layer>)
    ensures l in r
    ensures forall x :: x != l ==> (x in r <==> x in s)
  {
    s + {l}
  }

  /** `layer_off`: the layer becomes inactive, no other layer changes. */
  function LayerOff(s: set<Layer>, l: Layer): (r: set<Layer>)
    ensures l !in r
    ensures forall x :: x != l ==> (x in r <==> x in s)
  {
    s - {l}
  }

  /** `IS_LAYER_ON`: membership. */
  predicate IsLayerOn(s: set<Layer>, l: Layer)
  {
    l in s
  }

  /** `update_tri_layer(a, b, c)`: `c` is made active exactly when `a` and
      `b` are both active; no other layer changes. */
  function UpdateTriLayer(s: set<Layer>, a: Layer, b: Layer, c: Layer): (r: set<Layer>)
    ensures c in r <==> a in s && b in s
    ensures forall x :: x != c ==> (x in r <==> x in s)
  {
    if IsLayerOn(s, a) && IsLayerOn(s, b) then LayerOn(s, c) else LayerOff(s, c)
  }
}
