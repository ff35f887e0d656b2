/**
 * `process_record_user`: the keymap's handler for every key event. It
 * intercepts the four custom keycodes and switches layers in response.
 */
module Handler {
  import opened Planck
  import opened QmkLayer

  datatype Option<T> = None | Some(value: T)

  /** A key event as the handler sees it: the keycode and whether the key
      went down. */
  datatype Event = Event(kc: Keycode, pressed: bool)

  /** What one call of the handler does: the active layers afterwards, whether
      the keycode is passed on for further processing, the cue it plays. */
  datatype Outcome = Outcome(layers: set<Layer>, passThrough: bool, cue: Option<Cue>)

  /** A momentary key: its layer on at press, off at release, then the
      tri-layer `Adjust` recomputed from `source` and `Raise`. */
  function Momentary(s: set<Layer>, layer: Layer, source: Layer, pressed: bool): set<Layer>
  {
    var t := if pressed then LayerOn(s, layer) else LayerOff(s, layer);
    UpdateTriLayer(t, source, Raise, Adjust)
  }

  /** The handler as a function of the active layers before the event. */
  function Handle(s: set<Layer>, e: Event): Outcome
  {
    match e.kc
    case LowerKey => Outcome(Momentary(s, Lower, Lower, e.pressed), false, None)
    case RaiseKey => Outcome(Momentary(s, Raise, Lower, e.pressed), false, None)
    case ToggleGame1Key =>
      if !e.pressed then Outcome(s, false, None)
      else if IsLayerOn(s, Game1) then Outcome(LayerOff(s, Game1), false, Some(Game1SongOff))
      else Outcome(LayerOn(s, Game1), false, Some(Game1SongOn))
    case Game1LowerKey => Outcome(Momentary(s, Game1Lower, Game1Lower, e.pressed), false, None)
    case _ => Outcome(s, true, None)
  }

  /** The cues of an outcome, as a trace fragment. */
  function CueList(c: Option<Cue>): seq<Cue>
  {
    if c.Some? then [c.value] else []
  }

  /** The custom keycodes are consumed and every other keycode is passed on
      untouched: no layer changes and no cue is played. */
  lemma PassThroughIffNotCustom(s: set<Layer>, e: Event)
    ensures Handle(s, e).passThrough <==> !IsCustom(e.kc)
    ensures !IsCustom(e.kc) ==> Handle(s, e).layers == s && Handle(s, e).cue == None
  {
  }

  /** `LOWER`: `Lower` follows the key, `Adjust` becomes `Lower` and `Raise`,
      nothing else changes and no cue is played. */
  lemma LowerKeyEffect(s: set<Layer>, pressed: bool)
    ensures var r := Handle(s, Event(LowerKey, pressed)).layers;
      (Lower in r <==> pressed) &&
      (Adjust in r <==> Lower in r && Raise in r) &&
      (forall x :: x != Lower && x != Adjust ==> (x in r <==> x in s))
    ensures Handle(s, Event(LowerKey, pressed)).cue == None
  {
  }

  /** `RAISE`: `Raise` follows the key, `Adjust` becomes `Lower` and `Raise`
      (whatever `Game1Lower` is), nothing else changes. */
  lemma RaiseKeyEffect(s: set<Layer>, pressed: bool)
    ensures var r := Handle(s, Event(RaiseKey, pressed)).layers;
      (Raise in r <==> pressed) &&
      (Adjust in r <==> Lower in r && Raise in r) &&
      (forall x :: x != Raise && x != Adjust ==> (x in r <==> x in s))
    ensures Handle(s, Event(RaiseKey, pressed)).cue == None
  {
  }

  /** `GAME1_L`: `Game1Lower` follows the key, `Adjust` becomes `Game1Lower`
      and `Raise`, nothing else changes. */
  lemma Game1LowerKeyEffect(s: set<Layer>, pressed: bool)
    ensures var r := Handle(s, Event(Game1LowerKey, pressed)).layers;
      (Game1Lower in r <==> pressed) &&
      (Adjust in r <==> Game1Lower in r && Raise in r) &&
      (forall x :: x != Game1Lower && x != Adjust ==> (x in r <==> x in s))
    ensures Handle(s, Event(Game1LowerKey, pressed)).cue == None
  {
  }

  /** `T_GAME1`: a press flips `Game1` alone (no tri-layer update) and plays
      the "off" cue when `Game1` was on, the "on" cue when it was off; a
      release changes nothing and plays nothing. */
  lemma ToggleGame1KeyEffect(s: set<Layer>, pressed: bool)
    ensures var o := Handle(s, Event(ToggleGame1Key, pressed));
      (Game1 in o.layers <==> (Game1 in s) != pressed) &&
      (forall x :: x != Game1 ==> (x in o.layers <==> x in s)) &&
      o.cue == (if !pressed then None else if Game1 in s then Some(Game1SongOff) else Some(Game1SongOn))
  {
  }

  /** No event adds or removes the base layer. */
  lemma QwertyUntouched(s: set<Layer>, e: Event)
    ensures Qwerty in Handle(s, e).layers <==> Qwerty in s
  {
  }

  /** Pressing (or releasing) a momentary key twice in a row is the same as
      doing it once: layer on and off are idempotent and the tri-layer is a
      function of the layers it reads. */
  lemma MomentaryRepeatIdempotent(s: set<Layer>, e: Event)
    requires e.kc.LowerKey? || e.kc.RaiseKey? || e.kc.Game1LowerKey?
    ensures Handle(Handle(s, e).layers, e).layers == Handle(s, e).layers
  {
  }

  /**
   * The process-wide layer state of the firmware and the handler acting on
   * it. `cues` records, in order, the tone sequences the handler has asked
   * the audio driver to play.
   */
  class Keyboard {
    var layerState: set<Layer>
    ghost var cues: seq<Cue>

    /** At start-up no layer is on in the layer state; the base layer is
        active through the (separate) default layer state. */
    constructor ()
      ensures layerState == {} && cues == []
    {
      layerState := {};
      cues := [];
    }

    method LayerOn(l: Layer)
      modifies this
      ensures layerState == QmkLayer.LayerOn(old(layerState), l) && cues == old(cues)
    {
      layerState := layerState + {l};
    }

    method LayerOff(l: Layer)
      modifies this
      ensures layerState == QmkLayer.LayerOff(old(layerState), l) && cues == old(cues)
    {
      layerState := layerState - {l};
    }

    method UpdateTriLayer(a: Layer, b: Layer, c: Layer)
      modifies this
      ensures layerState == QmkLayer.UpdateTriLayer(old(layerState), a, b, c) && cues == old(cues)
    {
      if a in layerState && b in layerState {
        LayerOn(c);
      } else {
        LayerOff(c);
      }
    }

    /** `PLAY_SONG`: hands a tone sequence to the audio driver. */
    method PlaySong(c: Cue)
      modifies this
      ensures layerState == old(layerState) && cues == old(cues) + [c]
    {
      cues := cues + [c];
    }

    /** `process_record_user(keycode, record)`, with `pressed` standing for
        `record->event.pressed`. */
    method ProcessRecord(keycode: Keycode, pressed: bool) returns (passThrough: bool)
      modifies this
      ensures layerState == Handle(old(layerState), Event(keycode, pressed)).layers
      ensures passThrough == Handle(old(layerState), Event(keycode, pressed)).passThrough
      ensures cues == old(cues) + CueList(Handle(old(layerState), Event(keycode, pressed)).cue)
    {
      match keycode {
      case LowerKey =>
        if pressed {
          LayerOn(Lower);
          UpdateTriLayer(Lower, Raise, Adjust);
        } else {
          LayerOff(Lower);
          UpdateTriLayer(Lower, Raise, Adjust);
        }
        return false;
      case RaiseKey =>
        if pressed {
          LayerOn(Raise);
          UpdateTriLayer(Lower, Raise, Adjust);
        } else {
          LayerOff(Raise);
          UpdateTriLayer(Lower, Raise, Adjust);
        }
        return false;
      case ToggleGame1Key =>
        if pressed {
          if Game1 in layerState {
            PlaySong(Game1SongOff);
            LayerOff(Game1);
          } else {
            PlaySong(Game1SongOn);
            LayerOn(Game1);
          }
        }
        return false;
      case Game1LowerKey =>
        if pressed {
          LayerOn(Game1Lower);
          UpdateTriLayer(Game1Lower, Raise, Adjust);
        } else {
          LayerOff(Game1Lower);
          UpdateTriLayer(Game1Lower, Raise, Adjust);
        }
        return false;
      case _ =>
      }
      return true;
    }
  }
}
