/**
 * Sequences of key events fed to the handler one after the other, as the
 * firmware does, and what holds after any such sequence.
 */
module Runs {
  import opened Planck
  import opened Handler

  /** The active layers after handling `evs` in order, starting from `s`. */
  function Run(s: set<Layer>, evs: seq<Event>): set<Layer>
    decreases |evs|
  {
    if evs == [] then s else Run(Handle(s, evs[0]).layers, evs[1..])
  }

  /** The cues played while handling `evs` in order, starting from `s`. */
  function CueTrace(s: set<Layer>, evs: seq<Event>): seq<Cue>
    decreases |evs|
  {
    if evs == [] then [] else CueList(Handle(s, evs[0]).cue) + CueTrace(Handle(s, evs[0]).layers, evs[1..])
  }

  /** The number of `T_GAME1` presses in `evs`. */
  function TogglePresses(evs: seq<Event>): nat
    decreases |evs|
  {
    if evs == [] then 0
    else (if evs[0] == Event(ToggleGame1Key, true) then 1 else 0) + TogglePresses(evs[1..])
  }

  /** `Game1` ends up flipped exactly when `T_GAME1` was pressed an odd number
      of times, whatever releases and other keys come in between. */
  lemma {:induction false} Game1Parity(s: set<Layer>, evs: seq<Event>)
    ensures Game1 in Run(s, evs) <==> (Game1 in s) != (TogglePresses(evs) % 2 == 1)
    decreases |evs|
  {
    if evs != [] {
      var e := evs[0];
      var t := Handle(s, e).layers;
      Game1Parity(t, evs[1..]);
      if e.kc == ToggleGame1Key {
        ToggleGame1KeyEffect(s, e.pressed);
      } else if e.kc == LowerKey {
        LowerKeyEffect(s, e.pressed);
      } else if e.kc == RaiseKey {
        RaiseKeyEffect(s, e.pressed);
      } else if e.kc == Game1LowerKey {
        Game1LowerKeyEffect(s, e.pressed);
      }
    }
  }

  /** From start-up, N presses of `T_GAME1` leave the game layer on iff N is odd. */
  lemma Game1ParityFromStart(evs: seq<Event>)
    ensures Game1 in Run({}, evs) <==> TogglePresses(evs) % 2 == 1
  {
    Game1Parity({}, evs);
  }

  /** Exactly one cue per `T_GAME1` press and none for any other event. */
  lemma {:induction false} OneCuePerTogglePress(s: set<Layer>, evs: seq<Event>)
    ensures |CueTrace(s, evs)| == TogglePresses(evs)
    decreases |evs|
  {
    if evs != [] {
      OneCuePerTogglePress(Handle(s, evs[0]).layers, evs[1..]);
    }
  }

  /** The cues alternate, starting with "on" when the game layer was off and
      with "off" when it was on. */
  lemma {:induction false} CuesAlternate(s: set<Layer>, evs: seq<Event>)
    ensures forall i :: 0 <= i < |CueTrace(s, evs)| ==>
      CueTrace(s, evs)[i] == (if (Game1 in s) == (i % 2 == 0) then Game1SongOff else Game1SongOn)
    decreases |evs|
  {
    if evs != [] {
      var e := evs[0];
      var t := Handle(s, e).layers;
      CuesAlternate(t, evs[1..]);
      var head := CueList(Handle(s, e).cue);
      var tail := CueTrace(t, evs[1..]);
      assert CueTrace(s, evs) == head + tail;
      if e == Event(ToggleGame1Key, true) {
        ToggleGame1KeyEffect(s, true);
        assert |head| == 1;
        forall i | 0 <= i < |head + tail|
          ensures (head + tail)[i] == (if (Game1 in s) == (i % 2 == 0) then Game1SongOff else Game1SongOn)
        {
          if i > 0 {
            assert (head + tail)[i] == tail[i - 1];
          }
        }
      } else {
        assert head == [];
        PassThroughIffNotCustom(s, e);
        if e.kc == ToggleGame1Key {
          ToggleGame1KeyEffect(s, e.pressed);
        } else if e.kc == LowerKey {
          LowerKeyEffect(s, e.pressed);
        } else if e.kc == RaiseKey {
          RaiseKeyEffect(s, e.pressed);
        } else if e.kc == Game1LowerKey {
          Game1LowerKeyEffect(s, e.pressed);
        }
        assert Game1 in t <==> Game1 in s;
      }
    }
  }

  /** No sequence of events ever adds or removes the base layer. */
  lemma {:induction false} QwertyNeverChanges(s: set<Layer>, evs: seq<Event>)
    ensures Qwerty in Run(s, evs) <==> Qwerty in s
    decreases |evs|
  {
    if evs != [] {
      QwertyUntouched(s, evs[0]);
      QwertyNeverChanges(Handle(s, evs[0]).layers, evs[1..]);
    }
  }

  /** `Adjust` is only ever on together with `Raise` and one of the two lower
      layers it is bound to. */
  predicate AdjustSound(s: set<Layer>)
  {
    Adjust in s ==> Raise in s && (Lower in s || Game1Lower in s)
  }

  /** Every event keeps `AdjustSound`. */
  lemma HandleKeepsAdjustSound(s: set<Layer>, e: Event)
    requires AdjustSound(s)
    ensures AdjustSound(Handle(s, e).layers)
  {
    if e.kc == ToggleGame1Key {
      ToggleGame1KeyEffect(s, e.pressed);
    } else if e.kc == LowerKey {
      LowerKeyEffect(s, e.pressed);
    } else if e.kc == RaiseKey {
      RaiseKeyEffect(s, e.pressed);
    } else if e.kc == Game1LowerKey {
      Game1LowerKeyEffect(s, e.pressed);
    }
  }

  /** From any state where `AdjustSound` holds (start-up's empty state among
      them), it holds after any sequence of events. */
  lemma {:induction false} RunKeepsAdjustSound(s: set<Layer>, evs: seq<Event>)
    requires AdjustSound(s)
    ensures AdjustSound(Run(s, evs))
    decreases |evs|
  {
    if evs != [] {
      HandleKeepsAdjustSound(s, evs[0]);
      RunKeepsAdjustSound(Handle(s, evs[0]).layers, evs[1..]);
    }
  }

  /** The plain tri-layer rule: `Adjust` is on exactly when `Lower` and
      `Raise` both are. */
  predicate TriLayerHolds(s: set<Layer>)
  {
    Adjust in s <==> Lower in s && Raise in s
  }

  /** As long as `GAME1_L` is not touched, every event keeps the plain
      tri-layer rule. */
  lemma {:induction false} TriLayerWithoutGame1Lower(s: set<Layer>, evs: seq<Event>)
    requires TriLayerHolds(s)
    requires forall i :: 0 <= i < |evs| ==> evs[i].kc != Game1LowerKey
    ensures TriLayerHolds(Run(s, evs))
    decreases |evs|
  {
    if evs != [] {
      var e := evs[0];
      if e.kc == ToggleGame1Key {
        ToggleGame1KeyEffect(s, e.pressed);
      } else if e.kc == LowerKey {
        LowerKeyEffect(s, e.pressed);
      } else if e.kc == RaiseKey {
        RaiseKeyEffect(s, e.pressed);
      } else {
        PassThroughIffNotCustom(s, e);
      }
      TriLayerWithoutGame1Lower(Handle(s, e).layers, evs[1..]);
    }
  }

  /** Holding `GAME1_L` and then pressing `RAISE` leaves `Adjust` off: the
      `RAISE` handler only looks at `Lower` and `Raise`. */
  lemma Game1LowerThenRaise()
    ensures Run({Game1}, [Event(Game1LowerKey, true), Event(RaiseKey, true)]) == {Game1, Game1Lower, Raise}
  {
  }

  /** Pressing `RAISE` and then `GAME1_L` does reach `Adjust`: the order of the
      two presses decides. */
  lemma RaiseThenGame1Lower()
    ensures Run({Game1}, [Event(RaiseKey, true), Event(Game1LowerKey, true)]) == {Game1, Raise, Game1Lower, Adjust}
  {
  }

  /** Tapping `GAME1_L` while `LOWER` and `RAISE` are held turns `Adjust` off,
      although `Lower` and `Raise` stay on. */
  lemma Game1LowerTapDropsAdjust()
    ensures Run({}, [Event(LowerKey, true), Event(RaiseKey, true), Event(Game1LowerKey, true), Event(Game1LowerKey, false)])
      == {Lower, Raise}
  {
  }

  /** Turning the game layer off while `GAME1_L` is held leaves `Game1Lower`
      on; the two cues are "on" then "off". */
  lemma Game1OffKeepsGame1Lower()
    ensures Run({}, [Event(ToggleGame1Key, true), Event(ToggleGame1Key, false), Event(Game1LowerKey, true), Event(ToggleGame1Key, true)])
      == {Game1Lower}
    ensures CueTrace({}, [Event(ToggleGame1Key, true), Event(ToggleGame1Key, false), Event(Game1LowerKey, true), Event(ToggleGame1Key, true)])
      == [Game1SongOn, Game1SongOff]
  {
  }
}
