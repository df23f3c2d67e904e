/** The observable effects of the cover entity, recorded in the order it
    performs them: the GPIO calls `setup_output` and `write_output` of the
    integration package, the blocking `sleep`, and every assignment to
    `_state`.  The pin levels a sequence of effects leaves behind are given by
    `Replay`, and the pin writes alone by `Writes`. */
module Effects {
  import opened CoverStates

  /** A digital output level. */
  type Level = x: int | 0 <= x <= 1

  datatype Event =
    | SetupOutput(pin: int)
    | WriteOutput(pin: int, level: Level)
    | Sleep(seconds: int)
    | Assign(state: CoverState)

  /** The level a relay pin rests at: high when the relays are inverted. */
  function IdleLevel(invertRelay: bool): (r: Level)
    ensures r == 1 <==> invertRelay
  {
    if invertRelay then 1 else 0
  }

  /** The level that energises a relay: low when the relays are inverted. */
  function ActiveLevel(invertRelay: bool): (r: Level)
    ensures r == 0 <==> invertRelay
    ensures r != IdleLevel(invertRelay)
  {
    if invertRelay then 0 else 1
  }

  /** The release level `_trigger` writes after the pulse level `val`. */
  function Complement(val: Level): (r: Level)
    ensures r != val && r + val == 1
  {
    if val == 1 then 0 else 1
  }

  /** Releasing the active level restores the idle level, and conversely. */
  lemma ReleaseIsIdle(invertRelay: bool)
    ensures Complement(ActiveLevel(invertRelay)) == IdleLevel(invertRelay)
    ensures Complement(IdleLevel(invertRelay)) == ActiveLevel(invertRelay)
    ensures ActiveLevel(invertRelay) != IdleLevel(invertRelay)
  {
  }

  /** The pin writes of a trace, in order. */
  function Writes(t: seq<Event>): seq<(int, Level)>
  {
    if t == [] then []
    else
      var last := t[|t| - 1];
      Writes(t[..|t| - 1]) + (if last.WriteOutput? then [(last.pin, last.level)] else [])
  }

  /** The level each written pin holds after one more effect. */
  function Apply(levels: map<int, Level>, e: Event): map<int, Level> {
    if e.WriteOutput? then levels[e.pin := e.level] else levels
  }

  /** The level of every pin a trace has written: the last level written to it. */
  function Replay(t: seq<Event>): map<int, Level>
  {
    if t == [] then map[] else Apply(Replay(t[..|t| - 1]), t[|t| - 1])
  }

  lemma WritesSnoc(t: seq<Event>, e: Event)
    ensures Writes(t + [e]) == Writes(t) + (if e.WriteOutput? then [(e.pin, e.level)] else [])
  {
    assert (t + [e])[..|t|] == t;
  }

  lemma ReplaySnoc(t: seq<Event>, e: Event)
    ensures Replay(t + [e]) == Apply(Replay(t), e)
  {
    assert (t + [e])[..|t|] == t;
  }

  /** A trace only ever records a level for a pin through a write to it: a
      pin missing from the writes is missing from the replayed levels, and a
      replayed level is the level of the last write to that pin. */
  lemma {:induction false} ReplayMeansLastWrite(t: seq<Event>, pin: int)
    ensures pin in Replay(t) <==> exists i :: 0 <= i < |Writes(t)| && Writes(t)[i].0 == pin
    ensures pin in Replay(t) ==>
      exists i :: 0 <= i < |Writes(t)| && Writes(t)[i] == (pin, Replay(t)[pin])
        && forall j :: i < j < |Writes(t)| ==> Writes(t)[j].0 != pin
  {
    if t != [] {
      var init, last := t[..|t| - 1], t[|t| - 1];
      assert t == init + [last];
      ReplayMeansLastWrite(init, pin);
      WritesSnoc(init, last);
      ReplaySnoc(init, last);
      var w := Writes(init);
      if last.WriteOutput? {
        assert Writes(t) == w + [(last.pin, last.level)];
        if last.pin == pin {
          assert Writes(t)[|w|] == (pin, Replay(t)[pin]);
        } else if pin in Replay(init) {
          var i :| 0 <= i < |w| && w[i] == (pin, Replay(init)[pin])
            && forall j :: i < j < |w| ==> w[j].0 != pin;
          assert Writes(t)[i] == (pin, Replay(t)[pin]);
        } else {
          assert forall i :: 0 <= i < |Writes(t)| ==> Writes(t)[i].0 != pin by {
            forall i | 0 <= i < |Writes(t)| ensures Writes(t)[i].0 != pin {
              if i < |w| { assert Writes(t)[i] == w[i]; }
            }
          }
        }
      } else {
        assert Writes(t) == w;
      }
    }
  }
}
