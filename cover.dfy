/** The cover entity `OPiGPIOCover`: three relay pins (close, stop, open),
    a discrete state and the time of the last relay pulse.  Each command is
    specified by a function from the entity's observable state before to its
    observable state after (`AfterClose`, `AfterOpen`, `AfterStop`,
    `AfterRestore`); the class `OPiGPIOCover` performs the same steps in
    place and is proved to meet those functions. */
module Cover {
  import opened CoverStates
  import opened Effects
  import opened Position

  /** Seconds a relay is held for an ordinary pulse. */
  const RelayTime: int := 1
  /** Seconds the stop relay is held when it stands in for the open relay. */
  const IntermediateTime: int := 5

  datatype Option<T> = None | Some(value: T)

  /** The configuration an entity is built from. */
  datatype Config = Config(
    closePin: int,
    stopPin: int,
    openPin: int,
    invertRelay: bool,
    intermediateMode: bool,
    closeDuration: nat,
    openDuration: nat)

  /** Everything the entity's commands read or change: `_state`, the level of
      every written pin, the log of effects and `_start_time` (a clock reading
      in microseconds). */
  datatype Snapshot = Snapshot(
    state: CoverState,
    levels: map<int, Level>,
    trace: seq<Event>,
    startTime: int)

  // One step of each kind: an assignment to `_state`, `setup_output`,
  // `write_output` and `sleep`.

  function Assigned(s: Snapshot, st: CoverState): Snapshot {
    s.(state := st, trace := s.trace + [Assign(st)])
  }

  function SetUp(s: Snapshot, pin: int): Snapshot {
    s.(trace := s.trace + [SetupOutput(pin)])
  }

  function Written(s: Snapshot, pin: int, val: Level): Snapshot {
    s.(levels := s.levels[pin := val], trace := s.trace + [WriteOutput(pin, val)])
  }

  function Slept(s: Snapshot, seconds: int): Snapshot {
    s.(trace := s.trace + [Sleep(seconds)])
  }

  /** `_trigger(pin, val, delay, duration)` started at clock reading `now`. */
  function Pulsed(s: Snapshot, pin: int, val: Level, delay: int, duration: int, now: int): (r: Snapshot)
    ensures r.state == s.state && r.startTime == now
    ensures r.levels == s.levels[pin := Complement(val)]
    ensures s.trace <= r.trace && |r.trace| == |s.trace| + 4
  {
    var pressed := Slept(Written(s.(startTime := now), pin, val), delay);
    Slept(Written(pressed, pin, Complement(val)), duration)
  }

  /** The state right after `__init__` at clock reading `now`. */
  function Initial(c: Config, now: int): (r: Snapshot)
    ensures r.state == Closed && r.startTime == now
    ensures IsIdle(c, r.levels, c.closePin) && IsIdle(c, r.levels, c.stopPin) && IsIdle(c, r.levels, c.openPin)
  {
    var created := Snapshot(Closed, map[], [Assign(Closed)], now);
    var setUp := SetUp(SetUp(SetUp(created, c.closePin), c.stopPin), c.openPin);
    var idle := IdleLevel(c.invertRelay);
    Written(Written(Written(setUp, c.closePin, idle), c.stopPin, idle), c.openPin, idle)
  }

  /** `close_cover` at clock reading `now`. */
  function AfterClose(c: Config, s: Snapshot, now: int): (r: Snapshot)
    ensures r.state == Closed
    ensures IsClosed(s.state) ==> r == s
    ensures !IsClosed(s.state) ==>
      r.startTime == now && r.levels == s.levels[c.closePin := IdleLevel(c.invertRelay)]
  {
    if IsClosed(s.state) then s
    else
      var closing := Assigned(s, Closing);
      Assigned(Pulsed(closing, c.closePin, ActiveLevel(c.invertRelay), RelayTime, c.closeDuration, now), Closed)
  }

  /** The pin `open_cover` pulses: the stop pin in intermediate mode. */
  function OpenPulsePin(c: Config): int {
    if c.intermediateMode then c.stopPin else c.openPin
  }

  /** How long `open_cover` holds its relay. */
  function OpenPulseTime(c: Config): int {
    if c.intermediateMode then IntermediateTime else RelayTime
  }

  /** `open_cover` at clock reading `now`. */
  function AfterOpen(c: Config, s: Snapshot, now: int): (r: Snapshot)
    ensures !IsClosed(s.state) ==> r == s
    ensures IsClosed(s.state) ==>
      r.state == Open && r.startTime == now && r.levels == s.levels[OpenPulsePin(c) := IdleLevel(c.invertRelay)]
  {
    if !IsClosed(s.state) then s
    else
      var opening := Assigned(s, Opening);
      Assigned(Pulsed(opening, OpenPulsePin(c), ActiveLevel(c.invertRelay), OpenPulseTime(c), c.openDuration, now), Open)
  }

  /** `stop_cover` at clock reading `now`. */
  function AfterStop(c: Config, s: Snapshot, now: int): (r: Snapshot)
    ensures r.state == s.state && r.startTime == now
    ensures r.levels == s.levels[c.stopPin := IdleLevel(c.invertRelay)]
  {
    Pulsed(s, c.stopPin, ActiveLevel(c.invertRelay), RelayTime, 0, now)
  }

  /** The state restoration of `async_added_to_hass`, given the host's last
      known state string, if any. */
  function AfterRestore(s: Snapshot, last: Option<string>): (r: Snapshot)
    ensures last.None? ==> r == s
    ensures last.Some? ==> Name(r.state) == last.value && WellFormed(r.state)
    ensures r.levels == s.levels && r.startTime == s.startTime
  {
    if last.None? then s
    else
      NameOfStateOf(last.value);
      Assigned(s, StateOf(last.value))
  }

  /** `current_cover_position` at clock reading `now`; `None` stands for the
      division by zero the source raises when the closing time is 0. */
  function CoverPosition(c: Config, s: Snapshot, now: int): (p: Option<int>)
    ensures p.None? <==> c.closeDuration == 0
    ensures p.Some? && ElapsedSeconds(s.startTime, now) <= c.closeDuration ==> 0 <= p.value <= 100
    ensures p.Some? && s.state == Opening ==> p.value >= 0
    ensures p.Some? && s.state != Opening ==> p.value <= 100
  {
    if c.closeDuration == 0 then None
    else
      var seconds := ElapsedSeconds(s.startTime, now);
      EstimateInRange(s.state, seconds, c.closeDuration);
      Some(Estimate(s.state, seconds, c.closeDuration))
  }

  predicate IsIdle(c: Config, levels: map<int, Level>, pin: int) {
    pin in levels && levels[pin] == IdleLevel(c.invertRelay)
  }

  /** The entity's invariant: the pin levels are those its writes leave
      behind, no relay is energised, and the state is well formed. */
  predicate Consistent(c: Config, s: Snapshot) {
    && s.levels == Replay(s.trace)
    && IsIdle(c, s.levels, c.closePin)
    && IsIdle(c, s.levels, c.stopPin)
    && IsIdle(c, s.levels, c.openPin)
    && WellFormed(s.state)
  }

  /** `_trigger` makes exactly two writes, both to `pin`, the second the
      complement of the first; it leaves `pin` at the complement, records the
      clock reading and changes nothing else. */
  lemma PulsedEffect(s: Snapshot, pin: int, val: Level, delay: int, duration: int, now: int)
    ensures var r := Pulsed(s, pin, val, delay, duration, now);
      && r.trace == s.trace + [WriteOutput(pin, val), Sleep(delay), WriteOutput(pin, Complement(val)), Sleep(duration)]
      && Writes(r.trace) == Writes(s.trace) + [(pin, val), (pin, Complement(val))]
      && r.levels == s.levels[pin := Complement(val)]
      && (s.levels == Replay(s.trace) ==> r.levels == Replay(r.trace))
      && r.state == s.state
      && r.startTime == now
  {
    var t := s.trace;
    var e1, e2, e3, e4 := WriteOutput(pin, val), Sleep(delay), WriteOutput(pin, Complement(val)), Sleep(duration);
    var written := Written(s.(startTime := now), pin, val);
    var pressed := Slept(written, delay);
    var released := Written(pressed, pin, Complement(val));
    var r := Slept(released, duration);
    assert r.trace == t + [e1] + [e2] + [e3] + [e4];
    assert t + [e1] + [e2] + [e3] + [e4] == t + [e1, e2, e3, e4];
    WriteStep(s.(startTime := now), pin, val);
    SilentStep(written, e2);
    WriteStep(pressed, pin, Complement(val));
    SilentStep(released, e4);
  }

  /** A write adds itself to the writes and to the replayed levels. */
  lemma WriteStep(s: Snapshot, pin: int, val: Level)
    ensures Writes(Written(s, pin, val).trace) == Writes(s.trace) + [(pin, val)]
    ensures s.levels == Replay(s.trace) ==> Written(s, pin, val).levels == Replay(Written(s, pin, val).trace)
  {
    WritesSnoc(s.trace, WriteOutput(pin, val));
    ReplaySnoc(s.trace, WriteOutput(pin, val));
  }

  /** A step that writes no pin keeps the writes and the replayed levels. */
  lemma SilentStep(s: Snapshot, e: Event)
    requires !e.WriteOutput?
    ensures Writes(s.trace + [e]) == Writes(s.trace)
    ensures Replay(s.trace + [e]) == Replay(s.trace)
  {
    WritesSnoc(s.trace, e);
    ReplaySnoc(s.trace, e);
  }

  /** A motion command: an assignment of the transient state `via`, one
      pulse, an assignment of the final state. */
  lemma MotionEffect(s: Snapshot, via: CoverState, final: CoverState, pin: int, val: Level,
                     hold: int, duration: int, now: int)
    ensures var r := Assigned(Pulsed(Assigned(s, via), pin, val, hold, duration, now), final);
      && r.state == final
      && r.startTime == now
      && r.trace == s.trace + [Assign(via), WriteOutput(pin, val), Sleep(hold),
                               WriteOutput(pin, Complement(val)), Sleep(duration), Assign(final)]
      && Writes(r.trace) == Writes(s.trace) + [(pin, val), (pin, Complement(val))]
      && r.levels == s.levels[pin := Complement(val)]
      && (s.levels == Replay(s.trace) ==> r.levels == Replay(r.trace))
  {
    var moving := Assigned(s, via);
    var pulsed := Pulsed(moving, pin, val, hold, duration, now);
    MotionTrace(s, via, final, pin, val, hold, duration, now);
    SilentStep(s, Assign(via));
    PulsedEffect(moving, pin, val, hold, duration, now);
    SilentStep(pulsed, Assign(final));
  }

  lemma MotionTrace(s: Snapshot, via: CoverState, final: CoverState, pin: int, val: Level,
                    hold: int, duration: int, now: int)
    ensures Assigned(Pulsed(Assigned(s, via), pin, val, hold, duration, now), final).trace
         == s.trace + [Assign(via), WriteOutput(pin, val), Sleep(hold),
                       WriteOutput(pin, Complement(val)), Sleep(duration), Assign(final)]
  {
    var moving := Assigned(s, via);
    PulsedEffect(moving, pin, val, hold, duration, now);
    assert s.trace + [Assign(via)] + [WriteOutput(pin, val), Sleep(hold), WriteOutput(pin, Complement(val)), Sleep(duration)]
                   + [Assign(final)]
        == s.trace + [Assign(via), WriteOutput(pin, val), Sleep(hold),
                      WriteOutput(pin, Complement(val)), Sleep(duration), Assign(final)];
  }

  /** After construction the state is Closed, the clock reading is kept, the
      three pins are set up and then written once each, close, stop and open
      in that order, with the idle level, the level each pin then holds. */
  lemma InitialEffect(c: Config, now: int)
    ensures var r := Initial(c, now);
      var idle := IdleLevel(c.invertRelay);
      && r.state == Closed
      && r.startTime == now
      && r.trace == [Assign(Closed), SetupOutput(c.closePin), SetupOutput(c.stopPin), SetupOutput(c.openPin),
                     WriteOutput(c.closePin, idle), WriteOutput(c.stopPin, idle), WriteOutput(c.openPin, idle)]
      && Writes(r.trace) == [(c.closePin, idle), (c.stopPin, idle), (c.openPin, idle)]
      && r.levels == Replay(r.trace)
  {
    var idle := IdleLevel(c.invertRelay);
    var s0 := Snapshot(Closed, map[], [Assign(Closed)], now);
    var s3 := SetUp(SetUp(SetUp(s0, c.closePin), c.stopPin), c.openPin);
    SetupPhase(s0, c.closePin, c.stopPin, c.openPin);
    assert [] + [Assign(Closed)] == s0.trace;
    WritesSnoc([], Assign(Closed));
    ReplaySnoc([], Assign(Closed));
    WritePhase(s3, c.closePin, c.stopPin, c.openPin, idle);
    assert s0.trace + [SetupOutput(c.closePin), SetupOutput(c.stopPin), SetupOutput(c.openPin)]
                    + [WriteOutput(c.closePin, idle), WriteOutput(c.stopPin, idle), WriteOutput(c.openPin, idle)]
        == [Assign(Closed), SetupOutput(c.closePin), SetupOutput(c.stopPin), SetupOutput(c.openPin),
            WriteOutput(c.closePin, idle), WriteOutput(c.stopPin, idle), WriteOutput(c.openPin, idle)];
  }

  /** The three `setup_output` calls of `__init__` write no pin. */
  lemma SetupPhase(s: Snapshot, p1: int, p2: int, p3: int)
    ensures var r := SetUp(SetUp(SetUp(s, p1), p2), p3);
      && r.trace == s.trace + [SetupOutput(p1), SetupOutput(p2), SetupOutput(p3)]
      && r.levels == s.levels && r.state == s.state && r.startTime == s.startTime
      && Writes(r.trace) == Writes(s.trace)
      && Replay(r.trace) == Replay(s.trace)
  {
    var s1 := SetUp(s, p1);
    var s2 := SetUp(s1, p2);
    SilentStep(s, SetupOutput(p1));
    SilentStep(s1, SetupOutput(p2));
    SilentStep(s2, SetupOutput(p3));
    assert s.trace + [SetupOutput(p1)] + [SetupOutput(p2)] + [SetupOutput(p3)]
        == s.trace + [SetupOutput(p1), SetupOutput(p2), SetupOutput(p3)];
  }

  /** The three `write_output` calls of `__init__`, each writing `val`. */
  lemma WritePhase(s: Snapshot, p1: int, p2: int, p3: int, val: Level)
    ensures var r := Written(Written(Written(s, p1, val), p2, val), p3, val);
      && r.trace == s.trace + [WriteOutput(p1, val), WriteOutput(p2, val), WriteOutput(p3, val)]
      && r.levels == s.levels[p1 := val][p2 := val][p3 := val]
      && r.state == s.state && r.startTime == s.startTime
      && Writes(r.trace) == Writes(s.trace) + [(p1, val), (p2, val), (p3, val)]
      && (s.levels == Replay(s.trace) ==> r.levels == Replay(r.trace))
  {
    var w1 := Written(s, p1, val);
    var w2 := Written(w1, p2, val);
    WriteStep(s, p1, val);
    WriteStep(w1, p2, val);
    WriteStep(w2, p3, val);
    assert s.trace + [WriteOutput(p1, val)] + [WriteOutput(p2, val)] + [WriteOutput(p3, val)]
        == s.trace + [WriteOutput(p1, val), WriteOutput(p2, val), WriteOutput(p3, val)];
    assert Writes(s.trace) + [(p1, val)] + [(p2, val)] + [(p3, val)]
        == Writes(s.trace) + [(p1, val), (p2, val), (p3, val)];
  }

  /** A new entity satisfies the invariant: all three relays rest idle. */
  lemma InitialConsistent(c: Config, now: int)
    ensures Consistent(c, Initial(c, now))
  {
    InitialEffect(c, now);
  }

  /** `close_cover` does nothing to a closed cover.  On any other it passes
      through Closing, pulses the close pin once with the active level and
      then the idle level, holds it for the relay time, waits the closing
      time, and ends Closed. */
  lemma CloseEffect(c: Config, s: Snapshot, now: int)
    ensures var r := AfterClose(c, s, now);
      var active, idle := ActiveLevel(c.invertRelay), IdleLevel(c.invertRelay);
      && (IsClosed(s.state) ==> r == s)
      && (!IsClosed(s.state) ==>
            && r.state == Closed
            && r.startTime == now
            && r.trace == s.trace + [Assign(Closing), WriteOutput(c.closePin, active), Sleep(RelayTime),
                                     WriteOutput(c.closePin, idle), Sleep(c.closeDuration), Assign(Closed)]
            && Writes(r.trace) == Writes(s.trace) + [(c.closePin, active), (c.closePin, idle)]
            && r.levels == s.levels[c.closePin := idle]
            && (s.levels == Replay(s.trace) ==> r.levels == Replay(r.trace)))
  {
    if !IsClosed(s.state) {
      MotionEffect(s, Closing, Closed, c.closePin, ActiveLevel(c.invertRelay), RelayTime, c.closeDuration, now);
      ReleaseIsIdle(c.invertRelay);
    }
  }

  /** `open_cover` does nothing unless the cover is closed.  On a closed cover
      it passes through Opening, pulses exactly one pin, `OpenPulsePin` (the
      stop pin in intermediate mode, the open pin otherwise), with the active
      level and then the idle level, holds it for `OpenPulseTime` (5 seconds
      in intermediate mode, 1 otherwise), waits the opening time, and ends
      Open. */
  lemma OpenEffect(c: Config, s: Snapshot, now: int)
    ensures var r := AfterOpen(c, s, now);
      var active, idle := ActiveLevel(c.invertRelay), IdleLevel(c.invertRelay);
      var pin, hold := OpenPulsePin(c), OpenPulseTime(c);
      && (!IsClosed(s.state) ==> r == s)
      && (IsClosed(s.state) ==>
            && r.state == Open
            && r.startTime == now
            && r.trace == s.trace + [Assign(Opening), WriteOutput(pin, active), Sleep(hold),
                                     WriteOutput(pin, idle), Sleep(c.openDuration), Assign(Open)]
            && Writes(r.trace) == Writes(s.trace) + [(pin, active), (pin, idle)]
            && r.levels == s.levels[pin := idle]
            && (s.levels == Replay(s.trace) ==> r.levels == Replay(r.trace)))
  {
    if IsClosed(s.state) {
      MotionEffect(s, Opening, Open, OpenPulsePin(c), ActiveLevel(c.invertRelay), OpenPulseTime(c), c.openDuration, now);
      ReleaseIsIdle(c.invertRelay);
    }
  }

  /** `stop_cover` pulses the stop pin in every state, with the active level
      then the idle level, and never changes the state. */
  lemma StopEffect(c: Config, s: Snapshot, now: int)
    ensures var r := AfterStop(c, s, now);
      var active, idle := ActiveLevel(c.invertRelay), IdleLevel(c.invertRelay);
      && r.state == s.state
      && r.startTime == now
      && r.trace == s.trace + [WriteOutput(c.stopPin, active), Sleep(RelayTime), WriteOutput(c.stopPin, idle), Sleep(0)]
      && Writes(r.trace) == Writes(s.trace) + [(c.stopPin, active), (c.stopPin, idle)]
      && r.levels == s.levels[c.stopPin := idle]
      && (s.levels == Replay(s.trace) ==> r.levels == Replay(r.trace))
  {
    PulsedEffect(s, c.stopPin, ActiveLevel(c.invertRelay), RelayTime, 0, now);
    ReleaseIsIdle(c.invertRelay);
  }

  /** Without a last state nothing changes; with one, `_state` becomes the
      state it names and no pin and no clock reading is touched. */
  lemma RestoreEffect(s: Snapshot, last: Option<string>)
    ensures var r := AfterRestore(s, last);
      && (last.None? ==> r == s)
      && (last.Some? ==>
            && r.state == StateOf(last.value)
            && Name(r.state) == last.value
            && r.levels == s.levels
            && Writes(r.trace) == Writes(s.trace)
            && Replay(r.trace) == Replay(s.trace)
            && r.startTime == s.startTime)
  {
    if last.Some? {
      SilentStep(s, Assign(StateOf(last.value)));
      NameOfStateOf(last.value);
    }
  }

  /** Re-writing the level a pin already holds leaves every level as it was. */
  lemma RewriteIdle(c: Config, s: Snapshot, pin: int)
    requires IsIdle(c, s.levels, pin)
    ensures s.levels[pin := IdleLevel(c.invertRelay)] == s.levels
  {
  }

  /** Every command keeps the invariant, and leaves every pin level as it
      found it: a pulse always ends with its relay released to idle. */
  lemma CloseKeepsConsistent(c: Config, s: Snapshot, now: int)
    requires Consistent(c, s)
    ensures Consistent(c, AfterClose(c, s, now)) && AfterClose(c, s, now).levels == s.levels
  {
    CloseEffect(c, s, now);
    RewriteIdle(c, s, c.closePin);
  }

  lemma OpenKeepsConsistent(c: Config, s: Snapshot, now: int)
    requires Consistent(c, s)
    ensures Consistent(c, AfterOpen(c, s, now)) && AfterOpen(c, s, now).levels == s.levels
  {
    OpenEffect(c, s, now);
    RewriteIdle(c, s, OpenPulsePin(c));
  }

  lemma StopKeepsConsistent(c: Config, s: Snapshot, now: int)
    requires Consistent(c, s)
    ensures Consistent(c, AfterStop(c, s, now)) && AfterStop(c, s, now).levels == s.levels
  {
    StopEffect(c, s, now);
    RewriteIdle(c, s, c.stopPin);
  }

  lemma RestoreKeepsConsistent(c: Config, s: Snapshot, last: Option<string>)
    requires Consistent(c, s)
    ensures Consistent(c, AfterRestore(s, last)) && AfterRestore(s, last).levels == s.levels
  {
    RestoreEffect(s, last);
  }

  /** Closing twice is closing once, and so is opening twice. */
  lemma CommandsIdempotent(c: Config, s: Snapshot, t1: int, t2: int)
    ensures AfterClose(c, AfterClose(c, s, t1), t2) == AfterClose(c, s, t1)
    ensures AfterOpen(c, AfterOpen(c, s, t1), t2) == AfterOpen(c, s, t1)
  {
  }

  /** Opening a closed cover and then closing it brings it back to Closed
      with every pin level where it was. */
  lemma OpenThenClose(c: Config, s: Snapshot, t1: int, t2: int)
    requires Consistent(c, s) && IsClosed(s.state)
    ensures var r := AfterClose(c, AfterOpen(c, s, t1), t2);
      r.state == Closed && r.levels == s.levels && Consistent(c, r)
  {
    OpenKeepsConsistent(c, s, t1);
    CloseKeepsConsistent(c, AfterOpen(c, s, t1), t2);
  }

  /** Readings taken while a command is still in its pulse: a cover just
      built reports 100 although it is closed; at the instant of the opening
      pulse (state Opening) it reports 0, and at the instant of the closing
      pulse (state Closing) 100. */
  lemma PositionDuringPulse(c: Config, s: Snapshot, now: int)
    requires c.closeDuration > 0
    ensures CoverPosition(c, Initial(c, now), now) == Some(100)
    ensures CoverPosition(c, Pulsed(Assigned(s, Opening), OpenPulsePin(c), ActiveLevel(c.invertRelay),
                                    OpenPulseTime(c), c.openDuration, now), now) == Some(0)
    ensures CoverPosition(c, Pulsed(Assigned(s, Closing), c.closePin, ActiveLevel(c.invertRelay),
                                    RelayTime, c.closeDuration, now), now) == Some(100)
  {
    EstimateEndPoints(Closed, c.closeDuration);
    EstimateEndPoints(Opening, c.closeDuration);
    EstimateEndPoints(Closing, c.closeDuration);
  }

  /** Readings taken after a command has returned, at least its pulse and
      travel time after the pulse began and within a day: a closed cover
      reports at most 0 (below 0 whenever the estimate has run past the
      closing time), and an opened cover at most 100 minus the rate its pulse
      and opening time amount to. */
  lemma PositionAfterCommand(c: Config, s: Snapshot, now: int, later: int)
    requires c.closeDuration > 0 && later - now < SecondsPerDay * MicrosPerSecond
    ensures !IsClosed(s.state) && (RelayTime + c.closeDuration) * MicrosPerSecond <= later - now ==>
      CoverPosition(c, AfterClose(c, s, now), later).value <= 0
    ensures IsClosed(s.state) && (OpenPulseTime(c) + c.openDuration) * MicrosPerSecond <= later - now ==>
      CoverPosition(c, AfterOpen(c, s, now), later).value <= 100 - Rate(OpenPulseTime(c) + c.openDuration, c.closeDuration)
  {
    var seconds := ElapsedSeconds(now, later);
    if !IsClosed(s.state) && (RelayTime + c.closeDuration) * MicrosPerSecond <= later - now {
      assert seconds >= c.closeDuration;
      EstimateOverrun(Closed, seconds, c.closeDuration);
    }
    if IsClosed(s.state) && (OpenPulseTime(c) + c.openDuration) * MicrosPerSecond <= later - now {
      assert seconds >= OpenPulseTime(c) + c.openDuration;
      RateMonotone(OpenPulseTime(c) + c.openDuration, seconds, c.closeDuration);
    }
  }

  /** The opening time never enters the position estimate. */
  lemma PositionIgnoresOpenDuration(c: Config, s: Snapshot, now: int, d: nat)
    ensures CoverPosition(c, s, now) == CoverPosition(c.(openDuration := d), s, now)
  {
  }

  /** The cover entity itself. */
  class OPiGPIOCover {
    const config: Config
    var state: CoverState
    var levels: map<int, Level>
    var trace: seq<Event>
    var startTime: int

    function Snap(): Snapshot
      reads this
    {
      Snapshot(state, levels, trace, startTime)
    }

    ghost predicate Valid()
      reads this
    {
      Consistent(config, Snap())
    }

    /** `__init__` at clock reading `now`. */
    constructor (config: Config, now: int)
      ensures this.config == config
      ensures Snap() == Initial(config, now)
      ensures Valid()
    {
      this.config := config;
      state := Closed;
      levels := map[];
      trace := [Assign(Closed)];
      startTime := now;
      new;
      SetupPin(config.closePin);
      SetupPin(config.stopPin);
      SetupPin(config.openPin);
      var idle := IdleLevel(config.invertRelay);
      WritePin(config.closePin, idle);
      WritePin(config.stopPin, idle);
      WritePin(config.openPin, idle);
      InitialConsistent(config, now);
    }

    method SetState(st: CoverState)
      modifies this
      ensures Snap() == Assigned(old(Snap()), st)
    {
      state := st;
      trace := trace + [Assign(st)];
    }

    method SetupPin(pin: int)
      modifies this
      ensures Snap() == SetUp(old(Snap()), pin)
    {
      trace := trace + [SetupOutput(pin)];
    }

    method WritePin(pin: int, val: Level)
      modifies this
      ensures Snap() == Written(old(Snap()), pin, val)
    {
      levels := levels[pin := val];
      trace := trace + [WriteOutput(pin, val)];
    }

    method Pause(seconds: int)
      modifies this
      ensures Snap() == Slept(old(Snap()), seconds)
    {
      trace := trace + [Sleep(seconds)];
    }

    /** `is_closed`. */
    predicate IsClosed()
      reads this
      ensures WellFormed(state) ==> (IsClosed() <==> Name(state) == ClosedName)
    {
      CoverStates.IsClosed(state)
    }

    /** `_trigger(pin, val, delay, duration)` at clock reading `now`. */
    method Trigger(pin: int, val: Level, delay: int, duration: int, now: int)
      modifies this
      ensures Snap() == Pulsed(old(Snap()), pin, val, delay, duration, now)
    {
      startTime := now;
      WritePin(pin, val);
      Pause(delay);
      WritePin(pin, Complement(val));
      Pause(duration);
    }

    /** `close_cover` at clock reading `now`. */
    method CloseCover(now: int)
      requires Valid()
      modifies this
      ensures Snap() == AfterClose(config, old(Snap()), now)
      ensures Valid() && levels == old(levels)
    {
      CloseKeepsConsistent(config, Snap(), now);
      if !IsClosed() {
        SetState(Closing);
        Trigger(config.closePin, ActiveLevel(config.invertRelay), RelayTime, config.closeDuration, now);
        SetState(Closed);
      }
    }

    /** `open_cover` at clock reading `now`. */
    method OpenCover(now: int)
      requires Valid()
      modifies this
      ensures Snap() == AfterOpen(config, old(Snap()), now)
      ensures Valid() && levels == old(levels)
    {
      OpenKeepsConsistent(config, Snap(), now);
      if IsClosed() {
        SetState(Opening);
        if config.intermediateMode {
          Trigger(config.stopPin, ActiveLevel(config.invertRelay), IntermediateTime, config.openDuration, now);
        } else {
          Trigger(config.openPin, ActiveLevel(config.invertRelay), RelayTime, config.openDuration, now);
        }
        SetState(Open);
      }
    }

    /** `stop_cover` at clock reading `now`. */
    method StopCover(now: int)
      requires Valid()
      modifies this
      ensures Snap() == AfterStop(config, old(Snap()), now)
      ensures Valid() && levels == old(levels)
    {
      StopKeepsConsistent(config, Snap(), now);
      Trigger(config.stopPin, ActiveLevel(config.invertRelay), RelayTime, 0, now);
    }

    /** `current_cover_position` at clock reading `now`. */
    function CurrentPosition(now: int): (p: Option<int>)
      reads this
      ensures p == CoverPosition(config, Snap(), now)
      ensures p.None? <==> config.closeDuration == 0
      ensures p.Some? && ElapsedSeconds(startTime, now) <= config.closeDuration ==> 0 <= p.value <= 100
    {
      if config.closeDuration == 0 then None
      else Some(Estimate(state, ElapsedSeconds(startTime, now), config.closeDuration))
    }

    /** The state restoration of `async_added_to_hass`, given the host's last
        known state string, if any. */
    method RestoreLastState(last: Option<string>)
      requires Valid()
      modifies this
      ensures Snap() == AfterRestore(old(Snap()), last)
      ensures Valid() && levels == old(levels)
    {
      RestoreKeepsConsistent(config, Snap(), last);
      if last.Some? {
        SetState(StateOf(last.value));
      }
    }
  }
}
