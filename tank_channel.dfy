/**
 * One tank channel of the tank service: a process that drains its queue of
 * payloads, switching between inactive (ground input, payload `OFF`) and
 * active (a level in percent), publishes its tank on D-Bus the first time
 * it becomes active, and validates and saves the settings written through
 * the published paths.
 */
module TankChannel {
  import opened Wrappers
  import opened PyText
  import opened PyNumbers
  import opened TankSettings

  /** The values of the D-Bus paths a registered tank service publishes. */
  datatype TankPaths = TankPaths(
    serviceName: string,
    processName: string,
    processVersion: string,
    connection: string,
    deviceInstance: int,
    productId: int,
    productName: string,
    firmwareVersion: string,
    connected: int,
    fluidType: int,
    capacity: real,
    level: int,
    remaining: real,
    status: int,
    customName: string)

  /** The paths as registered for tank `tankId` with the settings `cfg`. */
  function NewPaths(tankId: nat, cfg: Tank): (p: TankPaths)
    requires tankId < TankCount
    ensures p.deviceInstance == 20 + tankId
    ensures p.serviceName == "com.victronenergy.tank.tank" + [DigitChar(tankId)]
    ensures p.productName == "Tank " + [DigitChar(tankId)]
    ensures p.connected == 1 && p.level == 0 && p.remaining == 0.0 && p.status == 0
    ensures p.fluidType == cfg.fluidType && p.capacity == cfg.capacity && p.customName == cfg.customName
  {
    TankPaths(
      serviceName := "com.victronenergy.tank.tank" + [DigitChar(tankId)],
      processName := "tank_service",
      processVersion := "1.0",
      connection := "Serial /dev/ttyTANK",
      deviceInstance := 20 + tankId,
      productId := 0,
      productName := "Tank " + [DigitChar(tankId)],
      firmwareVersion := "1.0",
      connected := 1,
      fluidType := cfg.fluidType,
      capacity := cfg.capacity,
      level := 0,
      remaining := 0.0,
      status := 0,
      customName := cfg.customName)
  }

  /** Two path sets that belong to the same registration: everything but the live readings agrees. */
  predicate SameRegistration(a: TankPaths, b: TankPaths)
  {
    a.serviceName == b.serviceName && a.deviceInstance == b.deviceInstance &&
    a.productName == b.productName && a.fluidType == b.fluidType &&
    a.capacity == b.capacity && a.customName == b.customName &&
    a.processName == b.processName && a.processVersion == b.processVersion &&
    a.connection == b.connection && a.productId == b.productId &&
    a.firmwareVersion == b.firmwareVersion
  }

  /** The channel's state: `is_active` and the lazily created service. */
  datatype ChannelState = ChannelState(isActive: bool, service: Option<TankPaths>)

  /** An active channel always has its service. */
  predicate Consistent(st: ChannelState)
  {
    st.isActive ==> st.service.Some?
  }

  const Inactive := ChannelState(false, None)

  /** The payload as a level: an integer `int()` accepts, in 0..100. */
  function LevelOf(msg: string): (r: Option<int>)
    ensures r.Some? <==> exists l :: ParseInt(msg) == Some(l) && 0 <= l <= 100
    ensures r.Some? ==> ParseInt(msg) == r
  {
    match ParseInt(msg)
    case Some(l) => if 0 <= l <= 100 then Some(l) else None
    case None => None
  }

  /** The litres left at `level` percent of `capacity`. */
  function Remaining(level: int, capacity: real): real
  {
    level as real / 100.0 * capacity
  }

  /** One payload taken from the queue; `cfg` is the tank's current settings. */
  function Step(st: ChannelState, msg: string, tankId: nat, cfg: Tank): ChannelState
    requires tankId < TankCount
  {
    if msg == "OFF" then
      if st.isActive then
        ChannelState(false, if st.service.Some? then Some(st.service.value.(connected := 0)) else None)
      else st
    else match LevelOf(msg)
      case None => st
      case Some(level) =>
        var service :=
          if st.isActive then st.service
          else if st.service.None? then Some(NewPaths(tankId, cfg))
          else Some(st.service.value.(connected := 1));
        if service.None? then st
        else ChannelState(true, Some(service.value.(level := level, remaining := Remaining(level, cfg.capacity), status := 0)))
  }

  /** The payloads taken from the queue one after the other. */
  function Run(st: ChannelState, msgs: seq<string>, tankId: nat, cfg: Tank): ChannelState
    requires tankId < TankCount
  {
    if msgs == [] then st
    else Step(Run(st, msgs[..|msgs| - 1], tankId, cfg), msgs[|msgs| - 1], tankId, cfg)
  }

  // ---------------------------------------------------------------------------
  // Properties of one step
  // ---------------------------------------------------------------------------

  /** `OFF` leaves the channel inactive; an active channel with a service is marked disconnected, and nothing else changes. */
  lemma OffDeactivates(st: ChannelState, tankId: nat, cfg: Tank)
    requires tankId < TankCount
    ensures !Step(st, "OFF", tankId, cfg).isActive
    ensures st.isActive && st.service.Some? ==>
              Step(st, "OFF", tankId, cfg).service == Some(st.service.value.(connected := 0))
    ensures !st.isActive ==> Step(st, "OFF", tankId, cfg) == st
    ensures Step(Step(st, "OFF", tankId, cfg), "OFF", tankId, cfg) == Step(st, "OFF", tankId, cfg)
  {
  }

  /** A level payload activates the channel and publishes the level, the remaining volume and status 0. */
  lemma LevelPublished(st: ChannelState, msg: string, level: int, tankId: nat, cfg: Tank)
    requires tankId < TankCount && Consistent(st)
    requires ParseInt(msg) == Some(level) && 0 <= level <= 100
    ensures var r := Step(st, msg, tankId, cfg);
      r.isActive && r.service.Some? &&
      r.service.value.level == level &&
      r.service.value.remaining == level as real / 100.0 * cfg.capacity &&
      r.service.value.status == 0 &&
      (!st.isActive ==> r.service.value.connected == 1) &&
      (st.isActive ==> r.service.value.connected == st.service.value.connected)
  {
    assert msg != "OFF" by {
      if msg == "OFF" {
        OffIsNotALevel();
      }
    }
  }

  /** "OFF" is not an integer. */
  lemma OffIsNotALevel()
    ensures ParseInt("OFF").None?
  {
    ParseIntRejectsWord("OFF");
  }

  /** A payload that is neither `OFF` nor a level in 0..100 changes nothing. */
  lemma NoiseIgnored(st: ChannelState, msg: string, tankId: nat, cfg: Tank)
    requires tankId < TankCount
    requires msg != "OFF" && LevelOf(msg).None?
    ensures Step(st, msg, tankId, cfg) == st
  {
  }

  /** "101" is out of range, so it is noise. */
  lemma OutOfRangeIsNoise()
    ensures LevelOf("101").None?
  {
    DecimalOf101();
    ParseIntOfDecimal(101);
  }

  /** "abc" is not a number, so it is noise. */
  lemma WordIsNoise()
    ensures LevelOf("abc").None?
  {
    ParseIntRejectsWord("abc");
  }

  /** A payload led by a separator such as 0x1C is refused by `int()`, so it is noise. */
  lemma SeparatorPaddedIsNoise()
    ensures LevelOf([28 as char] + "42").None?
  {
    ParseIntRejectsWord([28 as char] + "42");
  }

  /** Every step keeps an active channel's service in place. */
  lemma StepConsistent(st: ChannelState, msg: string, tankId: nat, cfg: Tank)
    requires tankId < TankCount && Consistent(st)
    ensures Consistent(Step(st, msg, tankId, cfg))
  {
  }

  /** Once created, the service is never dropped and keeps its registration. */
  lemma StepKeepsRegistration(st: ChannelState, msg: string, tankId: nat, cfg: Tank)
    requires tankId < TankCount && st.service.Some?
    ensures Step(st, msg, tankId, cfg).service.Some?
    ensures SameRegistration(st.service.value, Step(st, msg, tankId, cfg).service.value)
  {
  }

  /** A step creates the service only when there was none, and then registers it from the current settings. */
  lemma StepCreatesOnlyFromNothing(st: ChannelState, msg: string, tankId: nat, cfg: Tank)
    requires tankId < TankCount
    requires st.service.None? && Step(st, msg, tankId, cfg).service.Some?
    ensures SameRegistration(Step(st, msg, tankId, cfg).service.value, NewPaths(tankId, cfg))
    ensures Step(st, msg, tankId, cfg).isActive
  {
  }

  // ---------------------------------------------------------------------------
  // Properties of draining the queue
  // ---------------------------------------------------------------------------

  /** Draining two batches one after the other is draining their concatenation. */
  lemma {:induction false} RunAppend(st: ChannelState, a: seq<string>, b: seq<string>, tankId: nat, cfg: Tank)
    requires tankId < TankCount
    ensures Run(st, a + b, tankId, cfg) == Run(Run(st, a, tankId, cfg), b, tankId, cfg)
  {
    if b == [] {
      assert a + b == a;
    } else {
      assert (a + b)[..|a + b| - 1] == a + b[..|b| - 1];
      RunAppend(st, a, b[..|b| - 1], tankId, cfg);
    }
  }

  /** Consistency holds after any batch. */
  lemma {:induction false} RunConsistent(st: ChannelState, msgs: seq<string>, tankId: nat, cfg: Tank)
    requires tankId < TankCount && Consistent(st)
    ensures Consistent(Run(st, msgs, tankId, cfg))
  {
    if msgs != [] {
      RunConsistent(st, msgs[..|msgs| - 1], tankId, cfg);
      StepConsistent(Run(st, msgs[..|msgs| - 1], tankId, cfg), msgs[|msgs| - 1], tankId, cfg);
    }
  }

  /** The number of steps of a batch that create the service. */
  function Registrations(st: ChannelState, msgs: seq<string>, tankId: nat, cfg: Tank): nat
    requires tankId < TankCount
  {
    if msgs == [] then 0
    else
      var before := Run(st, msgs[..|msgs| - 1], tankId, cfg);
      Registrations(st, msgs[..|msgs| - 1], tankId, cfg) +
        (if before.service.None? && Step(before, msgs[|msgs| - 1], tankId, cfg).service.Some? then 1 else 0)
  }

  /** A channel registers its service at most once, and never when it already has one. */
  lemma {:induction false} RegisteredAtMostOnce(st: ChannelState, msgs: seq<string>, tankId: nat, cfg: Tank)
    requires tankId < TankCount
    ensures Registrations(st, msgs, tankId, cfg) <= 1
    ensures st.service.Some? ==> Registrations(st, msgs, tankId, cfg) == 0
    ensures Registrations(st, msgs, tankId, cfg) == 1 ==> Run(st, msgs, tankId, cfg).service.Some?
    ensures Run(st, msgs, tankId, cfg).service.None? ==> Registrations(st, msgs, tankId, cfg) == 0
    ensures st.service.Some? ==>
              Run(st, msgs, tankId, cfg).service.Some? &&
              SameRegistration(st.service.value, Run(st, msgs, tankId, cfg).service.value)
  {
    if msgs != [] {
      var init := msgs[..|msgs| - 1];
      var before := Run(st, init, tankId, cfg);
      RegisteredAtMostOnce(st, init, tankId, cfg);
      if before.service.Some? {
        StepKeepsRegistration(before, msgs[|msgs| - 1], tankId, cfg);
      }
    }
  }

  // ---------------------------------------------------------------------------
  // The tank process
  // ---------------------------------------------------------------------------

  /** The state of one tank process: its copy of the settings, the saves it made, and its channel state. */
  class TankProcess {
    const tankId: nat
    var settings: seq<Tank>
    var saves: seq<seq<Tank>>
    var isActive: bool
    var service: Option<TankPaths>

    predicate Valid()
      reads this
    {
      tankId < TankCount <= |settings|
    }

    function State(): ChannelState
      reads this
    {
      ChannelState(isActive, service)
    }

    /** This tank's entry of the settings. */
    function Config(): Tank
      reads this
      requires Valid()
    {
      settings[tankId]
    }

    /** The process starts inactive, with no service, and with the loaded settings. */
    constructor(tankId: nat, stored: Option<seq<Tank>>)
      requires tankId < TankCount
      ensures Valid() && this.tankId == tankId
      ensures IsBackFilled(stored, settings)
      ensures saves == [] && State() == Inactive
    {
      this.tankId := tankId;
      var loaded := LoadSettings(stored);
      settings := loaded;
      saves := [];
      isActive := false;
      service := None;
    }

    /** Registers the service with this tank's current settings. */
    method CreateService()
      requires Valid()
      modifies this
      ensures Valid() && settings == old(settings) && saves == old(saves)
      ensures service == Some(NewPaths(tankId, Config()))
      ensures isActive == old(isActive)
    {
      service := Some(NewPaths(tankId, settings[tankId]));
    }

    /** One payload taken from the queue. */
    method HandleMessage(msg: string)
      requires Valid()
      modifies this
      ensures Valid() && settings == old(settings) && saves == old(saves)
      ensures State() == Step(old(State()), msg, tankId, Config())
    {
      if msg == "OFF" {
        if isActive {
          isActive := false;
          if service.Some? {
            service := Some(service.value.(connected := 0));
          }
        }
      } else {
        var level := ParseInt(msg);
        if level.Some? && 0 <= level.value <= 100 {
          assert LevelOf(msg) == level;
          var wasActive := isActive;
          if !isActive {
            isActive := true;
            if service.None? {
              CreateService();
            } else {
              service := Some(service.value.(connected := 1));
            }
          }
          if service.None? {
            // Publishing into a missing service raises, and the error is swallowed.
            isActive := wasActive;
          } else {
            var capacity := settings[tankId].capacity;
            var remaining := Remaining(level.value, capacity);
            service := Some(service.value.(level := level.value, remaining := remaining, status := 0));
          }
        }
      }
    }

    /** The periodic queue check: takes every pending payload, in order, and asks to be called again. */
    method CheckQueue(pending: seq<string>) returns (again: bool)
      requires Valid()
      modifies this
      ensures Valid() && settings == old(settings) && saves == old(saves)
      ensures again
      ensures State() == Run(old(State()), pending, tankId, Config())
    {
      ghost var start := State();
      var n := 0;
      while n < |pending|
        invariant 0 <= n <= |pending|
        invariant Valid() && settings == old(settings) && saves == old(saves)
        invariant State() == Run(start, pending[..n], tankId, Config())
      {
        assert pending[..n + 1][..n] == pending[..n];
        HandleMessage(pending[n]);
        n := n + 1;
      }
      assert pending[..n] == pending;
      return true;
    }

    /** A write of the fluid-type path: accepted and saved when it names a fluid type, otherwise refused. */
    method OnFluidTypeChanged(value: string) returns (accepted: bool)
      requires Valid() && service.Some?
      modifies this
      ensures accepted == FluidTypeValue(value).Some?
      ensures accepted ==>
                settings == old(settings)[tankId := old(settings)[tankId].(fluidType := FluidTypeValue(value).value)] &&
                saves == old(saves) + [settings]
      ensures !accepted ==> settings == old(settings) && saves == old(saves)
      ensures State() == old(State()) && Valid()
    {
      var val := FluidTypeValue(value);
      if val.Some? {
        settings := settings[tankId := settings[tankId].(fluidType := val.value)];
        saves := saves + [settings];
        return true;
      }
      return false;
    }

    /** A write of the capacity path: accepted and saved when it is a positive finite number, otherwise refused. */
    method OnCapacityChanged(value: string) returns (accepted: bool)
      requires Valid() && service.Some?
      modifies this
      ensures accepted == CapacityValue(value).Some?
      ensures accepted ==>
                settings == old(settings)[tankId := old(settings)[tankId].(capacity := CapacityValue(value).value)] &&
                saves == old(saves) + [settings]
      ensures !accepted ==> settings == old(settings) && saves == old(saves)
      ensures State() == old(State()) && Valid()
    {
      var val := CapacityValue(value);
      if val.Some? {
        settings := settings[tankId := settings[tankId].(capacity := val.value)];
        saves := saves + [settings];
        return true;
      }
      return false;
    }

    /** A write of the name path: always accepted and saved. */
    method OnCustomNameChanged(value: string) returns (accepted: bool)
      requires Valid() && service.Some?
      modifies this
      ensures accepted
      ensures settings == old(settings)[tankId := old(settings)[tankId].(customName := value)]
      ensures saves == old(saves) + [settings]
      ensures State() == old(State()) && Valid()
    {
      settings := settings[tankId := settings[tankId].(customName := value)];
      saves := saves + [settings];
      return true;
    }
  }
}
