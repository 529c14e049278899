/** `Servo`: one servo id on a `ServoProtocol`, with named-register reads and
    writes, wheel (continuous rotation) mode, wheel speed and id
    reassignment. */
module Servos {

  import opened Outcomes
  import opened ControlTable
  import opened Transport
  import opened Protocol

  /** Highest id `new_id` accepts. */
  const MAX_ID := 252

  /** Highest wheel speed `wheel_speed` accepts. */
  const MAX_SPEED := 1023

  /** The `moving_speed` value for a wheel speed and direction: bit 10 set
      means counter-clockwise. Reading the speed and the direction back out
      of it recovers both. */
  function SpeedValue(speed: int, cw: bool): (v: int)
    requires 0 <= speed <= MAX_SPEED
    ensures 0 <= v <= 2 * MAX_SPEED + 1
    ensures v % 1024 == speed
    ensures v < 1024 <==> cw
  {
    if cw then speed else 1024 + speed
  }

  /** The table entries the composite operations write through. */
  lemma AngleLimitWrites(id: int, cwLimit: int, ccwLimit: int)
    ensures WriteCall(id, "cw_angle_limit", cwLimit) == Ok(Write(2, id, 6, cwLimit))
    ensures WriteCall(id, "ccw_angle_limit", ccwLimit) == Ok(Write(2, id, 8, ccwLimit))
  {
    LookupByName(CwAngleLimit);
    LookupByName(CcwAngleLimit);
    assert Name(CwAngleLimit) == "cw_angle_limit";
    assert Name(CcwAngleLimit) == "ccw_angle_limit";
  }

  /** `moving_speed` is a writable 2-byte register at address 32. */
  lemma MovingSpeedWrite(id: int, value: int)
    ensures WriteCall(id, "moving_speed", value) == Ok(Write(2, id, 32, value))
  {
    LookupByName(MovingSpeed);
    assert Name(MovingSpeed) == "moving_speed";
  }

  /** `ID` is a writable 1-byte register at address 3. */
  lemma IdWrite(id: int, value: int)
    ensures WriteCall(id, "ID", value) == Ok(Write(1, id, 3, value))
  {
    LookupByName(Id);
    assert Name(Id) == "ID";
  }

  /** The two angle-limit writes of `wheel_mode`, to the servo's id: both
      limits zero to enter wheel mode, the pair 4 and 42 to leave it. */
  function WheelModeCalls(id: int, enable: bool): (cs: seq<Call>)
    ensures |cs| == 2
    ensures cs[0] == Write(2, id, 6, if enable then 0 else 4)
    ensures cs[1] == Write(2, id, 8, if enable then 0 else 42)
  {
    var cwLimit, ccwLimit := if enable then 0 else 4, if enable then 0 else 42;
    AngleLimitWrites(id, cwLimit, ccwLimit);
    [WriteCall(id, "cw_angle_limit", cwLimit).value, WriteCall(id, "ccw_angle_limit", ccwLimit).value]
  }

  /** The writes of `wheel_speed`, or the `ValueError` it raises first: wheel
      mode on, then the encoded speed to `moving_speed`. */
  function WheelSpeedCalls(id: int, speed: int, cw: bool): (r: Result<seq<Call>>)
    ensures r.Err? <==> !(0 <= speed <= MAX_SPEED)
    ensures r.Err? ==> r.error == InvalidArgument(speed)
    ensures r.Ok? ==> |r.value| == 3
    ensures r.Ok? ==> r.value[0] == Write(2, id, 6, 0) && r.value[1] == Write(2, id, 8, 0)
    ensures r.Ok? ==> r.value[2].Write? && r.value[2].width == 2 && r.value[2].id == id
    ensures r.Ok? ==> r.value[2].address == 32
    ensures r.Ok? ==> r.value[2].value == if cw then speed else 1024 + speed
  {
    if !(0 <= speed <= MAX_SPEED) then Err(InvalidArgument(speed))
    else
      MovingSpeedWrite(id, SpeedValue(speed, cw));
      Ok(WheelModeCalls(id, true) + [WriteCall(id, "moving_speed", SpeedValue(speed, cw)).value])
  }

  /** An accepted wheel speed is wheel mode followed by one speed write. */
  lemma WheelSpeedCallsSplit(id: int, speed: int, cw: bool)
    requires 0 <= speed <= MAX_SPEED
    ensures WheelSpeedCalls(id, speed, cw) ==
      Ok(WheelModeCalls(id, true) + [Write(2, id, 32, SpeedValue(speed, cw))])
  {
    MovingSpeedWrite(id, SpeedValue(speed, cw));
  }

  /** The write of `new_id`, or the `ValueError` it raises first: the new id
      goes to the `ID` register of the servo at its current id. */
  function NewIdCalls(id: int, newId: int): (r: Result<seq<Call>>)
    ensures r.Err? <==> !(0 <= newId <= MAX_ID)
    ensures r.Err? ==> r.error == InvalidArgument(newId)
    ensures r.Ok? ==> r.value == [Write(1, id, 3, newId)]
  {
    if !(0 <= newId <= MAX_ID) then Err(InvalidArgument(newId))
    else
      IdWrite(id, newId);
      Ok([WriteCall(id, "ID", newId).value])
  }

  /** Every write the composite operations issue holds a value the target
      register's width can represent. */
  lemma CompositeWritesFit(id: int, enable: bool, speed: int, cw: bool, newId: int)
    ensures forall c :: c in WheelModeCalls(id, enable) ==> c.Write? && FitsWidth(c.width, c.value)
    ensures WheelSpeedCalls(id, speed, cw).Ok? ==>
      forall c :: c in WheelSpeedCalls(id, speed, cw).value ==> c.Write? && FitsWidth(c.width, c.value)
    ensures NewIdCalls(id, newId).Ok? ==>
      forall c :: c in NewIdCalls(id, newId).value ==> c.Write? && FitsWidth(c.width, c.value)
  {
  }

  /** The dictionary `read` stores the latest value of each register in. */
  class ReadCache {
    var entries: map<string, int>

    constructor ()
      ensures entries == map[]
    {
      entries := map[];
    }
  }

  class Servo {
    /** The id the servo answers to on the bus (`servo_id`). */
    var servoId: int
    const sp: ServoProtocol
    const readCache: ReadCache?

    /** Whether the servo is in wheel mode; starts false and is never updated. */
    var wheel: bool
    /** Whether torque is on; starts true and is never updated. */
    var enableTorque: bool

    /** A handle on servo 1 without a cache unless told otherwise. */
    constructor (sp: ServoProtocol, servoId: int := 1, readCache: ReadCache? := null)
      ensures this.sp == sp && this.servoId == servoId && this.readCache == readCache
      ensures !wheel && enableTorque
    {
      wheel := false;
      enableTorque := true;
      this.sp := sp;
      this.servoId := servoId;
      this.readCache := readCache;
    }

    /** `wheel_mode`: the two angle-limit writes, results ignored. */
    method WheelMode(enable: bool := true)
      modifies sp.bus
      ensures sp.bus.calls == old(sp.bus.calls) + WheelModeCalls(servoId, enable)
    {
      if enable {
        AngleLimitWrites(servoId, 0, 0);
        var _ := sp.WriteRegister(servoId, "cw_angle_limit", 0);
        var _ := sp.WriteRegister(servoId, "ccw_angle_limit", 0);
      } else {
        AngleLimitWrites(servoId, 4, 42);
        var _ := sp.WriteRegister(servoId, "cw_angle_limit", 4);
        var _ := sp.WriteRegister(servoId, "ccw_angle_limit", 42);
      }
    }

    /** `wheel_speed`: range check, wheel mode on, then the speed write. */
    method WheelSpeed(speed: int := 512, cw: bool := true) returns (r: Result<()>)
      modifies sp.bus
      ensures WheelSpeedCalls(servoId, speed, cw).Err? ==>
        r == Err(WheelSpeedCalls(servoId, speed, cw).error) && sp.bus.calls == old(sp.bus.calls)
      ensures WheelSpeedCalls(servoId, speed, cw).Ok? ==>
        r == Ok(()) && sp.bus.calls == old(sp.bus.calls) + WheelSpeedCalls(servoId, speed, cw).value
    {
      if !(0 <= speed <= MAX_SPEED) {
        return Err(InvalidArgument(speed));
      }
      Spin(speed, cw);
      WheelSpeedCallsSplit(servoId, speed, cw);
      return Ok(());
    }

    /** The body of `wheel_speed` past its range check: wheel mode on, then
        the direction-encoded speed to `moving_speed`. */
    method Spin(speed: int, cw: bool)
      requires 0 <= speed <= MAX_SPEED
      modifies sp.bus
      ensures sp.bus.calls == old(sp.bus.calls) + WheelModeCalls(servoId, true) + [Call.Write(2, servoId, 32, SpeedValue(speed, cw))]
    {
      WheelMode();
      var setSpeed := speed;
      if !cw {
        setSpeed := 1024 + speed;
      }
      MovingSpeedWrite(servoId, setSpeed);
      var _ := sp.WriteRegister(servoId, "moving_speed", setSpeed);
    }

    /** `new_id`: range check, the `ID` write to the current id, then the
        handle takes the new id whether or not the write succeeded. */
    method NewId(newId: int) returns (r: Result<()>)
      modifies this`servoId, sp.bus
      ensures NewIdCalls(old(servoId), newId).Err? ==>
        r == Err(NewIdCalls(old(servoId), newId).error) &&
        servoId == old(servoId) && sp.bus.calls == old(sp.bus.calls)
      ensures NewIdCalls(old(servoId), newId).Ok? ==>
        r == Ok(()) && servoId == newId &&
        sp.bus.calls == old(sp.bus.calls) + NewIdCalls(old(servoId), newId).value
    {
      if !(0 <= newId <= MAX_ID) {
        return Err(InvalidArgument(newId));
      }
      IdWrite(servoId, newId);
      var _ := sp.WriteRegister(servoId, "ID", newId);
      servoId := newId;
      return Ok(());
    }

    /** `read`: the protocol's read, remembered in the cache when there is
        one; an unknown register leaves the cache alone. */
    method Read(register: string) returns (r: Result<int>)
      modifies sp.bus, readCache
      ensures ReadCall(servoId, register).Err? ==>
        r == Err(ReadCall(servoId, register).error) && sp.bus.calls == old(sp.bus.calls) &&
        (readCache != null ==> readCache.entries == old(readCache.entries))
      ensures ReadCall(servoId, register).Ok? ==>
        var c := ReadCall(servoId, register).value;
        sp.bus.calls == old(sp.bus.calls) + [c] &&
        r == Ok(sp.bus.respond(old(sp.bus.calls), c).data) &&
        (readCache != null ==> readCache.entries == old(readCache.entries)[register := r.value])
    {
      var value :- sp.ReadRegister(servoId, register);
      if readCache != null {
        readCache.entries := readCache.entries[register := value];
      }
      return Ok(value);
    }

    /** `write`: the protocol's write to this servo's id. */
    method Write(register: string, value: int) returns (r: Result<bool>)
      modifies sp.bus
      ensures WriteCall(servoId, register, value).Err? ==>
        r == Err(WriteCall(servoId, register, value).error) && sp.bus.calls == old(sp.bus.calls)
      ensures WriteCall(servoId, register, value).Ok? ==>
        sp.bus.calls == old(sp.bus.calls) + [WriteCall(servoId, register, value).value] &&
        r == Ok(Succeeded(sp.bus.LastTxRxResult(), sp.bus.LastRxPacketError()))
    {
      r := sp.WriteRegister(servoId, register, value);
    }
  }
}
