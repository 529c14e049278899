/** The AX-12 control table: the fixed map from register name to where the
    register lives in the servo's memory, how many bytes it spans and whether
    the host may write it (servode.py, `dxl_control`). */
module ControlTable {

  import opened Outcomes

  /** Persistent (EEPROM) or volatile (RAM) memory area of the servo. */
  datatype Region = EEPROM | RAM

  /** The table's access strings: "r" is ReadOnly, "rw" is ReadWrite. */
  datatype Access = ReadOnly | ReadWrite

  /** Number of bytes a register spans on the bus (`comm_bytes`). */
  type Width = w: int | w == 1 || w == 2 witness 1

  /** One entry of the table: `addr_type`, `volatile`, `address`,
      `comm_bytes` and `access`. */
  datatype RegisterSpec = RegisterSpec(
    region: Region,
    isVolatile: bool,
    address: nat,
    width: Width,
    access: Access)

  /** Address of the first RAM register; everything below it is EEPROM. */
  const RamStart := 24

  /** The registers of the AX-12, in the order the table lists them. */
  datatype Register =
    | ModelNumber
    | FirmwareVersion
    | Id
    | BaudRate
    | ReturnDelay
    | CwAngleLimit
    | CcwAngleLimit
    | HighestLimitTemperature
    | LowestLimitVoltage
    | HighestLimitVoltage
    | MaxTorque
    | StatusReturnLevel
    | AlarmLed
    | AlarmShutdown
    | TorqueEnable
    | Led
    | CwComplianceMargin
    | CcwComplianceMargin
    | CwComplianceSlope
    | CcwComplianceSlope
    | GoalPosition
    | MovingSpeed
    | TorqueLimit
    | PresentPosition
    | PresentSpeed
    | PresentLoad
    | PresentVoltage
    | PresentTemperature
    | RegisteredInstruction
    | Moving
    | Lock
    | Punch

  /** The key the table files a register under. */
  function Name(r: Register): string
  {
    match r
    case ModelNumber => "model_number"
    case FirmwareVersion => "firmware_version"
    case Id => "ID"
    case BaudRate => "baud_rate"
    case ReturnDelay => "return_delay"
    case CwAngleLimit => "cw_angle_limit"
    case CcwAngleLimit => "ccw_angle_limit"
    case HighestLimitTemperature => "highest_limit_temperature"
    case LowestLimitVoltage => "lowest_limit_voltage"
    case HighestLimitVoltage => "highest_limit_voltage"
    case MaxTorque => "max_torque"
    case StatusReturnLevel => "status_return_level"
    case AlarmLed => "alarm_LED"
    case AlarmShutdown => "alarm_shutdown"
    case TorqueEnable => "torque_enable"
    case Led => "LED"
    case CwComplianceMargin => "cw_compliance_margin"
    case CcwComplianceMargin => "ccw_compliance_margin"
    case CwComplianceSlope => "cw_compliance_slope"
    case CcwComplianceSlope => "ccw_compliance_slope"
    case GoalPosition => "goal_position"
    case MovingSpeed => "moving_speed"
    case TorqueLimit => "torque_limit"
    case PresentPosition => "present_position"
    case PresentSpeed => "present_speed"
    case PresentLoad => "present_load"
    case PresentVoltage => "present_voltage"
    case PresentTemperature => "present_temperature"
    case RegisteredInstruction => "registered_instruction"
    case Moving => "moving"
    case Lock => "lock"
    case Punch => "punch"
  }

  /** An entry is coherent: EEPROM registers are non-volatile and end at or
      below `RamStart`, RAM registers are volatile and start at or above it,
      and nothing reaches past the last byte of the memory map, 49. */
  predicate Coherent(spec: RegisterSpec)
  {
    && (spec.region == EEPROM <==> !spec.isVolatile)
    && (spec.region == EEPROM ==> spec.address + spec.width <= RamStart)
    && (spec.region == RAM ==> RamStart <= spec.address)
    && spec.address + spec.width <= 50
  }

  /** The table's entry for a register. Every entry is coherent. */
  function Spec(r: Register): (spec: RegisterSpec)
    ensures Coherent(spec)
  {
    match r
    case ModelNumber => RegisterSpec(EEPROM, false, 0, 2, ReadOnly)
    case FirmwareVersion => RegisterSpec(EEPROM, false, 2, 1, ReadOnly)
    case Id => RegisterSpec(EEPROM, false, 3, 1, ReadWrite)
    case BaudRate => RegisterSpec(EEPROM, false, 4, 1, ReadWrite)
    case ReturnDelay => RegisterSpec(EEPROM, false, 5, 1, ReadWrite)
    case CwAngleLimit => RegisterSpec(EEPROM, false, 6, 2, ReadWrite)
    case CcwAngleLimit => RegisterSpec(EEPROM, false, 8, 2, ReadWrite)
    case HighestLimitTemperature => RegisterSpec(EEPROM, false, 11, 1, ReadWrite)
    case LowestLimitVoltage => RegisterSpec(EEPROM, false, 12, 1, ReadWrite)
    case HighestLimitVoltage => RegisterSpec(EEPROM, false, 13, 1, ReadWrite)
    case MaxTorque => RegisterSpec(EEPROM, false, 14, 2, ReadWrite)
    case StatusReturnLevel => RegisterSpec(EEPROM, false, 16, 1, ReadWrite)
    case AlarmLed => RegisterSpec(EEPROM, false, 17, 1, ReadWrite)
    case AlarmShutdown => RegisterSpec(EEPROM, false, 18, 1, ReadWrite)
    case TorqueEnable => RegisterSpec(RAM, true, 24, 1, ReadWrite)
    case Led => RegisterSpec(RAM, true, 25, 1, ReadWrite)
    case CwComplianceMargin => RegisterSpec(RAM, true, 26, 1, ReadWrite)
    case CcwComplianceMargin => RegisterSpec(RAM, true, 27, 1, ReadWrite)
    case CwComplianceSlope => RegisterSpec(RAM, true, 28, 1, ReadWrite)
    case CcwComplianceSlope => RegisterSpec(RAM, true, 29, 1, ReadWrite)
    case GoalPosition => RegisterSpec(RAM, true, 30, 2, ReadWrite)
    case MovingSpeed => RegisterSpec(RAM, true, 32, 2, ReadWrite)
    case TorqueLimit => RegisterSpec(RAM, true, 34, 2, ReadWrite)
    case PresentPosition => RegisterSpec(RAM, true, 36, 2, ReadOnly)
    case PresentSpeed => RegisterSpec(RAM, true, 38, 2, ReadOnly)
    case PresentLoad => RegisterSpec(RAM, true, 40, 2, ReadOnly)
    case PresentVoltage => RegisterSpec(RAM, true, 42, 1, ReadOnly)
    case PresentTemperature => RegisterSpec(RAM, true, 43, 1, ReadOnly)
    case RegisteredInstruction => RegisterSpec(RAM, true, 44, 1, ReadOnly)
    case Moving => RegisterSpec(RAM, true, 46, 1, ReadOnly)
    case Lock => RegisterSpec(RAM, true, 47, 1, ReadWrite)
    case Punch => RegisterSpec(RAM, true, 48, 2, ReadWrite)
  }

  /** Every register of the AX-12. */
  const AllRegisters: set<Register> := set r: Register | true

  /** `dxl_control`: every register of the AX-12, keyed by its name. */
  function Table(): (t: map<string, RegisterSpec>)
    ensures forall name :: name in t ==> Coherent(t[name])
  {
    NamesUnique();
    map r | r in AllRegisters :: Name(r) := Spec(r)
  }

  /** Looks a register up by name; a name outside the table is the
      `KeyError` that `dxl_control[register]` raises. `LookupMatchesTable`
      shows this is exactly the lookup of `name` in `Table()`. */
  function Lookup(name: string): (r: Result<RegisterSpec>)
    ensures r.Err? ==> r.error == UnknownRegister(name)
    ensures r.Ok? ==> Probe(name).Some? && r.value == Spec(Probe(name).value)
  {
    match Probe(name)
    case Some(reg) => Ok(Spec(reg))
    case None => Err(UnknownRegister(name))
  }

  /** The register filed under `name`, found the way a hash table finds a
      key: the name's fingerprint picks the only candidate, and comparing
      the candidate's name with `name` confirms it. */
  function Probe(name: string): (r: Option<Register>)
    ensures r.Some? ==> Name(r.value) == name
  {
    var candidate := RegisterWithFingerprint(Fingerprint(name));
    if candidate.Some? && Name(candidate.value) == name then candidate else None
  }

  /** A short digest of a name: its length, first and last character. */
  function Fingerprint(name: string): int
  {
    if name == [] then 0
    else |name| * 0x1_0000 + (name[0] as int) * 0x100 + (name[|name| - 1] as int)
  }

  /** The register whose name has the given fingerprint, if any. */
  function RegisterWithFingerprint(n: int): Option<Register>
  {
    if n == 0xC6D72 then Some(ModelNumber)
    else if n == 0x10666E then Some(FirmwareVersion)
    else if n == 0x24944 then Some(Id)
    else if n == 0x96265 then Some(BaudRate)
    else if n == 0xC7279 then Some(ReturnDelay)
    else if n == 0xE6374 then Some(CwAngleLimit)
    else if n == 0xF6374 then Some(CcwAngleLimit)
    else if n == 0x196865 then Some(HighestLimitTemperature)
    else if n == 0x146C65 then Some(LowestLimitVoltage)
    else if n == 0x156865 then Some(HighestLimitVoltage)
    else if n == 0xA6D65 then Some(MaxTorque)
    else if n == 0x13736C then Some(StatusReturnLevel)
    else if n == 0x96144 then Some(AlarmLed)
    else if n == 0xE616E then Some(AlarmShutdown)
    else if n == 0xD7465 then Some(TorqueEnable)
    else if n == 0x34C44 then Some(Led)
    else if n == 0x14636E then Some(CwComplianceMargin)
    else if n == 0x15636E then Some(CcwComplianceMargin)
    else if n == 0x136365 then Some(CwComplianceSlope)
    else if n == 0x146365 then Some(CcwComplianceSlope)
    else if n == 0xD676E then Some(GoalPosition)
    else if n == 0xC6D64 then Some(MovingSpeed)
    else if n == 0xC7474 then Some(TorqueLimit)
    else if n == 0x10706E then Some(PresentPosition)
    else if n == 0xD7064 then Some(PresentSpeed)
    else if n == 0xC7064 then Some(PresentLoad)
    else if n == 0xF7065 then Some(PresentVoltage)
    else if n == 0x137065 then Some(PresentTemperature)
    else if n == 0x16726E then Some(RegisteredInstruction)
    else if n == 0x66D67 then Some(Moving)
    else if n == 0x46C6B then Some(Lock)
    else if n == 0x57068 then Some(Punch)
    else None
  }

  /** Register `r` is recovered from the fingerprint of its name. */
  predicate Decodes(r: Register)
  {
    RegisterWithFingerprint(Fingerprint(Name(r))) == Some(r)
  }

  // One lemma per register: each evaluates one name's fingerprint.
  lemma ModelNumberDecodes() ensures Decodes(ModelNumber) {}
  lemma FirmwareVersionDecodes() ensures Decodes(FirmwareVersion) {}
  lemma IdDecodes() ensures Decodes(Id) {}
  lemma BaudRateDecodes() ensures Decodes(BaudRate) {}
  lemma ReturnDelayDecodes() ensures Decodes(ReturnDelay) {}
  lemma CwAngleLimitDecodes() ensures Decodes(CwAngleLimit) {}
  lemma CcwAngleLimitDecodes() ensures Decodes(CcwAngleLimit) {}
  lemma HighestLimitTemperatureDecodes() ensures Decodes(HighestLimitTemperature) {}
  lemma LowestLimitVoltageDecodes() ensures Decodes(LowestLimitVoltage) {}
  lemma HighestLimitVoltageDecodes() ensures Decodes(HighestLimitVoltage) {}
  lemma MaxTorqueDecodes() ensures Decodes(MaxTorque) {}
  lemma StatusReturnLevelDecodes() ensures Decodes(StatusReturnLevel) {}
  lemma AlarmLedDecodes() ensures Decodes(AlarmLed) {}
  lemma AlarmShutdownDecodes() ensures Decodes(AlarmShutdown) {}
  lemma TorqueEnableDecodes() ensures Decodes(TorqueEnable) {}
  lemma LedDecodes() ensures Decodes(Led) {}
  lemma CwComplianceMarginDecodes() ensures Decodes(CwComplianceMargin) {}
  lemma CcwComplianceMarginDecodes() ensures Decodes(CcwComplianceMargin) {}
  lemma CwComplianceSlopeDecodes() ensures Decodes(CwComplianceSlope) {}
  lemma CcwComplianceSlopeDecodes() ensures Decodes(CcwComplianceSlope) {}
  lemma GoalPositionDecodes() ensures Decodes(GoalPosition) {}
  lemma MovingSpeedDecodes() ensures Decodes(MovingSpeed) {}
  lemma TorqueLimitDecodes() ensures Decodes(TorqueLimit) {}
  lemma PresentPositionDecodes() ensures Decodes(PresentPosition) {}
  lemma PresentSpeedDecodes() ensures Decodes(PresentSpeed) {}
  lemma PresentLoadDecodes() ensures Decodes(PresentLoad) {}
  lemma PresentVoltageDecodes() ensures Decodes(PresentVoltage) {}
  lemma PresentTemperatureDecodes() ensures Decodes(PresentTemperature) {}
  lemma RegisteredInstructionDecodes() ensures Decodes(RegisteredInstruction) {}
  lemma MovingDecodes() ensures Decodes(Moving) {}
  lemma LockDecodes() ensures Decodes(Lock) {}
  lemma PunchDecodes() ensures Decodes(Punch) {}

  /** Every register is recovered from the fingerprint of its name. */
  lemma AllDecode()
    ensures forall r :: Decodes(r)
  {
    forall r
      ensures Decodes(r)
    {
      match r
      case ModelNumber => ModelNumberDecodes();
      case FirmwareVersion => FirmwareVersionDecodes();
      case Id => IdDecodes();
      case BaudRate => BaudRateDecodes();
      case ReturnDelay => ReturnDelayDecodes();
      case CwAngleLimit => CwAngleLimitDecodes();
      case CcwAngleLimit => CcwAngleLimitDecodes();
      case HighestLimitTemperature => HighestLimitTemperatureDecodes();
      case LowestLimitVoltage => LowestLimitVoltageDecodes();
      case HighestLimitVoltage => HighestLimitVoltageDecodes();
      case MaxTorque => MaxTorqueDecodes();
      case StatusReturnLevel => StatusReturnLevelDecodes();
      case AlarmLed => AlarmLedDecodes();
      case AlarmShutdown => AlarmShutdownDecodes();
      case TorqueEnable => TorqueEnableDecodes();
      case Led => LedDecodes();
      case CwComplianceMargin => CwComplianceMarginDecodes();
      case CcwComplianceMargin => CcwComplianceMarginDecodes();
      case CwComplianceSlope => CwComplianceSlopeDecodes();
      case CcwComplianceSlope => CcwComplianceSlopeDecodes();
      case GoalPosition => GoalPositionDecodes();
      case MovingSpeed => MovingSpeedDecodes();
      case TorqueLimit => TorqueLimitDecodes();
      case PresentPosition => PresentPositionDecodes();
      case PresentSpeed => PresentSpeedDecodes();
      case PresentLoad => PresentLoadDecodes();
      case PresentVoltage => PresentVoltageDecodes();
      case PresentTemperature => PresentTemperatureDecodes();
      case RegisteredInstruction => RegisteredInstructionDecodes();
      case Moving => MovingDecodes();
      case Lock => LockDecodes();
      case Punch => PunchDecodes();
    }
  }

  /** `AllDecode`, stated for every name term in scope. */
  lemma NameDecodes()
    ensures forall r {:trigger Name(r)} :: RegisterWithFingerprint(Fingerprint(Name(r))) == Some(r)
  {
    AllDecode();
    forall r
      ensures RegisterWithFingerprint(Fingerprint(Name(r))) == Some(r)
    {
      assert Decodes(r);
    }
  }

  /** Names are unique: the fingerprint of a register's name already
      determines the register, so no two registers share a key. */
  lemma NamesUnique()
    ensures forall a, b :: Name(a) == Name(b) ==> a == b
  {
    NameDecodes();
  }

  /** Every register is in the table under its own name, with its own entry. */
  lemma TableEntry(r: Register)
    ensures Name(r) in Table() && Table()[Name(r)] == Spec(r)
  {
    NameDecodes();
  }

  /** Every key of the table is the name of a register. */
  lemma TableKeys()
    ensures forall name :: name in Table() ==> exists r :: Name(r) == name
  {
  }

  /** The probe finds exactly the keys of the table, each with its entry. */
  lemma ProbeFindsTableKeys(name: string)
    ensures Probe(name).Some? <==> name in Table()
    ensures Probe(name).Some? ==> Table()[name] == Spec(Probe(name).value)
  {
    NameDecodes();
    if Probe(name).Some? {
      TableEntry(Probe(name).value);
    }
  }

  /** `Lookup` is the dictionary lookup `dxl_control[name]`: it succeeds
      exactly on the table's keys, with the entry filed there, and fails
      with `UnknownRegister` on every other name. */
  lemma LookupMatchesTable(name: string)
    ensures Lookup(name).Ok? <==> name in Table()
    ensures name in Table() ==> Lookup(name) == Ok(Table()[name])
    ensures name !in Table() ==> Lookup(name) == Err(UnknownRegister(name))
  {
    ProbeFindsTableKeys(name);
  }

  /** Three entries spelled out: the live position is read-only RAM, the
      target position is writable RAM, and the id is a writable EEPROM byte. */
  lemma SampleEntries()
    ensures "present_position" in Table() && Table()["present_position"] == RegisterSpec(RAM, true, 36, 2, ReadOnly)
    ensures "goal_position" in Table() && Table()["goal_position"] == RegisterSpec(RAM, true, 30, 2, ReadWrite)
    ensures "ID" in Table() && Table()["ID"] == RegisterSpec(EEPROM, false, 3, 1, ReadWrite)
  {
    TableEntry(PresentPosition);
    TableEntry(GoalPosition);
    TableEntry(Id);
    assert Name(PresentPosition) == "present_position";
    assert Name(GoalPosition) == "goal_position";
    assert Name(Id) == "ID";
  }

  /** The servo's memory map read the other way round: the register, if
      any, that holds the byte at `offset`. Written out from the AX-12 memory
      layout, gaps included, as a reference the table is checked against. */
  function RegisterAtByte(offset: int): Option<Register>
  {
    if offset < 0 then None
    else if offset < 2 then Some(ModelNumber)
    else if offset < 3 then Some(FirmwareVersion)
    else if offset < 4 then Some(Id)
    else if offset < 5 then Some(BaudRate)
    else if offset < 6 then Some(ReturnDelay)
    else if offset < 8 then Some(CwAngleLimit)
    else if offset < 10 then Some(CcwAngleLimit)
    else if offset < 11 then None
    else if offset < 12 then Some(HighestLimitTemperature)
    else if offset < 13 then Some(LowestLimitVoltage)
    else if offset < 14 then Some(HighestLimitVoltage)
    else if offset < 16 then Some(MaxTorque)
    else if offset < 17 then Some(StatusReturnLevel)
    else if offset < 18 then Some(AlarmLed)
    else if offset < 19 then Some(AlarmShutdown)
    else if offset < 24 then None
    else if offset < 25 then Some(TorqueEnable)
    else if offset < 26 then Some(Led)
    else if offset < 27 then Some(CwComplianceMargin)
    else if offset < 28 then Some(CcwComplianceMargin)
    else if offset < 29 then Some(CwComplianceSlope)
    else if offset < 30 then Some(CcwComplianceSlope)
    else if offset < 32 then Some(GoalPosition)
    else if offset < 34 then Some(MovingSpeed)
    else if offset < 36 then Some(TorqueLimit)
    else if offset < 38 then Some(PresentPosition)
    else if offset < 40 then Some(PresentSpeed)
    else if offset < 42 then Some(PresentLoad)
    else if offset < 43 then Some(PresentVoltage)
    else if offset < 44 then Some(PresentTemperature)
    else if offset < 45 then Some(RegisteredInstruction)
    else if offset < 46 then None
    else if offset < 47 then Some(Moving)
    else if offset < 48 then Some(Lock)
    else if offset < 50 then Some(Punch)
    else None
  }

  /** Register `r` is the one `RegisterAtByte` finds at each byte it spans. */
  predicate OwnsItsBytes(r: Register)
  {
    && RegisterAtByte(Spec(r).address) == Some(r)
    && (Spec(r).width == 2 ==> RegisterAtByte(Spec(r).address + 1) == Some(r))
  }

  /** Every register is found again from each of the bytes it spans, so the
      table's byte ranges agree with the layout of `RegisterAtByte`. */
  lemma TableMatchesLayout()
    ensures forall r :: OwnsItsBytes(r)
  {
    forall r
      ensures OwnsItsBytes(r)
    {
      match r
      case ModelNumber =>
      case FirmwareVersion =>
      case Id =>
      case BaudRate =>
      case ReturnDelay =>
      case CwAngleLimit =>
      case CcwAngleLimit =>
      case HighestLimitTemperature =>
      case LowestLimitVoltage =>
      case HighestLimitVoltage =>
      case MaxTorque =>
      case StatusReturnLevel =>
      case AlarmLed =>
      case AlarmShutdown =>
      case TorqueEnable =>
      case Led =>
      case CwComplianceMargin =>
      case CcwComplianceMargin =>
      case CwComplianceSlope =>
      case CcwComplianceSlope =>
      case GoalPosition =>
      case MovingSpeed =>
      case TorqueLimit =>
      case PresentPosition =>
      case PresentSpeed =>
      case PresentLoad =>
      case PresentVoltage =>
      case PresentTemperature =>
      case RegisteredInstruction =>
      case Moving =>
      case Lock =>
      case Punch =>
    }
  }

  /** No two registers share a byte of the servo's memory. */
  lemma RegistersDisjoint()
    ensures forall a, b :: a != b ==>
      Spec(a).address + Spec(a).width <= Spec(b).address ||
      Spec(b).address + Spec(b).width <= Spec(a).address
  {
    TableMatchesLayout();
    forall a, b | a != b
      ensures Spec(a).address + Spec(a).width <= Spec(b).address ||
              Spec(b).address + Spec(b).width <= Spec(a).address
    {
      // Overlapping ranges would make both registers the owner of one byte.
      assert OwnsItsBytes(a) && OwnsItsBytes(b);
    }
  }

  /** The registers the servo reports but the host may not write: its
      identity and the live status readings. */
  const ReadOnlyRegisterSet: set<Register> := {
    ModelNumber, FirmwareVersion, PresentPosition, PresentSpeed, PresentLoad,
    PresentVoltage, PresentTemperature, RegisteredInstruction, Moving
  }

  /** Exactly these nine registers are read-only; all others are writable. */
  lemma ReadOnlyRegisters()
    ensures forall r :: Spec(r).access == ReadOnly <==> r in ReadOnlyRegisterSet
  {
    forall r
      ensures Spec(r).access == ReadOnly <==> r in ReadOnlyRegisterSet
    {
      match r
      case ModelNumber =>
      case FirmwareVersion =>
      case Id =>
      case BaudRate =>
      case ReturnDelay =>
      case CwAngleLimit =>
      case CcwAngleLimit =>
      case HighestLimitTemperature =>
      case LowestLimitVoltage =>
      case HighestLimitVoltage =>
      case MaxTorque =>
      case StatusReturnLevel =>
      case AlarmLed =>
      case AlarmShutdown =>
      case TorqueEnable =>
      case Led =>
      case CwComplianceMargin =>
      case CcwComplianceMargin =>
      case CwComplianceSlope =>
      case CcwComplianceSlope =>
      case GoalPosition =>
      case MovingSpeed =>
      case TorqueLimit =>
      case PresentPosition =>
      case PresentSpeed =>
      case PresentLoad =>
      case PresentVoltage =>
      case PresentTemperature =>
      case RegisteredInstruction =>
      case Moving =>
      case Lock =>
      case Punch =>
    }
  }

  /** Looking a register's name up yields the register's entry. */
  lemma LookupByName(r: Register)
    ensures Lookup(Name(r)) == Ok(Spec(r))
  {
    NameDecodes();
  }
}
