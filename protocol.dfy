/** `ServoProtocol`: single-register reads and writes by name, dispatched to
    the SDK's 1- or 2-byte transaction at the register's address. */
module Protocol {

  import opened Outcomes
  import opened ControlTable
  import opened Transport

  /** The one transaction `read_register` issues, or the `KeyError` it
      raises before issuing any. */
  function ReadCall(id: int, register: string): (r: Result<Call>)
    ensures r.Err? ==> r.error == UnknownRegister(register)
    ensures r.Ok? ==> r.value.Read? && r.value.id == id
  {
    match Lookup(register)
    case Err(e) => Err(e)
    case Ok(spec) => Ok(Read(spec.width, id, spec.address))
  }

  /** `read_register` reads the named register at its table address with
      its table width, and raises only for a name outside the table. */
  lemma ReadCallMatchesTable(id: int, register: string)
    ensures ReadCall(id, register).Err? <==> register !in Table()
    ensures register in Table() ==>
      ReadCall(id, register) == Ok(Read(Table()[register].width, id, Table()[register].address))
  {
    LookupMatchesTable(register);
  }

  /** The one transaction `write_register` issues, or the exception it
      raises before issuing any: a `KeyError` for an unknown name, an
      `IOError` for a read-only register. */
  function WriteCall(id: int, register: string, value: int): (r: Result<Call>)
    ensures r.Err? ==> r.error == UnknownRegister(register) || r.error == ReadOnlyRegister(register)
    ensures r.Ok? ==> r.value.Write? && r.value.id == id && r.value.value == value
  {
    match Lookup(register)
    case Err(e) => Err(e)
    case Ok(spec) =>
      if spec.access == ReadOnly then Err(ReadOnlyRegister(register))
      else Ok(Write(spec.width, id, spec.address, value))
  }

  /** `write_register` writes exactly the writable registers of the table,
      at their table address with their table width; it raises `KeyError`
      for a name outside the table and `IOError` for a read-only one. */
  lemma WriteCallMatchesTable(id: int, register: string, value: int)
    ensures WriteCall(id, register, value).Ok? <==>
      register in Table() && Table()[register].access == ReadWrite
    ensures register !in Table() ==> WriteCall(id, register, value) == Err(UnknownRegister(register))
    ensures register in Table() && Table()[register].access == ReadOnly ==>
      WriteCall(id, register, value) == Err(ReadOnlyRegister(register))
    ensures register in Table() && Table()[register].access == ReadWrite ==>
      var spec := Table()[register];
      WriteCall(id, register, value) == Ok(Write(spec.width, id, spec.address, value))
  {
    LookupMatchesTable(register);
  }

  /** `write_register`'s verdict on the SDK's two status codes: a failed
      transaction first, then an error flagged by the servo. */
  function Succeeded(txRxResult: int, packetError: int): (ok: bool)
    ensures ok <==> txRxResult == COMM_SUCCESS && packetError == 0
  {
    if txRxResult != COMM_SUCCESS then false
    else if packetError != 0 then false
    else true
  }

  /** A writable register is read back from the very bytes it is written to. */
  lemma WriteAndReadAgree(id: int, register: string, value: int)
    requires WriteCall(id, register, value).Ok?
    ensures ReadCall(id, register).Ok?
    ensures var w, r := WriteCall(id, register, value).value, ReadCall(id, register).value;
      w.width == r.width && w.address == r.address && w.id == r.id
  {
    WriteCallMatchesTable(id, register, value);
    ReadCallMatchesTable(id, register);
  }

  class ServoProtocol {
    /** The port this session drives (`port_num`). */
    const bus: Bus

    constructor (bus: Bus)
      ensures this.bus == bus
    {
      this.bus := bus;
    }

    /** `read_register`: the value the SDK returns, whatever the status
        codes say (they are only logged). */
    method ReadRegister(id: int, register: string) returns (r: Result<int>)
      modifies bus
      ensures ReadCall(id, register).Err? ==>
        r == Err(ReadCall(id, register).error) && bus.calls == old(bus.calls)
      ensures ReadCall(id, register).Ok? ==>
        var c := ReadCall(id, register).value;
        bus.calls == old(bus.calls) + [c] && r == Ok(bus.respond(old(bus.calls), c).data)
    {
      var spec :- Lookup(register);
      var value := 0;
      if spec.width == 1 {
        value := bus.Read1ByteTxRx(id, spec.address);
      } else if spec.width == 2 {
        value := bus.Read2ByteTxRx(id, spec.address);
      }
      return Ok(value);
    }

    /** `write_register`: refuses a read-only register before touching the
        bus, otherwise issues the write and reports whether both status
        codes say it succeeded. */
    method WriteRegister(id: int, register: string, value: int) returns (r: Result<bool>)
      modifies bus
      ensures WriteCall(id, register, value).Err? ==>
        r == Err(WriteCall(id, register, value).error) && bus.calls == old(bus.calls)
      ensures WriteCall(id, register, value).Ok? ==>
        bus.calls == old(bus.calls) + [WriteCall(id, register, value).value] &&
        r == Ok(Succeeded(bus.LastTxRxResult(), bus.LastRxPacketError()))
    {
      var spec :- Lookup(register);
      if spec.access == ReadOnly {
        return Err(ReadOnlyRegister(register));
      }
      if spec.width == 1 {
        bus.Write1ByteTxRx(id, spec.address, value);
      } else if spec.width == 2 {
        bus.Write2ByteTxRx(id, spec.address, value);
      }
      var lastResult := bus.LastTxRxResult();
      if lastResult != COMM_SUCCESS {
        return Ok(false);
      } else if bus.LastRxPacketError() != 0 {
        return Ok(false);
      }
      return Ok(true);
    }
  }
}
