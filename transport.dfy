/** The vendor SDK (`dynamixel_functions`) and the serial port behind it, as
    the register layer sees them: four transaction primitives and the
    "last result" and "last packet error" queries. Packet framing,
    checksums and timing happen inside the SDK and are not modelled; the
    bus records every transaction it is handed, and what the servos answer
    is an oracle fixed when the bus is created. */
module Transport {

  import opened ControlTable

  /** `getLastTxRxResult` value of a transaction that went through. */
  const COMM_SUCCESS := 0

  /** One transaction: `readNByteTxRx` or `writeNByteTxRx` with N = width,
      addressed to servo `id` at control-table byte `address`. */
  datatype Call =
    | Read(width: Width, id: int, address: nat)
    | Write(width: Width, id: int, address: nat, value: int)

  /** What the SDK knows after a transaction: its communication result, the
      error byte of the servo's status packet, and the data read (ignored
      for a write). */
  datatype Reply = Reply(txRxResult: int, packetError: int, data: int)

  /** A value that a register of the given width can hold. */
  predicate FitsWidth(width: Width, value: int)
  {
    0 <= value < if width == 1 then 0x100 else 0x1_0000
  }

  class Bus {
    /** How the servos on the bus answer a transaction, given every
        transaction that went before it. */
    const respond: (seq<Call>, Call) -> Reply

    /** Every transaction handed to the SDK, oldest first. */
    var calls: seq<Call>

    constructor (respond: (seq<Call>, Call) -> Reply)
      ensures this.respond == respond && calls == []
    {
      this.respond := respond;
      calls := [];
    }

    /** The reply to the latest transaction. */
    function LastReply(): Reply
      reads this
      requires calls != []
    {
      respond(calls[..|calls| - 1], calls[|calls| - 1])
    }

    /** `getLastTxRxResult`. */
    function LastTxRxResult(): int
      reads this
      requires calls != []
    {
      LastReply().txRxResult
    }

    /** `getLastRxPacketError`. */
    function LastRxPacketError(): int
      reads this
      requires calls != []
    {
      LastReply().packetError
    }

    method Transact(c: Call) returns (data: int)
      modifies this
      ensures calls == old(calls) + [c]
      ensures LastReply() == respond(old(calls), c)
      ensures data == respond(old(calls), c).data
    {
      data := respond(calls, c).data;
      calls := calls + [c];
      assert calls[..|calls| - 1] == old(calls);
    }

    /** `read1ByteTxRx`. */
    method Read1ByteTxRx(id: int, address: nat) returns (data: int)
      modifies this
      ensures calls == old(calls) + [Read(1, id, address)]
      ensures data == respond(old(calls), Read(1, id, address)).data
    {
      data := Transact(Read(1, id, address));
    }

    /** `read2ByteTxRx`. */
    method Read2ByteTxRx(id: int, address: nat) returns (data: int)
      modifies this
      ensures calls == old(calls) + [Read(2, id, address)]
      ensures data == respond(old(calls), Read(2, id, address)).data
    {
      data := Transact(Read(2, id, address));
    }

    /** `write1ByteTxRx`. */
    method Write1ByteTxRx(id: int, address: nat, value: int)
      modifies this
      ensures calls == old(calls) + [Write(1, id, address, value)]
    {
      var _ := Transact(Write(1, id, address, value));
    }

    /** `write2ByteTxRx`. */
    method Write2ByteTxRx(id: int, address: nat, value: int)
      modifies this
      ensures calls == old(calls) + [Write(2, id, address, value)]
    {
      var _ := Transact(Write(2, id, address, value));
    }
  }
}
