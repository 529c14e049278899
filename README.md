# servode register layer, modelled in Dafny

`servode.py` drives Dynamixel AX-12 servos over Dynamixel protocol 1.0
through the vendor SDK. This project models its core:

- **The control table `dxl_control`.** This is the fixed map from register name to memory region, volatility, byte address, width (`comm_bytes`) and access mode. It is modelled in `ControlTable`.
- **`ServoProtocol`'s two dispatch methods.** `read_register` and `write_register` look a register up by name. They issue one 1-byte or 2-byte SDK transaction at the table address. `write_register` refuses read-only registers and turns the SDK's two status codes into a success flag. They are modelled in `Protocol`.
- **`Servo`'s operations.** These are `wheel_mode`, `wheel_speed` (a range check plus the direction bit), `new_id` (a range check, then the handle takes the new id), and `read` (which keeps an optional cache of the last value per register) and `write`. They are modelled in `Servos`.
- **`ServoGroup`.** This is an insertion-ordered keyed collection. Its `write` pairs the members with a list of values by position and stops at the shorter of the two. It is modelled in `Group`.

The SDK and the serial port are modelled in `Transport` as a `Bus` object. The bus records every transaction it is handed: a read or write, its width, the servo id, the address and the value. What the servos answer (the communication result, the packet-error byte and the data read) comes from a function fixed when the bus is created. It maps the earlier transactions and the current one to a reply. Everything the layer does is therefore stated as "which transactions, in which order, and what is returned".

The Python exceptions become `Err` values of `Outcomes.Result`:

- `KeyError` from a name missing in the table becomes `UnknownRegister`.
- `IOError` from writing a read-only register becomes `ReadOnlyRegister`.
- `ValueError` from an out-of-range speed or id becomes `InvalidArgument`.

Each stateful method is specified by a pure function. `ReadCall`, `WriteCall`, `WheelModeCalls`, `WheelSpeedCalls`, `NewIdCalls` and `GroupWriteCalls` give the planned transactions or the error. Lemmas then relate those functions to the table.

`Lookup` finds a name through a fingerprint of the name: its length, first character and last character. It then compares the candidate's name, as a hash table would. `LookupMatchesTable` proves that this is exactly the dictionary lookup `Table()[name]`.

In two places the model keeps the code's behaviour where a stricter design would differ:

- `read_register` returns whatever value the SDK returned, even when the status codes report a failure. It only logs them.
- `new_id` gives the handle the new id whether or not the `ID` write succeeded.

## Model

| member | source | states |
|---|---|---|
| ControlTable.Lookup | servode.py:506 | a failed lookup is `UnknownRegister(name)`; a successful one returns the entry of the register whose name is `name` |
| ControlTable.LookupMatchesTable | servode.py:39-264 | lookup succeeds exactly on the table's keys, returns the entry filed there, and fails with `UnknownRegister` on every other name |
| ControlTable.ProbeFindsTableKeys | servode.py:39-264 | the name probe finds a register exactly for the table's keys, and the entry under the key is that register's |
| ControlTable.NamesUnique | servode.py:39-264 | no two registers share a key of the table |
| ControlTable.TableEntry | servode.py:39-264 | every AX-12 register is in the table under its own name with its own entry |
| ControlTable.TableKeys | servode.py:39-264 | every key of the table names a register |
| ControlTable.SampleEntries | servode.py:54-207 | `present_position` is read-only RAM, volatile, at 36, 2 bytes; `goal_position` is writable RAM at 30, 2 bytes; `ID` is writable, non-volatile EEPROM at 3, 1 byte |
| ControlTable.TableMatchesLayout | servode.py:39-264 | every register is found again, by an independent byte-to-register layout, at each byte its address and width cover |
| ControlTable.RegistersDisjoint | servode.py:39-264 | the byte ranges of any two distinct registers do not overlap |
| ControlTable.Spec | servode.py:39-264 | the entry of each of the 32 registers, field by field as listed; every entry is coherent: EEPROM iff non-volatile, EEPROM below address 24, RAM from 24, nothing past byte 49 |
| ControlTable.Name | servode.py:39-264 | the 32 keys, one per register, spelled as in the table; `NamesUnique` shows no two coincide |
| ControlTable.Table | servode.py:39-264 | `dxl_control` itself: every register's entry under its name; every entry is coherent (and has width 1 or 2 and access r or rw by its type) |
| ControlTable.ReadOnlyRegisters | servode.py:39-264 | exactly the nine identity and status registers have access `"r"` |
| ControlTable.LookupByName | servode.py:39-264 | looking up a register's own name yields that register's entry |
| Protocol.ReadCall | servode.py:506-515 | the read transaction is addressed to the given id, or the error is `UnknownRegister` |
| Protocol.ReadCallMatchesTable | servode.py:506-515 | the read fails exactly for names outside the table; otherwise it is a read of the table width at the table address for the given id |
| Protocol.WriteCall | servode.py:548-561 | the write carries the given id and value, or the error is `UnknownRegister` or `ReadOnlyRegister` |
| Protocol.WriteCallMatchesTable | servode.py:548-561 | the write succeeds exactly for writable table entries; an unknown name is `UnknownRegister`, a read-only one `ReadOnlyRegister`, otherwise a write of the table width at the table address |
| Protocol.Succeeded | servode.py:563-582 | success exactly when the last TxRx result is `COMM_SUCCESS` (0) and the packet error is 0 |
| Protocol.WriteAndReadAgree | servode.py:493-582 | a register that can be written is read back with the same width, address and id |
| Protocol.ServoProtocol.ReadRegister | servode.py:493-533 | an unknown name leaves the bus untouched and fails; otherwise exactly one transaction, `ReadCall`'s, is appended and its data returned |
| Protocol.ServoProtocol.WriteRegister | servode.py:535-582 | an unknown or read-only name leaves the bus untouched and fails; otherwise exactly `WriteCall`'s transaction is appended and the result is `Succeeded` of the last status codes |
| Servos.SpeedValue | servode.py:308-310 | the encoded speed lies in [0, 2047], its low ten bits are the speed, and it is below 1024 exactly when clockwise |
| Servos.AngleLimitWrites | servode.py:284-291 | `cw_angle_limit` and `ccw_angle_limit` are written as 2-byte writes at addresses 6 and 8 |
| Servos.MovingSpeedWrite | servode.py:312 | `moving_speed` is written as a 2-byte write at address 32 |
| Servos.IdWrite | servode.py:318 | `ID` is written as a 1-byte write at address 3 |
| Servos.WheelModeCalls | servode.py:284-292 | two writes to the servo's id: limits 0 and 0 when enabling, 4 then 42 when disabling, cw first |
| Servos.WheelSpeedCalls | servode.py:294-313 | fails with `InvalidArgument(speed)` exactly for speeds outside [0, 1023]; otherwise the two wheel-mode writes and then the encoded speed at address 32 |
| Servos.WheelSpeedCallsSplit | servode.py:303-312 | in range, the plan is the enabling wheel-mode writes followed by one write of `SpeedValue` |
| Servos.NewIdCalls | servode.py:315-321 | fails with `InvalidArgument(newId)` exactly outside [0, 252]; otherwise one 1-byte write of the new id to address 3 of the old id |
| Servos.CompositeWritesFit | servode.py:284-321 | every value the composite operations write fits the width of its register |
| Servos.Servo.constructor | servode.py:268-282 | the handle drives the given session, answers to the given id (1 by default) and has the given cache (none by default); it starts out of wheel mode with torque enabled |
| Servos.Servo.WheelMode | servode.py:284-292 | the bus gains exactly the two wheel-mode writes; `enable` defaults to true |
| Servos.Servo.WheelSpeed | servode.py:294-313 | out of range: the error and no transaction; in range: `Ok` and exactly the planned three writes; `speed` defaults to 512 and `cw` to true |
| Servos.Servo.Spin | servode.py:300-312 | wheel mode on, then the encoded speed to `moving_speed` |
| Servos.Servo.NewId | servode.py:315-321 | out of range: the error, id and bus unchanged; in range: the `ID` write to the old id, then the handle answers to the new id |
| Servos.Servo.Read | servode.py:323-327 | the protocol's read for the servo's id; with a cache, the value read is stored under the register and every other key is kept |
| Servos.Servo.Write | servode.py:329-330 | the protocol's write for the servo's id, with its result |
| Group.GroupWriteCalls | servode.py:375-387 | the writes of a batch: when none is refused, exactly min(members, values) of them |
| Group.GroupWriteCallsPairing | servode.py:364-387 | the batch fails exactly when there is something to write and the register cannot be written; otherwise it has min(members, values) writes, the t-th being values[t] to member t |
| Group.WriteCallUniform | servode.py:548-552 | whether a write is refused, and why, depends on the register only |
| Group.LogGrows | servode.py:375-387 | one more paired write keeps the log a prefix extension holding the paired writes |
| Group.LogIsGroupWrite | servode.py:375-387 | a log extended by exactly the paired writes is the batch's planned log |
| Group.DistinctKeysCount | servode.py:346 | keys listed once each are as many as the list |
| Group.MembersAt | servode.py:379 | the servos under the keys, in key order |
| Group.WriteEach | servode.py:375-387 | the loop writes values[t] to member t for every t below both lengths, in order, and nothing else; the first refused write ends it with the error and nothing written |
| Group.ServoGroup.Set | servode.py:354-355 | a new key goes last, an existing key keeps its place, and the key maps to the servo |
| Group.ServoGroup.Len | servode.py:348-349 | the number of members equals the number of keys |
| Group.ServoGroup.constructor | servode.py:344-346 | a new group is empty and valid |
| Group.ServoGroup.Iter | servode.py:357-358 | the keys in insertion order, each once, exactly those of the group, as many as `Len` |
| Group.ServoGroup.Members | servode.py:379 | the members in insertion order |
| Group.ServoGroup.Write | servode.py:364-387 | the bus gains exactly `GroupWriteCalls` of the member ids in insertion order, or nothing and the error |
| Group.GoalPositionWrite | servode.py:180-186 | `goal_position` is written as a 2-byte write at address 30 |
| Group.ExtraMembersSkipped | servode.py:375-387 | with fewer values than members, the batch is the one for the first members only, one per value |
| Group.ExtraValuesIgnored | servode.py:375-387 | with more values than members, the batch is the one for the first values only, one per member |
| Group.ShortValuesScenario | servode.py:375-387 | three members and two values: two writes, the third member skipped |
| Group.PairedValuesScenario | hello_example.py:41-44 | members 1 and 2 with goal positions 100 and 200: one 2-byte write each at address 30, in order |
| Group.HelloMembers | hello_example.py:30-40 | two servos added under two keys make a valid group with ids 1 and 2 in insertion order |
| Group.HelloGroup | hello_example.py:30-45 | the example's batch write puts exactly two 2-byte writes at address 30 on the bus, servo 1 first |

## Left out

- `ServoProtocol.__init__`, `__enter__` and `__exit__`. These open and close the serial port and set the baud rate through the SDK. A `ServoProtocol` is built directly on a `Bus`.
- `factory_reset` and `ping`. Both are direct SDK calls; `factory_reset` then sleeps 2 s, and `ping` returns the model number the SDK reports. Their result check is the one `Succeeded` models.
- The SDK itself: packet framing, checksums, timeouts and the C library. The bus replies through an oracle function instead.
- The SDK's truncation of values that do not fit the register width. `CompositeWritesFit` shows the composite operations never need it.
- Logging and the `print*Result` diagnostics.
- The command-line functions, argparse and the body of `hello_example.py`, apart from the group scenario above.
- `ServoGroup.__repr__`, `ServoGroup.__getitem__`, and `Servo.__getitem__`/`__setitem__`. The last two are aliases of `read` and `write`.
- Passing either a `Servo` or an integer where a servo is expected. The model always takes the integer id.
- Group.ServoGroup.Write: requires every member to drive the same bus. The module-level device name gives every session the same port, but the code does not enforce this.
- ControlTable.Lookup: finds a name by fingerprint rather than by hashing. `LookupMatchesTable` proves the two agree.
