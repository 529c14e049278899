/** `ServoGroup`: servos kept under string keys in insertion order, with a
    batch write that pairs members and values by position. */
module Group {

  import opened Outcomes
  import opened ControlTable
  import opened Transport
  import opened Protocol
  import opened Servos

  function Min(a: int, b: int): int
  {
    if a < b then a else b
  }

  predicate Distinct<T(==)>(s: seq<T>)
  {
    forall i, j :: 0 <= i < j < |s| ==> s[i] != s[j]
  }

  /** The writes `ServoGroup.write` issues for members with the given ids,
      in order, or the exception the first write raises. Members beyond the
      last value, and values beyond the last member, are skipped. */
  function GroupWriteCalls(ids: seq<int>, register: string, values: seq<int>): (r: Result<seq<Call>>)
    ensures r.Ok? ==> |r.value| == Min(|ids|, |values|)
  {
    if ids == [] || values == [] then Ok([])
    else
      match WriteCall(ids[0], register, values[0])
      case Err(e) => Err(e)
      case Ok(c) =>
        match GroupWriteCalls(ids[1..], register, values[1..])
        case Err(e) => Err(e)
        case Ok(cs) => Ok([c] + cs)
  }

  /** The batch write pairs the member at position t with values[t] for
      every t below the shorter length, and fails, with nothing written,
      exactly when there is something to write and the register cannot be
      written. */
  lemma {:induction false} GroupWriteCallsPairing(ids: seq<int>, register: string, values: seq<int>)
    ensures var n, r := Min(|ids|, |values|), GroupWriteCalls(ids, register, values);
      && (r.Err? <==> n > 0 && WriteCall(0, register, 0).Err?)
      && (r.Err? ==> r.error == WriteCall(0, register, 0).error)
      && (r.Ok? ==> |r.value| == n)
      && (r.Ok? ==> forall t :: 0 <= t < n ==> Ok(r.value[t]) == WriteCall(ids[t], register, values[t]))
  {
    if ids != [] && values != [] {
      GroupWriteCallsPairing(ids[1..], register, values[1..]);
      var r := GroupWriteCalls(ids, register, values);
      if r.Ok? {
        forall t | 0 <= t < Min(|ids|, |values|)
          ensures Ok(r.value[t]) == WriteCall(ids[t], register, values[t])
        {
          if t > 0 {
            assert r.value[t] == GroupWriteCalls(ids[1..], register, values[1..]).value[t - 1];
          }
        }
      }
    }
  }

  /** Whether a write is refused, and why, depends on the register alone. */
  lemma WriteCallUniform(id: int, register: string, value: int)
    ensures WriteCall(id, register, value).Err? <==> WriteCall(0, register, 0).Err?
    ensures WriteCall(id, register, value).Err? ==>
      WriteCall(id, register, value).error == WriteCall(0, register, 0).error
  {
  }

  /** One more paired write keeps the log a prefix-extension of `before`
      holding the paired writes. */
  lemma LogGrows(before: seq<Call>, prev: seq<Call>, after: seq<Call>,
                 ids: seq<int>, register: string, values: seq<int>, t: nat)
    requires t < Min(|ids|, |values|)
    requires |prev| == |before| + t && prev[..|before|] == before
    requires forall u :: 0 <= u < t ==> Ok(prev[|before| + u]) == WriteCall(ids[u], register, values[u])
    requires WriteCall(ids[t], register, values[t]).Ok?
    requires after == prev + [WriteCall(ids[t], register, values[t]).value]
    ensures |after| == |before| + t + 1 && after[..|before|] == before
    ensures forall u :: 0 <= u < t + 1 ==> Ok(after[|before| + u]) == WriteCall(ids[u], register, values[u])
  {
    assert after[..|before|] == prev[..|before|];
  }

  /** A log that extends `before` with exactly the paired writes is the
      batch write's own log. */
  lemma LogIsGroupWrite(before: seq<Call>, after: seq<Call>, ids: seq<int>, register: string, values: seq<int>)
    requires |after| == |before| + Min(|ids|, |values|)
    requires after[..|before|] == before
    requires forall u :: 0 <= u < Min(|ids|, |values|) ==>
      Ok(after[|before| + u]) == WriteCall(ids[u], register, values[u])
    ensures GroupWriteCalls(ids, register, values) == Ok(after[|before|..])
    ensures after == before + after[|before|..]
  {
    GroupWriteCallsPairing(ids, register, values);
    if Min(|ids|, |values|) > 0 {
      assert Ok(after[|before|]) == WriteCall(ids[0], register, values[0]);
    }
    var r := GroupWriteCalls(ids, register, values);
    assert r.value == after[|before|..];
  }

  /** A set of keys listed once each has as many elements as the list. */
  lemma {:induction false} DistinctKeysCount(keys: seq<string>)
    requires Distinct(keys)
    ensures |set k | k in keys| == |keys|
  {
    if keys != [] {
      var rest := keys[1..];
      assert Distinct(rest);
      DistinctKeysCount(rest);
      assert (set k | k in keys) == {keys[0]} + (set k | k in rest);
      assert keys[0] !in (set k | k in rest);
    }
  }

  /** The servos stored under `keys`, in the order of `keys`. */
  function MembersAt(keys: seq<string>, servos: map<string, Servo>): (members: seq<Servo>)
    requires forall k :: k in keys ==> k in servos
    ensures |members| == |keys|
    ensures forall i :: 0 <= i < |keys| ==> members[i] == servos[keys[i]]
  {
    if keys == [] then []
    else [servos[keys[0]]] + MembersAt(keys[1..], servos)
  }

  /** The ids the servos answer to, in order. */
  ghost function IdsOf(members: seq<Servo>): (ids: seq<int>)
    reads set m | m in members
    ensures |ids| == |members|
    ensures forall i :: 0 <= i < |members| ==> ids[i] == members[i].servoId
  {
    if members == [] then []
    else [members[0].servoId] + IdsOf(members[1..])
  }

  /** The loop of `ServoGroup.write` over the group's servos: writes
      values[t] to the servo at position t while t is below both lengths,
      and stops at the first write that raises. */
  method WriteEach(members: seq<Servo>, register: string, values: seq<int>, ghost bus: Bus)
    returns (r: Result<()>)
    requires forall i :: 0 <= i < |members| ==> members[i].sp.bus == bus
    modifies bus
    ensures GroupWriteCalls(old(IdsOf(members)), register, values).Err? ==>
      r == Err(GroupWriteCalls(old(IdsOf(members)), register, values).error) && bus.calls == old(bus.calls)
    ensures GroupWriteCalls(old(IdsOf(members)), register, values).Ok? ==>
      r == Ok(()) && bus.calls == old(bus.calls) + GroupWriteCalls(old(IdsOf(members)), register, values).value
  {
    ghost var ids := IdsOf(members);
    ghost var before := bus.calls;
    var n := Min(|members|, |values|);
    var t := 0;
    while t < |members|
      invariant 0 <= t <= |members|
      invariant |bus.calls| == |before| + Min(t, n)
      invariant bus.calls[..|before|] == before
      invariant forall u :: 0 <= u < Min(t, n) ==>
        Ok(bus.calls[|before| + u]) == WriteCall(ids[u], register, values[u])
      invariant 0 < t ==> n == 0 || WriteCall(0, register, 0).Ok?
    {
      var servo := members[t];
      if t < n {
        WriteCallUniform(ids[t], register, values[t]);
        ghost var prev := bus.calls;
        var written := servo.Write(register, values[t]);
        if written.Err? {
          GroupWriteCallsPairing(ids, register, values);
          return Err(written.error);
        }
        LogGrows(before, prev, bus.calls, ids, register, values, t);
      }
      t := t + 1;
    }
    LogIsGroupWrite(before, bus.calls, ids, register, values);
    r := Ok(());
  }

  class ServoGroup {
    /** The keys in insertion order, each once (the `OrderedDict` order). */
    var keys: seq<string>
    /** The members by key (the `OrderedDict` entries). */
    var servos: map<string, Servo>

    ghost predicate Valid()
      reads this
    {
      Distinct(keys) && (forall k :: k in servos <==> k in keys)
    }

    constructor ()
      ensures Valid() && keys == [] && servos == map[]
    {
      keys := [];
      servos := map[];
    }

    /** `__setitem__`: a new key goes last; an existing key keeps its place
        and gets the new servo. */
    method Set(key: string, servo: Servo)
      requires Valid()
      modifies this
      ensures Valid()
      ensures servos == old(servos)[key := servo]
      ensures keys == if key in old(servos) then old(keys) else old(keys) + [key]
    {
      if key !in servos {
        keys := keys + [key];
      }
      servos := servos[key := servo];
    }

    /** `__len__`: the number of members, which is the number of keys. */
    function Len(): (n: nat)
      reads this
      requires Valid()
      ensures n == |keys|
    {
      DistinctKeysCount(keys);
      assert servos.Keys == set k | k in keys;
      |servos|
    }

    /** `__iter__`: every key of the group, once each, oldest first. */
    function Iter(): (r: seq<string>)
      reads this
      requires Valid()
      ensures r == keys
      ensures |r| == Len() && Distinct(r)
      ensures forall k :: k in r <==> k in servos
    {
      keys
    }

    /** `self.servos.values()`: the members, in insertion order. */
    function Members(): (members: seq<Servo>)
      reads this
      requires Valid()
      ensures |members| == |keys|
      ensures forall i :: 0 <= i < |keys| ==> members[i] == servos[keys[i]]
    {
      MembersAt(keys, servos)
    }

    /** The ids of the members, in insertion order. */
    ghost function MemberIds(): (ids: seq<int>)
      reads this, servos.Values
      requires Valid()
      ensures |ids| == |keys|
      ensures forall i :: 0 <= i < |keys| ==> ids[i] == servos[keys[i]].servoId
    {
      IdsOf(Members())
    }

    /** `write`: the values, paired by position with the members in
        insertion order. Every member drives `bus`: the module-level device
        name gives all sessions the same port. */
    method Write(register: string, values: seq<int>, ghost bus: Bus) returns (r: Result<()>)
      requires Valid()
      requires forall k :: k in servos ==> servos[k].sp.bus == bus
      modifies bus
      ensures GroupWriteCalls(old(MemberIds()), register, values).Err? ==>
        r == Err(GroupWriteCalls(old(MemberIds()), register, values).error) && bus.calls == old(bus.calls)
      ensures GroupWriteCalls(old(MemberIds()), register, values).Ok? ==>
        r == Ok(()) && bus.calls == old(bus.calls) + GroupWriteCalls(old(MemberIds()), register, values).value
    {
      r := WriteEach(Members(), register, values, bus);
    }
  }

  /** `goal_position` is a writable 2-byte register at address 30. */
  lemma GoalPositionWrite(id: int, value: int)
    ensures WriteCall(id, "goal_position", value) == Ok(Write(2, id, 30, value))
  {
    LookupByName(GoalPosition);
    assert Name(GoalPosition) == "goal_position";
  }

  /** Members beyond the last value get no write: the batch is the one for
      as many leading members as there are values. */
  lemma {:induction false} ExtraMembersSkipped(ids: seq<int>, register: string, values: seq<int>)
    requires |values| <= |ids|
    ensures GroupWriteCalls(ids, register, values) == GroupWriteCalls(ids[..|values|], register, values)
  {
    if values != [] {
      ExtraMembersSkipped(ids[1..], register, values[1..]);
      assert ids[..|values|][1..] == ids[1..][..|values| - 1];
    }
  }

  /** Values beyond the last member are ignored: the batch is the one for
      as many leading values as there are members. */
  lemma {:induction false} ExtraValuesIgnored(ids: seq<int>, register: string, values: seq<int>)
    requires |ids| <= |values|
    ensures GroupWriteCalls(ids, register, values) == GroupWriteCalls(ids, register, values[..|ids|])
  {
    if ids != [] {
      ExtraValuesIgnored(ids[1..], register, values[1..]);
      assert values[..|ids|][1..] == values[1..][..|ids| - 1];
    }
  }

  /** Two members and two values: one write each, in order. */
  lemma PairedValuesScenario()
    ensures GroupWriteCalls([1, 2], "goal_position", [100, 200]) ==
      Ok([Write(2, 1, 30, 100), Write(2, 2, 30, 200)])
  {
    GoalPositionWrite(0, 0);
    GoalPositionWrite(1, 100);
    GoalPositionWrite(2, 200);
    GroupWriteCallsPairing([1, 2], "goal_position", [100, 200]);
    var r := GroupWriteCalls([1, 2], "goal_position", [100, 200]);
    assert r.Ok? && |r.value| == 2;
    assert Ok(r.value[0]) == WriteCall(1, "goal_position", 100);
    assert Ok(r.value[1]) == WriteCall(2, "goal_position", 200);
    assert r.value == [Write(2, 1, 30, 100), Write(2, 2, 30, 200)];
  }

  /** Three members and two values: the third member gets no write. */
  lemma ShortValuesScenario()
    ensures GroupWriteCalls([1, 2, 3], "goal_position", [100, 200]) ==
      Ok([Write(2, 1, 30, 100), Write(2, 2, 30, 200)])
  {
    ExtraMembersSkipped([1, 2, 3], "goal_position", [100, 200]);
    assert [1, 2, 3][..2] == [1, 2];
    PairedValuesScenario();
  }

  /** Two servos with ids 1 and 2 on one session, added under the keys
      "base" and "elbow". */
  method HelloMembers(bus: Bus) returns (group: ServoGroup)
    ensures fresh(group) && group.Valid()
    ensures group.keys == ["base", "elbow"]
    ensures group.MemberIds() == [1, 2]
    ensures forall k :: k in group.servos ==> group.servos[k].sp.bus == bus
  {
    var sp := new ServoProtocol(bus);
    group := new ServoGroup();
    var base := new Servo(sp, 1, null);
    var elbow := new Servo(sp, 2, null);
    group.Set("base", base);
    group.Set("elbow", elbow);
    assert group.servos == map["base" := base, "elbow" := elbow];
    assert group.Members() == [base, elbow];
  }

  /** The two servos above, then one batch write of two goal positions: one
      2-byte write per servo at address 30, in the order the servos were
      added. */
  method HelloGroup(bus: Bus)
    modifies bus
    ensures bus.calls == old(bus.calls) + [Write(2, 1, 30, 100), Write(2, 2, 30, 200)]
  {
    var group := HelloMembers(bus);
    PairedValuesScenario();
    var _ := group.Write("goal_position", [100, 200], bus);
  }
}
