/** The Huawei driver: line voltages and currents from the block at register
    37101 as pairs of registers, the state of charge from register 37004 in
    tenths, the "sun" signature of the device-type registers, and run's
    reconnect counter, which marks the status 2 when it gives up. */
module Huawei {
  import opened Base
  import opened Text
  import opened InverterLink

  const ModbusPort: int := 502
  const Slave: int := 1

  /** The device-type block check_msg is given, and its length. */
  const DeviceType: int := 30000
  const ProbeCount: nat := 15

  /** The two blocks run reads, and their lengths. */
  const MeterStart: int := 37101
  const MeterCount: nat := 12
  const BmsStart: int := 37004
  const BmsCount: nat := 1

  const Signature: string := "sun"

  /** wattmeter_register_table in its insertion order: each entry is the
      register pair at its address, read relative to the block. */
  const MeterFields: seq<(string, Cell)> := [
    ("u1", Wide(37101 - MeterStart)), ("i1", Wide(37107 - MeterStart)),
    ("u2", Wide(37103 - MeterStart)), ("i2", Wide(37109 - MeterStart)),
    ("u3", Wide(37105 - MeterStart)), ("i3", Wide(37111 - MeterStart))]

  /** bms_register_table: the state of charge, in tenths. */
  const BmsFields: seq<(string, Cell)> := [("soc", Tenths(37004 - BmsStart))]

  /** What process_msg does to the numeric entries for a response and the
      block it was read from; any other block changes nothing. */
  function Process(values: map<string, int>, r: seq<word>, start: int): (map<string, int>, Option<Error>)
  {
    if start == MeterStart then Fill(values, MeterFields, r, |MeterFields|)
    else if start == BmsStart then Fill(values, BmsFields, r, |BmsFields|)
    else (values, None)
  }

  /** The two reads of run and their decoding: the numeric entries afterwards
      and whether both went through. A read that raised is None; the first
      failure abandons the rest. */
  function Exchange(values: map<string, int>, meter: Option<seq<word>>, bms: Option<seq<word>>): (map<string, int>, bool)
  {
    match meter
    case None => (values, false)
    case Some(r1) =>
      var (v1, e1) := Process(values, r1, MeterStart);
      if e1.Some? then (v1, false)
      else
        match bms
        case None => (v1, false)
        case Some(r2) =>
          var (v2, e2) := Process(v1, r2, BmsStart);
          (v2, e2 == None)
  }

  /** Every pair the table names lies inside the twelve registers run reads,
      and no entry is named twice. */
  lemma {:induction false} MeterFieldsInRead()
    ensures forall k | 0 <= k < |MeterFields| ::
      MeterFields[k].1.Wide? && 0 <= MeterFields[k].1.offset && MeterFields[k].1.offset + 1 < MeterCount
    ensures DistinctKeys(MeterFields)
  {
    forall k | 0 <= k < |MeterFields|
      ensures MeterFields[k].1.Wide? && 0 <= MeterFields[k].1.offset && MeterFields[k].1.offset + 1 < MeterCount
    {
      assert k == 0 || k == 1 || k == 2 || k == 3 || k == 4 || k == 5;
    }
  }

  /** The 37101 block: it decodes exactly when the response holds the twelve
      registers, and then each entry is its register pair joined high word
      first; a shorter response raises IndexError. */
  lemma {:induction false} MeterBlock(values: map<string, int>, r: seq<word>)
    ensures var (v, e) := Process(values, r, MeterStart);
      (e == None <==> |r| >= MeterCount) && e in {None, Some(IndexError)}
      && (|r| >= MeterCount ==>
            v == values["u1" := Joined(r[0], r[1])]["i1" := Joined(r[6], r[7])]
                       ["u2" := Joined(r[2], r[3])]["i2" := Joined(r[8], r[9])]
                       ["u3" := Joined(r[4], r[5])]["i3" := Joined(r[10], r[11])])
  {
    var f := MeterFields;
    MeterFieldsInRead();
    FillSucceeds(values, f, r, 6);
    FillRaises(values, f, r, 6, IndexError);
    if |r| >= MeterCount {
      MeterValues(values, r);
    } else {
      assert CellValue(f[5].1, r).Err?;
    }
  }

  /** The six assignments of the 37101 block on a full response. */
  lemma {:induction false} MeterValues(values: map<string, int>, r: seq<word>)
    requires |r| >= MeterCount
    ensures Fill(values, MeterFields, r, 6) ==
      (values["u1" := Joined(r[0], r[1])]["i1" := Joined(r[6], r[7])]
             ["u2" := Joined(r[2], r[3])]["i2" := Joined(r[8], r[9])]
             ["u3" := Joined(r[4], r[5])]["i3" := Joined(r[10], r[11])], None)
  {
    var f := MeterFields;
    var v1 := values["u1" := Joined(r[0], r[1])];
    var v2 := v1["i1" := Joined(r[6], r[7])];
    var v3 := v2["u2" := Joined(r[2], r[3])];
    var v4 := v3["i2" := Joined(r[8], r[9])];
    var v5 := v4["u3" := Joined(r[4], r[5])];
    assert Fill(values, f, r, 1) == (v1, None);
    assert Fill(values, f, r, 2) == (v2, None);
    assert Fill(values, f, r, 3) == (v3, None);
    assert Fill(values, f, r, 4) == (v4, None);
    assert Fill(values, f, r, 5) == (v5, None);
  }

  /** The 37004 block: it decodes exactly when the response holds a register,
      and then the state of charge is that register divided by ten, rounded
      down, at most 6553. */
  lemma {:induction false} BmsBlock(values: map<string, int>, r: seq<word>)
    ensures var (v, e) := Process(values, r, BmsStart);
      (e == None <==> |r| >= BmsCount) && e in {None, Some(IndexError)}
      && (|r| >= BmsCount ==> v == values["soc" := r[0] / 10] && r[0] / 10 <= 6553)
  {
    assert BmsFields[0] == ("soc", Tenths(0));
    assert Fill(values, BmsFields, r, 0) == (values, None);
    if |r| >= BmsCount {
      TenthsValue(r, 0);
    }
  }

  /** A run goes through exactly when both reads answered with at least the
      registers asked for. */
  lemma {:induction false} ExchangeSucceeds(values: map<string, int>, meter: Option<seq<word>>, bms: Option<seq<word>>)
    ensures Exchange(values, meter, bms).1 <==>
      meter.Some? && |meter.value| >= MeterCount && bms.Some? && |bms.value| >= BmsCount
  {
    if meter.Some? {
      MeterBlock(values, meter.value);
      if bms.Some? {
        BmsBlock(Process(values, meter.value, MeterStart).0, bms.value);
      }
    }
  }

  /** The signature test on the registers themselves: it raises IndexError
      unless two registers are nonzero, and accepts exactly when the first
      three characters they give are "sun" in any mix of cases. */
  lemma {:induction false} SignatureOnRegisters(result: seq<word>)
    ensures var nz, accepted := NonZero(result), LowerPrefixIs(Identity(result), Signature);
      (accepted.Err? <==> |nz| < 2)
      && (accepted == Ok(true) <==>
            |nz| >= 2 && nz[0] / 256 in {'s' as int, 'S' as int} && nz[0] % 256 in {'u' as int, 'U' as int}
            && nz[1] / 256 in {'n' as int, 'N' as int})
  {
    var device, nz := Identity(result), NonZero(result);
    IdentityLength(result);
    if |nz| >= 2 {
      IdentityAt(result, 0);
      IdentityAt(result, 1);
      IdentityAt(result, 2);
      LowersTo(device[0], 's');
      LowersTo(device[1], 'u');
      LowersTo(device[2], 'n');
      assert LowerPrefixIs(device, Signature) == Ok(LowerAscii(device[0]) == 's' && LowerAscii(device[1]) == 'u' && LowerAscii(device[2]) == 'n');
    }
  }

  class Huawei {
    const data: InverterData
    const link: Link

    constructor(data: InverterData, link: Link)
      modifies data`kind
      ensures this.data == data && this.link == link && data.kind == "Huawei"
    {
      this.data := data;
      this.link := link;
      new;
      data.kind := "Huawei";
    }

    /** process_msg: the table's pairs for the 37101 block, the state of
        charge for the 37004 block. */
    method ProcessMsg(response: seq<word>, start: int) returns (error: Option<Error>)
      modifies data`values
      ensures (data.values, error) == Process(old(data.values), response, start)
    {
      if start == MeterStart {
        error := FillFields(data, MeterFields, response);
      } else if start == BmsStart {
        error := FillFields(data, BmsFields, response);
      } else {
        error := None;
      }
    }

    /** check_msg: the identity is stored only when it carries the signature. */
    method CheckMsg(result: seq<word>) returns (accepted: Result<bool>)
      modifies data`id
      ensures accepted == LowerPrefixIs(Identity(result), Signature)
      ensures data.id == if accepted == Ok(true) then Some(Identity(result)) else old(data.id)
    {
      var device := BuildIdentity(result);
      accepted := LowerPrefixIs(device, Signature);
      if accepted == Ok(true) {
        data.id := Some(device);
      }
    }

    /** run: the status is the connection status; with a connection both
        blocks are read and decoded, then the counter settles, marking the
        status 2 and asking for a reconnect once it exceeds the maximum. */
    method Run(meter: Option<seq<word>>, bms: Option<seq<word>>)
      modifies data`status, data`values, data`ip, link`reconnectErrors, link`probes
      ensures !link.connected ==>
        data.status == link.connectionStatus && data.values == old(data.values) && data.ip == old(data.ip)
        && link.reconnectErrors == old(link.reconnectErrors) && link.probes == old(link.probes)
      ensures link.connected ==>
        var (v, ok) := Exchange(old(data.values), meter, bms);
        var retry := Retries(old(link.reconnectErrors), link.maxReconnectErrors, ok);
        data.values == v && link.reconnectErrors == Errors(old(link.reconnectErrors), [ok])
        && link.probes == old(link.probes) + (if retry then [Probe(Slave, DeviceType, ProbeCount)] else [])
        && data.ip == (if ok then Some(link.address) else old(data.ip))
        && data.status == (if retry then 2 else link.connectionStatus)
    {
      data.status := link.connectionStatus;
      if link.connected {
        var ok := false;
        if meter.Some? {
          var e1 := ProcessMsg(meter.value, MeterStart);
          if e1.None? && bms.Some? {
            var e2 := ProcessMsg(bms.value, BmsStart);
            ok := e2.None?;
          }
        }
        link.Settle(data, ok, true, Probe(Slave, DeviceType, ProbeCount));
      }
    }
  }
}
