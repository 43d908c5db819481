/** The Goodwe driver: per-phase currents from the three registers at 36005,
    computed from the meter's voltages with a zero voltage replaced by 1, the
    state of charge from register 37007, both only when the response is long
    enough, the "gw" signature of the device-type registers, and run's
    reconnect counter, which never marks the status. The meter voltages are
    parameters. */
module Goodwe {
  import opened Base
  import opened Text
  import opened InverterLink

  const ModbusPort: int := 502
  const Slave: int := 1

  /** The device-type block check_msg is given, and its length. */
  const DeviceType: int := 35011
  const ProbeCount: nat := 5

  /** The two blocks run reads, and their lengths. */
  const MeterStart: int := 36005
  const MeterCount: nat := 3
  const BmsStart: int := 37007
  const BmsCount: nat := 1

  const Signature: string := "gw"

  /** The voltage stored for a phase and used as the divisor of its current. */
  function Divisor(u: word): (d: int)
    ensures d > 0 && (u != 0 ==> d == u)
  {
    if u != 0 then u else 1
  }

  /** process_msg's six assignments for the 36005 block, in their order: each
      phase's voltage, then its current, ten times the register over that
      voltage, truncated. */
  function MeterFields(u1: word, u2: word, u3: word): seq<(string, Cell)>
  {
    [("u1", Given(Divisor(u1))), ("i1", Scaled(0, Divisor(u1))),
     ("u2", Given(Divisor(u2))), ("i2", Scaled(1, Divisor(u2))),
     ("u3", Given(Divisor(u3))), ("i3", Scaled(2, Divisor(u3)))]
  }

  /** The state of charge for the 37007 block. */
  const BmsFields: seq<(string, Cell)> := [("soc", Reg(0))]

  /** What process_msg does to the numeric entries for a response and the
      block it was read from, given the meter voltages: each block only when
      the response is long enough, any other block not at all. */
  function Process(values: map<string, int>, r: seq<word>, start: int, u1: word, u2: word, u3: word): (map<string, int>, Option<Error>)
  {
    if start == MeterStart then (if |r| > 2 then Fill(values, MeterFields(u1, u2, u3), r, 6) else (values, None))
    else if start == BmsStart then (if |r| > 0 then Fill(values, BmsFields, r, |BmsFields|) else (values, None))
    else (values, None)
  }

  /** The two reads of run and their decoding: the numeric entries afterwards
      and whether both went through. A read that raised is None. */
  function Exchange(values: map<string, int>, meter: Option<seq<word>>, bms: Option<seq<word>>, u1: word, u2: word, u3: word): (map<string, int>, bool)
  {
    match meter
    case None => (values, false)
    case Some(r1) =>
      var (v1, e1) := Process(values, r1, MeterStart, u1, u2, u3);
      if e1.Some? then (v1, false)
      else
        match bms
        case None => (v1, false)
        case Some(r2) =>
          var (v2, e2) := Process(v1, r2, BmsStart, u1, u2, u3);
          (v2, e2 == None)
  }

  /** A current: ten times the register over the voltage, rounded down. */
  lemma {:induction false} CurrentValue(r: seq<word>, k: int, u: word)
    requires 0 <= k < |r|
    ensures CellValue(Scaled(k, Divisor(u)), r) == Ok(r[k] as int * 10 / Divisor(u))
  {
    TruncQuotient(r[k] as int * 10, Divisor(u));
  }

  /** The 36005 block never raises: a response of at least three registers
      gives each phase its voltage (1 for a zero voltage) and its current;
      a shorter one changes nothing. */
  lemma {:induction false} MeterBlock(values: map<string, int>, r: seq<word>, u1: word, u2: word, u3: word)
    ensures var (v, e) := Process(values, r, MeterStart, u1, u2, u3);
      e == None
      && (|r| >= MeterCount ==>
            v == values["u1" := Divisor(u1)]["i1" := r[0] as int * 10 / Divisor(u1)]
                       ["u2" := Divisor(u2)]["i2" := r[1] as int * 10 / Divisor(u2)]
                       ["u3" := Divisor(u3)]["i3" := r[2] as int * 10 / Divisor(u3)])
      && (|r| < MeterCount ==> v == values)
  {
    if |r| >= MeterCount {
      CurrentValue(r, 0, u1);
      CurrentValue(r, 1, u2);
      CurrentValue(r, 2, u3);
      var f := MeterFields(u1, u2, u3);
      var v1 := values["u1" := Divisor(u1)];
      var v2 := v1["i1" := r[0] as int * 10 / Divisor(u1)];
      var v3 := v2["u2" := Divisor(u2)];
      var v4 := v3["i2" := r[1] as int * 10 / Divisor(u2)];
      var v5 := v4["u3" := Divisor(u3)];
      assert Fill(values, f, r, 1) == (v1, None);
      assert Fill(values, f, r, 2) == (v2, None);
      assert Fill(values, f, r, 3) == (v3, None);
      assert Fill(values, f, r, 4) == (v4, None);
      assert Fill(values, f, r, 5) == (v5, None);
    }
  }

  /** The 37007 block never raises: a register, when there is one, is the
      state of charge; an empty response changes nothing. */
  lemma {:induction false} BmsBlock(values: map<string, int>, r: seq<word>, u1: word, u2: word, u3: word)
    ensures var (v, e) := Process(values, r, BmsStart, u1, u2, u3);
      e == None && v == if |r| >= BmsCount then values["soc" := r[0]] else values
  {
    assert Fill(values, BmsFields, r, 0) == (values, None);
  }

  /** A run goes through exactly when both reads answered: decoding never
      raises, whatever the response and the meter voltages. */
  lemma {:induction false} ExchangeSucceeds(values: map<string, int>, meter: Option<seq<word>>, bms: Option<seq<word>>, u1: word, u2: word, u3: word)
    ensures Exchange(values, meter, bms, u1, u2, u3).1 <==> meter.Some? && bms.Some?
  {
    if meter.Some? {
      MeterBlock(values, meter.value, u1, u2, u3);
      if bms.Some? {
        BmsBlock(Process(values, meter.value, MeterStart, u1, u2, u3).0, bms.value, u1, u2, u3);
      }
    }
  }

  /** The signature test on the registers themselves: it raises IndexError
      when no register is nonzero, and accepts exactly when the first two
      characters are "gw" in any mix of cases. */
  lemma {:induction false} SignatureOnRegisters(result: seq<word>)
    ensures var nz, accepted := NonZero(result), LowerPrefixIs(Identity(result), Signature);
      (accepted.Err? <==> |nz| == 0)
      && (accepted == Ok(true) <==>
            |nz| >= 1 && nz[0] / 256 in {'g' as int, 'G' as int} && nz[0] % 256 in {'w' as int, 'W' as int})
  {
    var device, nz := Identity(result), NonZero(result);
    IdentityLength(result);
    if |nz| >= 1 {
      IdentityAt(result, 0);
      IdentityAt(result, 1);
      LowersTo(device[0], 'g');
      LowersTo(device[1], 'w');
      assert LowerPrefixIs(device, Signature) == Ok(LowerAscii(device[0]) == 'g' && LowerAscii(device[1]) == 'w');
    }
  }

  class Goodwe {
    const data: InverterData
    const link: Link

    constructor(data: InverterData, link: Link)
      modifies data`kind
      ensures this.data == data && this.link == link && data.kind == "Goodwe"
    {
      this.data := data;
      this.link := link;
      new;
      data.kind := "Goodwe";
    }

    /** process_msg: voltages and currents for the 36005 block when it has
        three registers, the state of charge for the 37007 block when it has
        one. */
    method ProcessMsg(response: seq<word>, start: int, u1: word, u2: word, u3: word) returns (error: Option<Error>)
      modifies data`values
      ensures (data.values, error) == Process(old(data.values), response, start, u1, u2, u3)
    {
      error := None;
      if start == MeterStart {
        if |response| > 2 {
          error := FillFields(data, MeterFields(u1, u2, u3), response);
        }
      } else if start == BmsStart {
        if |response| > 0 {
          error := FillFields(data, BmsFields, response);
        }
      }
    }

    /** check_msg: the identity is stored first, whatever the test then says. */
    method CheckMsg(result: seq<word>) returns (accepted: Result<bool>)
      modifies data`id
      ensures accepted == LowerPrefixIs(Identity(result), Signature)
      ensures data.id == Some(Identity(result))
    {
      var device := BuildIdentity(result);
      data.id := Some(device);
      accepted := LowerPrefixIs(device, Signature);
    }

    /** run: the status is the connection status; with a connection both
        blocks are read and decoded, then the counter settles and asks for a
        reconnect once it exceeds the maximum; the status is left alone. */
    method Run(meter: Option<seq<word>>, bms: Option<seq<word>>, u1: word, u2: word, u3: word)
      modifies data`status, data`values, data`ip, link`reconnectErrors, link`probes
      ensures data.status == link.connectionStatus
      ensures !link.connected ==>
        data.values == old(data.values) && data.ip == old(data.ip)
        && link.reconnectErrors == old(link.reconnectErrors) && link.probes == old(link.probes)
      ensures link.connected ==>
        var (v, ok) := Exchange(old(data.values), meter, bms, u1, u2, u3);
        var retry := Retries(old(link.reconnectErrors), link.maxReconnectErrors, ok);
        data.values == v && link.reconnectErrors == Errors(old(link.reconnectErrors), [ok])
        && link.probes == old(link.probes) + (if retry then [Probe(Slave, DeviceType, ProbeCount)] else [])
        && data.ip == (if ok then Some(link.address) else old(data.ip))
    {
      data.status := link.connectionStatus;
      if link.connected {
        var ok := false;
        if meter.Some? {
          var e1 := ProcessMsg(meter.value, MeterStart, u1, u2, u3);
          if e1.None? && bms.Some? {
            var e2 := ProcessMsg(bms.value, BmsStart, u1, u2, u3);
            ok := e2.None?;
          }
        }
        link.Settle(data, ok, false, Probe(Slave, DeviceType, ProbeCount));
      }
    }
  }
}
