/** The Victron driver: per-phase powers from the three registers at 820,
    each after the meter's voltage for that phase, the state of charge from
    register 843, the length test on the device-type registers, and run's
    reconnect counter, which marks the status 2 when it gives up. The meter
    voltages are parameters. */
module Victron {
  import opened Base
  import opened InverterLink

  const ModbusPort: int := 502
  const Slave: int := 100

  /** The device-type block check_msg is given, and its length. */
  const DeviceType: int := 800
  const ProbeCount: nat := 6

  /** The two blocks run reads, and their lengths. */
  const MeterStart: int := 820
  const MeterCount: nat := 3
  const BmsStart: int := 843
  const BmsCount: nat := 1

  /** The shortest identity check_msg accepts. */
  const MinIdentity: nat := 12

  /** process_msg's six assignments for the 820 block, in their order: each
      phase's meter voltage, then its power from the response. */
  function MeterFields(u1: word, u2: word, u3: word): seq<(string, Cell)>
  {
    [("u1", Given(u1)), ("p1", Reg(0)), ("u2", Given(u2)), ("p2", Reg(1)), ("u3", Given(u3)), ("p3", Reg(2))]
  }

  /** The state of charge for the 843 block. */
  const BmsFields: seq<(string, Cell)> := [("soc", Reg(0))]

  /** What process_msg does to the numeric entries for a response and the
      block it was read from, given the meter voltages; any other block
      changes nothing. */
  function Process(values: map<string, int>, r: seq<word>, start: int, u1: word, u2: word, u3: word): (map<string, int>, Option<Error>)
  {
    if start == MeterStart then Fill(values, MeterFields(u1, u2, u3), r, 6)
    else if start == BmsStart then Fill(values, BmsFields, r, |BmsFields|)
    else (values, None)
  }

  /** The two reads of run and their decoding: the numeric entries afterwards
      and whether both went through. A read that raised is None; the first
      failure abandons the rest. */
  function Exchange(values: map<string, int>, meter: Option<seq<word>>, bms: Option<seq<word>>, u1: word, u2: word, u3: word): (map<string, int>, bool)
  {
    match meter
    case None => (values, false)
    case Some(r1) =>
      var (v1, e1) := Process(values, r1, MeterStart, u1, u2, u3);
      if e1.Some? then (v1, false)
      else
        match bms
        case None => (v1, false)
        case Some(r2) =>
          var (v2, e2) := Process(v1, r2, BmsStart, u1, u2, u3);
          (v2, e2 == None)
  }

  /** The 820 block: it decodes exactly when the response holds the three
      registers, and then each phase has the meter's voltage and its power
      register. A shorter response raises IndexError at the first missing
      power, after the voltage of that phase was already copied. */
  lemma {:induction false} MeterBlock(values: map<string, int>, r: seq<word>, u1: word, u2: word, u3: word)
    ensures var (v, e) := Process(values, r, MeterStart, u1, u2, u3);
      (e == None <==> |r| >= MeterCount) && e in {None, Some(IndexError)}
      && (|r| >= MeterCount ==>
            v == values["u1" := u1]["p1" := r[0]]["u2" := u2]["p2" := r[1]]["u3" := u3]["p3" := r[2]])
      && (|r| == 0 ==> v == values["u1" := u1])
      && (|r| == 1 ==> v == values["u1" := u1]["p1" := r[0]]["u2" := u2])
      && (|r| == 2 ==> v == values["u1" := u1]["p1" := r[0]]["u2" := u2]["p2" := r[1]]["u3" := u3])
  {
    var f := MeterFields(u1, u2, u3);
    var v1 := values["u1" := u1];
    assert Fill(values, f, r, 1) == (v1, None);
    if |r| == 0 {
      FillStops(values, f, r, 1, 6);
    } else {
      var v3 := v1["p1" := r[0]]["u2" := u2];
      assert Fill(values, f, r, 3) == (v3, None);
      if |r| == 1 {
        FillStops(values, f, r, 3, 6);
      } else {
        var v5 := v3["p2" := r[1]]["u3" := u3];
        assert Fill(values, f, r, 5) == (v5, None);
        if |r| == 2 {
          FillStops(values, f, r, 5, 6);
        }
      }
    }
  }

  /** The 843 block: it decodes exactly when the response holds a register,
      which is then the state of charge. */
  lemma {:induction false} BmsBlock(values: map<string, int>, r: seq<word>, u1: word, u2: word, u3: word)
    ensures var (v, e) := Process(values, r, BmsStart, u1, u2, u3);
      (e == None <==> |r| >= BmsCount) && e in {None, Some(IndexError)}
      && (|r| >= BmsCount ==> v == values["soc" := r[0]])
  {
    assert Fill(values, BmsFields, r, 0) == (values, None);
  }

  /** A run goes through exactly when both reads answered with at least the
      registers asked for. */
  lemma {:induction false} ExchangeSucceeds(values: map<string, int>, meter: Option<seq<word>>, bms: Option<seq<word>>, u1: word, u2: word, u3: word)
    ensures Exchange(values, meter, bms, u1, u2, u3).1 <==>
      meter.Some? && |meter.value| >= MeterCount && bms.Some? && |bms.value| >= BmsCount
  {
    if meter.Some? {
      MeterBlock(values, meter.value, u1, u2, u3);
      if bms.Some? {
        BmsBlock(Process(values, meter.value, MeterStart, u1, u2, u3).0, bms.value, u1, u2, u3);
      }
    }
  }

  /** The identity test on the registers themselves: a device is accepted
      exactly when at least six of its registers are nonzero. */
  lemma {:induction false} AcceptsSixRegisters(result: seq<word>)
    ensures |Identity(result)| >= MinIdentity <==> |NonZero(result)| >= 6
  {
    IdentityLength(result);
  }

  class Victron {
    const data: InverterData
    const link: Link

    constructor(data: InverterData, link: Link)
      modifies data`kind
      ensures this.data == data && this.link == link && data.kind == "Victron"
    {
      this.data := data;
      this.link := link;
      new;
      data.kind := "Victron";
    }

    /** process_msg: voltages and powers for the 820 block, the state of
        charge for the 843 block, assigned one after the other. */
    method ProcessMsg(response: seq<word>, start: int, u1: word, u2: word, u3: word) returns (error: Option<Error>)
      modifies data`values
      ensures (data.values, error) == Process(old(data.values), response, start, u1, u2, u3)
    {
      if start == MeterStart {
        error := FillFields(data, MeterFields(u1, u2, u3), response);
      } else if start == BmsStart {
        error := FillFields(data, BmsFields, response);
      } else {
        error := None;
      }
    }

    /** check_msg: a long enough identity is accepted and stored. */
    method CheckMsg(result: seq<word>) returns (accepted: bool)
      modifies data`id
      ensures accepted <==> |Identity(result)| >= MinIdentity
      ensures data.id == if accepted then Some(Identity(result)) else old(data.id)
    {
      var device := BuildIdentity(result);
      accepted := |device| >= MinIdentity;
      if accepted {
        data.id := Some(device);
      }
    }

    /** run: the status is the connection status; with a connection both
        blocks are read and decoded, then the counter settles, marking the
        status 2 and asking for a reconnect once it exceeds the maximum. */
    method Run(meter: Option<seq<word>>, bms: Option<seq<word>>, u1: word, u2: word, u3: word)
      modifies data`status, data`values, data`ip, link`reconnectErrors, link`probes
      ensures !link.connected ==>
        data.status == link.connectionStatus && data.values == old(data.values) && data.ip == old(data.ip)
        && link.reconnectErrors == old(link.reconnectErrors) && link.probes == old(link.probes)
      ensures link.connected ==>
        var (v, ok) := Exchange(old(data.values), meter, bms, u1, u2, u3);
        var retry := Retries(old(link.reconnectErrors), link.maxReconnectErrors, ok);
        data.values == v && link.reconnectErrors == Errors(old(link.reconnectErrors), [ok])
        && link.probes == old(link.probes) + (if retry then [Probe(Slave, DeviceType, ProbeCount)] else [])
        && data.ip == (if ok then Some(link.address) else old(data.ip))
        && data.status == (if retry then 2 else link.connectionStatus)
    {
      data.status := link.connectionStatus;
      if link.connected {
        var ok := false;
        if meter.Some? {
          var e1 := ProcessMsg(meter.value, MeterStart, u1, u2, u3);
          if e1.None? && bms.Some? {
            var e2 := ProcessMsg(bms.value, BmsStart, u1, u2, u3);
            ok := e2.None?;
          }
        }
        link.Settle(data, ok, true, Probe(Slave, DeviceType, ProbeCount));
      }
    }
  }
}
