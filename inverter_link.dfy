/** What the four Modbus-TCP inverter drivers share: the data layer they fill,
    the register cells their process_msg copies into it, the identity string
    their check_msg builds from the device-type registers, the
    case-insensitive signature test, and the reconnect counter of their run.
    The BaseInverter class they extend (main/inverters/base.py) is not part of
    this model; the state it holds appears here as the fields of Link. */
module InverterLink {
  import opened Base
  import opened Text

  // ---------------------------------------------------------------------------
  // The data layer of an inverter

  /** The inverter's data layer: "type", "status", "ip", "id", and the numeric
      entries u1..u3, i1..i3, p1..p3 and soc, held in `values`. */
  class InverterData {
    var kind: string
    var status: int
    var ip: Option<string>
    var id: Option<string>
    var values: map<string, int>

    constructor(kind: string, status: int)
      ensures this.kind == kind && this.status == status
      ensures ip == None && id == None && values == map[]
    {
      this.kind := kind;
      this.status := status;
      ip := None;
      id := None;
      values := map[];
    }
  }

  // ---------------------------------------------------------------------------
  // Register cells

  /** Where one entry of the data layer comes from, by the response offset
      process_msg reads: int(r[o]); (r[o] << 16) | r[o + 1]; int(r[o] / 10);
      int(r[o] * 10 / d); or a value that needs no register (a meter voltage). */
  datatype Cell = Reg(offset: int) | Wide(offset: int) | Tenths(offset: int)
                | Scaled(offset: int, divisor: int) | Given(value: int)

  /** The value of a cell for a response: IndexError when an offset is outside
      the response, ZeroDivisionError for a zero divisor. The divisions are
      true divisions truncated toward zero, taken as exact reals. */
  function CellValue(c: Cell, r: seq<word>): Result<int>
  {
    match c
    case Reg(o) => if 0 <= o < |r| then Ok(r[o]) else Err(IndexError)
    case Wide(o) => if 0 <= o && o + 1 < |r| then Ok(Joined(r[o], r[o + 1])) else Err(IndexError)
    case Tenths(o) => if 0 <= o < |r| then Ok(Trunc(r[o] as real / 10.0)) else Err(IndexError)
    case Scaled(o, d) =>
      if !(0 <= o < |r|) then Err(IndexError)
      else if d == 0 then Err(ZeroDivisionError)
      else Ok(Trunc((r[o] as int * 10) as real / d as real))
    case Given(v) => Ok(v)
  }

  /** Two registers read as one 32-bit value, high word first. */
  function Joined(hi: word, lo: word): (v: int)
    ensures 0 <= v < 0x1_0000_0000 && v / 65536 == hi && v % 65536 == lo
  {
    hi as int * 65536 + lo as int
  }

  /** The shift-and-or of two registers is the sum Wide uses: the low word
      occupies the low sixteen bits. */
  lemma {:induction false} WideShiftOr(hi: bv16, lo: bv16)
    ensures ((hi as bv32) << 16) | (lo as bv32) == (hi as bv32) * 65536 + (lo as bv32)
  {
  }

  /** Tenths of a register: the truncated true division is the Euclidean one
      and never exceeds 6553. */
  lemma {:induction false} TenthsValue(r: seq<word>, o: int)
    requires 0 <= o < |r|
    ensures CellValue(Tenths(o), r) == Ok(r[o] / 10) && r[o] / 10 <= 6553
  {
    var w := r[o];
    TruncQuotient(w, 10);
    assert CellValue(Tenths(o), r) == Ok(Trunc(w as real / 10 as real));
    assert w / 10 <= 6553 by {
      assert w < 65536;
    }
  }

  /** The entries a process_msg writes, in order, until a cell fails: the
      result of the first n assignments and the exception that stopped them. */
  function Fill(values: map<string, int>, fields: seq<(string, Cell)>, r: seq<word>, n: nat): (map<string, int>, Option<Error>)
    requires n <= |fields|
  {
    if n == 0 then (values, None)
    else
      var (v, e) := Fill(values, fields, r, n - 1);
      if e.Some? then (v, e)
      else
        match CellValue(fields[n - 1].1, r)
        case Err(x) => (v, Some(x))
        case Ok(x) => (v[fields[n - 1].0 := x], None)
  }

  /** The keys of the first n fields. */
  function FieldKeys(fields: seq<(string, Cell)>, n: nat): (keys: set<string>)
    requires n <= |fields|
    ensures forall k | 0 <= k < n :: fields[k].0 in keys
  {
    if n == 0 then {} else FieldKeys(fields, n - 1) + {fields[n - 1].0}
  }

  predicate DistinctKeys(fields: seq<(string, Cell)>)
  {
    forall i, j | 0 <= i < j < |fields| :: fields[i].0 != fields[j].0
  }

  /** The assignments run to the end exactly when every cell has a value. */
  lemma {:induction false} FillSucceeds(values: map<string, int>, fields: seq<(string, Cell)>, r: seq<word>, n: nat)
    requires n <= |fields|
    ensures Fill(values, fields, r, n).1 == None <==> forall k | 0 <= k < n :: CellValue(fields[k].1, r).Ok?
  {
    if n > 0 {
      FillSucceeds(values, fields, r, n - 1);
    }
  }

  /** The exception the assignments raise is one some cell raises: when every
      cell has a value or raises x, they raise nothing or x. */
  lemma {:induction false} FillRaises(values: map<string, int>, fields: seq<(string, Cell)>, r: seq<word>, n: nat, x: Error)
    requires n <= |fields|
    requires forall k | 0 <= k < n :: CellValue(fields[k].1, r).Ok? || CellValue(fields[k].1, r) == Err(x)
    ensures Fill(values, fields, r, n).1 in {None, Some(x)}
  {
    if n > 0 {
      FillRaises(values, fields, r, n - 1, x);
    }
  }

  /** When they run to the end, each field holds its cell's value, every other
      entry is kept, and the entries are the old ones and the fields'. */
  lemma {:induction false} FillWrites(values: map<string, int>, fields: seq<(string, Cell)>, r: seq<word>, n: nat)
    requires n <= |fields| && DistinctKeys(fields)
    requires Fill(values, fields, r, n).1 == None
    ensures var v := Fill(values, fields, r, n).0;
      v.Keys == values.Keys + FieldKeys(fields, n)
      && (forall k | 0 <= k < n :: CellValue(fields[k].1, r) == Ok(v[fields[k].0]))
      && (forall key | key in values && key !in FieldKeys(fields, n) :: v[key] == values[key])
  {
    if n > 0 {
      FillWrites(values, fields, r, n - 1);
    }
  }

  /** A failing cell stops the assignments: what the fields before it wrote
      stays, nothing after it is written, and its exception is raised. */
  lemma {:induction false} FillStops(values: map<string, int>, fields: seq<(string, Cell)>, r: seq<word>, j: nat, n: nat)
    requires j < n <= |fields|
    requires CellValue(fields[j].1, r).Err?
    requires forall k | 0 <= k < j :: CellValue(fields[k].1, r).Ok?
    ensures Fill(values, fields, r, n) == (Fill(values, fields, r, j).0, Some(CellValue(fields[j].1, r).error))
  {
    if n == j + 1 {
      FillSucceeds(values, fields, r, j);
    } else {
      FillStops(values, fields, r, j, n - 1);
    }
  }

  /** process_msg's assignments to the data layer, one field after the other;
      an exception leaves the entries written before it. */
  method FillFields(data: InverterData, fields: seq<(string, Cell)>, r: seq<word>) returns (error: Option<Error>)
    modifies data`values
    ensures (data.values, error) == Fill(old(data.values), fields, r, |fields|)
  {
    var k := 0;
    while k < |fields|
      invariant 0 <= k <= |fields|
      invariant Fill(old(data.values), fields, r, k) == (data.values, None)
    {
      var (key, cell) := fields[k];
      match CellValue(cell, r)
      case Err(x) =>
        FillSucceeds(old(data.values), fields, r, k);
        FillStops(old(data.values), fields, r, k, |fields|);
        return Some(x);
      case Ok(x) =>
        data.values := data.values[key := x];
      k := k + 1;
    }
    error := None;
  }

  // ---------------------------------------------------------------------------
  // The identity string of check_msg

  /** The two characters one register gives: chr(w >> 8), chr(w & 0xFF). */
  function WordChars(w: word): string
  {
    [(w / 256) as char, (w % 256) as char]
  }

  /** The shift and the mask of check_msg are the quotient and remainder by 256. */
  lemma {:induction false} WordSplit(w: bv16)
    ensures w >> 8 == w / 256 && w & 0xFF == w % 256
  {
  }

  /** The identity string: the characters of the nonzero registers, in order. */
  function Identity(ws: seq<word>): string
  {
    if ws == [] then ""
    else
      var w := ws[|ws| - 1];
      Identity(ws[..|ws| - 1]) + (if w != 0 then WordChars(w) else "")
  }

  /** The nonzero registers, in order. */
  function NonZero(ws: seq<word>): (nz: seq<word>)
    ensures |nz| <= |ws| && forall k | 0 <= k < |nz| :: nz[k] != 0
  {
    if ws == [] then []
    else
      var w := ws[|ws| - 1];
      NonZero(ws[..|ws| - 1]) + (if w != 0 then [w] else [])
  }

  /** No nonzero register is lost: the kept registers are those of the input
      with every zero removed, each as often as it occurs. */
  lemma {:induction false} NonZeroKeepsEvery(ws: seq<word>)
    ensures multiset(NonZero(ws)) == multiset(ws)[0 := 0]
  {
    if ws != [] {
      var init, w := ws[..|ws| - 1], ws[|ws| - 1];
      NonZeroKeepsEvery(init);
      assert ws == init + [w];
    }
  }

  /** Characters read back two by two as registers, high byte first. */
  function Unpack(s: string): seq<int>
  {
    if |s| < 2 then [] else Unpack(s[..|s| - 2]) + [s[|s| - 2] as int * 256 + s[|s| - 1] as int]
  }

  /** Each nonzero register gives two characters and a zero register none. */
  lemma {:induction false} IdentityLength(ws: seq<word>)
    ensures |Identity(ws)| == 2 * |NonZero(ws)|
  {
    if ws != [] {
      IdentityLength(ws[..|ws| - 1]);
    }
  }

  /** Reading back the two characters of a register gives the register. */
  lemma {:induction false} UnpackChars(t: string, w: word)
    ensures Unpack(t + WordChars(w)) == Unpack(t) + [w]
  {
    var s := t + WordChars(w);
    assert s[..|s| - 2] == t;
    assert s[|s| - 2] as int == w / 256 && s[|s| - 1] as int == w % 256;
  }

  /** Reading the identity back two characters at a time gives the nonzero
      registers: no information is lost but the zero registers. */
  lemma {:induction false} IdentityRoundTrip(ws: seq<word>)
    ensures Unpack(Identity(ws)) == NonZero(ws)
  {
    if ws != [] {
      var init, w := ws[..|ws| - 1], ws[|ws| - 1];
      IdentityRoundTrip(init);
      if w != 0 {
        UnpackChars(Identity(init), w);
      } else {
        assert Identity(ws) == Identity(init) + "" == Identity(init);
        assert NonZero(ws) == NonZero(init) + [] == NonZero(init);
      }
    }
  }

  /** Character i of the identity is the high byte (even i) or the low byte
      (odd i) of nonzero register i / 2. */
  lemma {:induction false} IdentityAt(ws: seq<word>, i: nat)
    requires i < |Identity(ws)|
    ensures |Identity(ws)| == 2 * |NonZero(ws)|
    ensures Identity(ws)[i] as int == if i % 2 == 0 then NonZero(ws)[i / 2] / 256 else NonZero(ws)[i / 2] % 256
  {
    IdentityLength(ws);
    var init, w := ws[..|ws| - 1], ws[|ws| - 1];
    IdentityLength(init);
    if i < |Identity(init)| {
      IdentityAt(init, i);
      assert Identity(ws)[i] == Identity(init)[i];
      assert NonZero(ws)[i / 2] == NonZero(init)[i / 2];
    } else {
      assert w != 0;
      assert NonZero(ws)[i / 2] == w;
    }
  }

  /** The identity string check_msg accumulates in its loop. */
  method BuildIdentity(result: seq<word>) returns (device: string)
    ensures device == Identity(result)
  {
    device := "";
    for i := 0 to |result|
      invariant device == Identity(result[..i])
    {
      assert result[..i + 1][..i] == result[..i];
      if result[i] != 0 {
        device := device + WordChars(result[i]);
      }
    }
    assert result[..|result|] == result;
  }

  // ---------------------------------------------------------------------------
  // The signature test

  /** The lowercased first |sig| characters of the identity compared with the
      signature; an identity too short to index raises IndexError. */
  function LowerPrefixIs(device: string, sig: string): Result<bool>
  {
    if |device| < |sig| then Err(IndexError)
    else Ok(forall k | 0 <= k < |sig| :: LowerAscii(device[k]) == sig[k])
  }

  /** A character lowercases to a lowercase letter exactly when it is that
      letter or its capital. */
  lemma {:induction false} LowersTo(c: char, l: char)
    requires 'a' <= l <= 'z'
    ensures LowerAscii(c) == l <==> c == l || c as int == l as int - 32
  {
  }

  // ---------------------------------------------------------------------------
  // The reconnect counter of run

  /** A reconnect request: the Modbus slave, the starting register and the
      number of registers try_reconnect probes. */
  datatype Probe = Probe(slave: int, start: int, count: nat)

  /** The connection state BaseInverter keeps for a driver. */
  class Link {
    var connected: bool              // modbus_tcp is not None
    var connectionStatus: int
    var reconnectErrors: nat
    const maxReconnectErrors: nat
    const address: string            // set_ip_address
    var probes: seq<Probe>           // try_reconnect requests, oldest first

    constructor(connectionStatus: int, maxReconnectErrors: nat, address: string)
      ensures !connected && this.connectionStatus == connectionStatus && reconnectErrors == 0
      ensures this.maxReconnectErrors == maxReconnectErrors && this.address == address && probes == []
    {
      connected := false;
      this.connectionStatus := connectionStatus;
      reconnectErrors := 0;
      this.maxReconnectErrors := maxReconnectErrors;
      this.address := address;
      probes := [];
    }

    /** The end of run's try block. Both reads succeeded: the counter is reset
        and the address recorded. Otherwise the counter grows and, once it
        exceeds the maximum, the status is marked 2 (when the driver does so)
        and a reconnect is requested. */
    method Settle(data: InverterData, ok: bool, marks: bool, probe: Probe)
      modifies this`reconnectErrors, this`probes, data`ip, data`status
      ensures reconnectErrors == Errors(old(reconnectErrors), [ok])
      ensures probes == old(probes) + if Retries(old(reconnectErrors), maxReconnectErrors, ok) then [probe] else []
      ensures data.ip == if ok then Some(address) else old(data.ip)
      ensures data.status == if marks && Retries(old(reconnectErrors), maxReconnectErrors, ok) then 2 else old(data.status)
    {
      if ok {
        reconnectErrors := 0;
        data.ip := Some(address);
      } else {
        reconnectErrors := reconnectErrors + 1;
        if reconnectErrors > maxReconnectErrors {
          if marks {
            data.status := 2;
          }
          probes := probes + [probe];
        }
      }
    }
  }

  /** Whether a run with this outcome requests a reconnect. */
  predicate Retries(count: nat, max: nat, ok: bool)
  {
    !ok && count + 1 > max
  }

  /** The counter after runs with these outcomes (true: both reads succeeded). */
  function Errors(count: nat, outcomes: seq<bool>): nat
  {
    if outcomes == [] then count
    else if outcomes[|outcomes| - 1] then 0
    else Errors(count, outcomes[..|outcomes| - 1]) + 1
  }

  /** The reconnect requests these runs make. */
  function Requests(count: nat, max: nat, outcomes: seq<bool>): nat
  {
    if outcomes == [] then 0
    else
      var init := outcomes[..|outcomes| - 1];
      Requests(count, max, init) + if Retries(Errors(count, init), max, outcomes[|outcomes| - 1]) then 1 else 0
  }

  /** The failures after the last success. */
  function TrailingFailures(outcomes: seq<bool>): nat
  {
    if outcomes == [] || outcomes[|outcomes| - 1] then 0 else TrailingFailures(outcomes[..|outcomes| - 1]) + 1
  }

  /** The counter counts the failures since the last success, or since the
      start when no run succeeded. */
  lemma {:induction false} ErrorsSinceSuccess(count: nat, outcomes: seq<bool>)
    ensures Errors(count, outcomes) == if true in outcomes then TrailingFailures(outcomes) else count + |outcomes|
  {
    if outcomes != [] {
      var init := outcomes[..|outcomes| - 1];
      ErrorsSinceSuccess(count, init);
      assert outcomes == init + [outcomes[|outcomes| - 1]];
      assert true in outcomes <==> true in init || outcomes[|outcomes| - 1];
    }
  }

  /** A reconnect request does not reset the counter: after k failures in a
      row from a clear counter, every failure beyond the maximum asks again. */
  lemma {:induction false} FailuresRetry(max: nat, k: nat)
    ensures Errors(0, seq(k, i => false)) == k
    ensures Requests(0, max, seq(k, i => false)) == Max(0, k - max)
  {
    if k > 0 {
      FailuresRetry(max, k - 1);
      assert seq(k, i => false)[..k - 1] == seq(k - 1, i => false);
    }
  }
}
