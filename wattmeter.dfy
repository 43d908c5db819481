/** The wattmeter: decoding of the meter's 22-register response into the
    data layer, the rolling five-sample power window, the minute and hour
    histories and the daily ledger written when the day changes. The serial
    response is an input (None when the read raised), the clock is a record
    of numbers, and the meter-reset register writes are recorded as events. */
module Wattmeter {
  import opened Base
  import opened Text
  import Ledger
  import Regulation

  /** The register the router reads and the number of bytes decoded from it (22 words). */
  const MeterRegister: int := 6002
  const ResponseBytes: nat := 44

  /** Bounds of the histories: the power window, the minute history and the hour history. */
  const WindowSize: nat := 5
  const MinuteSlots: nat := 61
  const HourSlots: nat := 97

  /** The registers written with [1] to reset the meter's minute, hour and day counters. */
  const MinuteReset: int := 100
  const HourReset: int := 101
  const DayReset: int := 102

  // ---------------------------------------------------------------------------
  // Decoding of the response

  /** A big-endian 16-bit word: (hi << 8) | lo. The two bytes occupy disjoint
      bits, so the or is an addition. */
  function Word(hi: byte, lo: byte): word
  {
    hi * 256 + lo
  }

  /** The two bytes come back out of the word: the high byte as its quotient
      by 256, the low byte as the remainder. */
  lemma {:induction false} WordBytes(hi: byte, lo: byte)
    ensures Word(hi, lo) / 256 == hi && Word(hi, lo) % 256 == lo
  {
    var w := Word(hi, lo);
    assert w == hi * 256 + lo && 0 <= lo < 256;
  }

  /** The word at byte offset k. */
  function WordAt(b: seq<byte>, k: nat): word
    requires k + 1 < |b|
  {
    Word(b[k], b[k + 1])
  }

  /** A 32-bit counter at byte offset k: the word at k + 2 is the high half and
      the word at k the low half. */
  function CounterAt(b: seq<byte>, k: nat): (c: int)
    requires k + 3 < |b|
    ensures 0 <= c < 0x1_0000_0000
  {
    WordAt(b, k + 2) as int * 65536 + WordAt(b, k)
  }

  /** The HDO (low-tariff) flag: the raw input is active when it equals the
      configured active level, given as the string "1" or "0". */
  function Hdo(raw: word, activeHigh: string): (h: int)
    ensures h == 0 || h == 1
  {
    if raw == 1 && "1" == activeHigh then 1
    else if raw == 0 && "0" == activeHigh then 1
    else 0
  }

  /** The data layer's values decoded from one response. */
  datatype Readings = Readings(
    hdo: int, i1: int, u1: int, p1: int,
    e1PMin: int, e1NMin: int, e1PHour: int, e1NHour: int, e1PDay: int, e1NDay: int,
    e1P: int, e1N: int,
    iTuv: int, pTuv: int, eTuvMin: int, eTuvHour: int, eTuvDay: int, pRegulation: int, eTuv: int)

  /** The defaults of a fresh data layer. */
  const NoReadings: Readings := Readings(0, 0, 0, 0, 0, 0, 0, 0, 0, 0, 0, 0, 0, 0, 0, 0, 0, 0, 0)

  /** The response read as big-endian registers: bytes 2k and 2k + 1 form
      register k; an odd trailing byte belongs to no register. */
  function Registers(b: seq<byte>): (ws: seq<word>)
    ensures |ws| == |b| / 2
    decreases |b|
  {
    if |b| < 2 then [] else [Word(b[0], b[1])] + Registers(b[2..])
  }

  /** A 32-bit counter held in registers k and k + 1, the one at k + 1 being
      the high half. */
  function Counter(ws: seq<word>, k: nat): (c: int)
    requires k + 1 < |ws|
    ensures 0 <= c < 0x1_0000_0000
  {
    ws[k + 1] as int * 65536 + ws[k]
  }

  /** The fields decoded from the 22 registers of a response; p1 is the mean
      of the power window, which the decoding updates first. */
  function Decode(ws: seq<word>, activeHigh: string, p1: int): Readings
    requires |ws| >= ResponseBytes / 2
  {
    Readings(
      Hdo(ws[0], activeHigh), ws[1], ws[3], p1,
      ws[4], ws[5], ws[6], ws[7], ws[8], ws[9],
      Counter(ws, 10), Counter(ws, 12),
      ws[14], ws[15], ws[16], ws[17], ws[18], ws[19],
      Counter(ws, 20))
  }

  /** The day counters are unsigned, as every decoded word is. */
  predicate DayCounters(r: Readings)
  {
    r.e1PDay >= 0 && r.e1NDay >= 0 && r.eTuvDay >= 0
  }

  /** A response is decoded only when the read succeeded, it holds 44 bytes and
      the register read was 6002. */
  predicate Decodable(response: Option<seq<byte>>, reg: int)
  {
    response.Some? && |response.value| >= ResponseBytes && reg == MeterRegister
  }

  /** The bytes of a big-endian register block, as the meter sends it. */
  function Frame(ws: seq<word>): (b: seq<byte>)
    ensures |b| == 2 * |ws|
  {
    if ws == [] then [] else [ws[0] / 256, ws[0] % 256] + Frame(ws[1..])
  }

  /** Register k is the word the router code assembles from bytes 2k and 2k + 1. */
  lemma {:induction false} RegisterAt(b: seq<byte>, k: nat)
    requires 2 * k + 1 < |b|
    ensures Registers(b)[k] == WordAt(b, 2 * k)
    decreases k
  {
    if k > 0 {
      RegisterAt(b[2..], k - 1);
      assert b[2..][2 * (k - 1)] == b[2 * k] && b[2..][2 * (k - 1) + 1] == b[2 * k + 1];
    }
  }

  /** Reading back the bytes of a register block gives the registers. */
  lemma {:induction false} RegistersOfFrame(ws: seq<word>)
    ensures Registers(Frame(ws)) == ws
  {
    if ws != [] {
      var b := Frame(ws);
      RegistersOfFrame(ws[1..]);
      assert b[2..] == Frame(ws[1..]);
      assert Word(b[0], b[1]) == ws[0];
    }
  }

  /** Each field of a response of at least 44 bytes is the big-endian word at
      its byte offset, and each 32-bit counter has the word two bytes after
      its offset as the high half. */
  lemma {:induction false} DecodeBytes(b: seq<byte>, activeHigh: string, p1: int)
    requires |b| >= ResponseBytes
    ensures var r := Decode(Registers(b), activeHigh, p1);
      r.hdo == Hdo(WordAt(b, 0), activeHigh) && r.i1 == WordAt(b, 2) && r.u1 == WordAt(b, 6) && r.p1 == p1
      && r.e1PMin == WordAt(b, 8) && r.e1NMin == WordAt(b, 10) && r.e1PHour == WordAt(b, 12)
      && r.e1NHour == WordAt(b, 14) && r.e1PDay == WordAt(b, 16) && r.e1NDay == WordAt(b, 18)
      && r.e1P == CounterAt(b, 20) && r.e1N == CounterAt(b, 24)
      && r.iTuv == WordAt(b, 28) && r.pTuv == WordAt(b, 30) && r.eTuvMin == WordAt(b, 32)
      && r.eTuvHour == WordAt(b, 34) && r.eTuvDay == WordAt(b, 36) && r.pRegulation == WordAt(b, 38)
      && r.eTuv == CounterAt(b, 40)
  {
    forall k | 0 <= k < ResponseBytes / 2 ensures Registers(b)[k] == WordAt(b, 2 * k) {
      RegisterAt(b, k);
    }
    var ws := Registers(b);
    assert ws[0] == WordAt(b, 0) && ws[1] == WordAt(b, 2) && ws[3] == WordAt(b, 6);
    assert ws[4] == WordAt(b, 8) && ws[5] == WordAt(b, 10) && ws[6] == WordAt(b, 12);
    assert ws[7] == WordAt(b, 14) && ws[8] == WordAt(b, 16) && ws[9] == WordAt(b, 18);
    assert ws[10] == WordAt(b, 20) && ws[11] == WordAt(b, 22) && ws[12] == WordAt(b, 24) && ws[13] == WordAt(b, 26);
    assert ws[14] == WordAt(b, 28) && ws[15] == WordAt(b, 30) && ws[16] == WordAt(b, 32);
    assert ws[17] == WordAt(b, 34) && ws[18] == WordAt(b, 36) && ws[19] == WordAt(b, 38);
    assert ws[20] == WordAt(b, 40) && ws[21] == WordAt(b, 42);
  }

  /** The shift-and-or of the router code on two bytes is the sum Word uses. */
  lemma {:induction false} WordShiftOr(hi: bv8, lo: bv8)
    ensures ((hi as bv16) << 8) | (lo as bv16) == (hi as bv16) * 256 + (lo as bv16)
  {
  }

  /** The shift-and-or on the four bytes of a counter is the sum CounterAt uses. */
  lemma {:induction false} CounterShiftOr(b0: bv8, b1: bv8, b2: bv8, b3: bv8)
    ensures ((b2 as bv32) << 24) | ((b3 as bv32) << 16) | ((b0 as bv32) << 8) | (b1 as bv32)
      == ((b2 as bv32) * 256 + (b3 as bv32)) * 65536 + (b0 as bv32) * 256 + (b1 as bv32)
  {
  }

  /** HDO follows the configured active level: with "1" the flag is the raw
      input being 1, with "0" the raw input being 0, and any other setting
      never raises it. */
  lemma {:induction false} HdoLevels(raw: word, activeHigh: string)
    ensures activeHigh == "1" ==> (Hdo(raw, activeHigh) == 1 <==> raw == 1)
    ensures activeHigh == "0" ==> (Hdo(raw, activeHigh) == 1 <==> raw == 0)
    ensures activeHigh != "1" && activeHigh != "0" ==> Hdo(raw, activeHigh) == 0
    ensures raw > 1 ==> Hdo(raw, activeHigh) == 0
  {
  }

  // ---------------------------------------------------------------------------
  // The power window

  /** Append the new sample, then drop the oldest once more than five are held. */
  function PushWindow(window: seq<word>, sample: word): (r: seq<word>)
    ensures r != [] && r[|r| - 1] == sample
  {
    var w := window + [sample];
    if |w| > WindowSize then w[1..] else w
  }

  /** The sum of the sign-corrected samples. */
  function SignedSum(s: seq<word>): int
  {
    if s == [] then 0 else SignedSum(s[..|s| - 1]) + SignCorrect(s[|s| - 1])
  }

  /** P1: the mean of the sign-corrected samples, truncated toward zero. */
  function Mean(s: seq<word>): int
    requires s != []
  {
    TruncDiv(SignedSum(s), |s|)
  }

  /** The window never exceeds five samples: the new sample is appended and,
      when five were already held, the oldest goes. */
  lemma {:induction false} WindowStaysSmall(window: seq<word>, sample: word)
    requires |window| <= WindowSize
    ensures |PushWindow(window, sample)| <= WindowSize
    ensures |window| < WindowSize ==> PushWindow(window, sample) == window + [sample]
    ensures |window| == WindowSize ==> PushWindow(window, sample) == window[1..] + [sample]
  {
  }

  lemma {:induction false} SignedSumBounds(s: seq<word>)
    ensures -32768 * |s| <= SignedSum(s) <= 32767 * |s|
    decreases |s|
  {
    if s != [] {
      SignedSumBounds(s[..|s| - 1]);
    }
  }

  /** The mean power of a window is a signed 16-bit value. */
  lemma {:induction false} MeanInRange(s: seq<word>)
    requires s != []
    ensures -32768 <= Mean(s) <= 32767
  {
    SignedSumBounds(s);
    var n := |s|;
    var q := Mean(s);
    var sum := SignedSum(s);
    if sum >= 0 {
      CancelFactor(q, 32767, n);
    } else {
      CancelFactor(-32768, q, n);
    }
  }

  // ---------------------------------------------------------------------------
  // Minute and hour histories

  /** A history list with its slot 0 set to the list's length. */
  function WithHeader(h: seq<int>): (r: seq<int>)
    requires h != []
    ensures |r| == |h| && r[0] == |r| && r[1..] == h[1..]
  {
    h[0 := |h|]
  }

  /** The minute update: the sample is appended (the front dropped first when
      61 are held) and slot 0 set to the length. */
  function MinutePush(pm: seq<int>, sample: int): seq<int>
  {
    WithHeader(if |pm| < MinuteSlots then pm + [sample] else pm[1..] + [sample])
  }

  /** After a minute update the history holds at most 61 slots, slot 0 is its
      length and the last slot the new sample; the samples after slot 0 are
      the earlier ones plus the new one, the oldest gone when it was full. */
  lemma {:induction false} MinuteHistory(pm: seq<int>, sample: int)
    requires 1 <= |pm| <= MinuteSlots
    ensures var r := MinutePush(pm, sample);
      2 <= |r| <= MinuteSlots && r[0] == |r| && r[|r| - 1] == sample
      && (|pm| < MinuteSlots ==> r[1..] == pm[1..] + [sample])
      && (|pm| == MinuteSlots ==> r[1..] == pm[2..] + [sample])
  {
    var r := MinutePush(pm, sample);
    if |pm| < MinuteSlots {
      assert r[1..] == (pm + [sample])[1..] == pm[1..] + [sample];
    } else {
      assert r[1..] == (pm[1..] + [sample])[1..] == pm[2..] + [sample];
    }
  }

  /** The record appended on a new hour. */
  function HourRecord(hour: int, e1PHour: int, eTuvHour: int, hdo: int): seq<int>
  {
    [hour, e1PHour, eTuvHour, hdo]
  }

  /** The hour update: the record is appended (the front four dropped first
      when 97 slots are held) and slot 0 set to the length. */
  function HourPush(es: seq<int>, rec: seq<int>): seq<int>
    requires |rec| == 4
  {
    WithHeader(if |es| < HourSlots then es + rec else es[4..] + rec)
  }

  /** After an hour update the history holds at most 97 slots, one header and
      whole four-slot records, slot 0 is its length and the last four slots are
      the new record. */
  lemma {:induction false} HourHistory(es: seq<int>, rec: seq<int>)
    requires |rec| == 4 && 1 <= |es| <= HourSlots && |es| % 4 == 1
    ensures var r := HourPush(es, rec);
      5 <= |r| <= HourSlots && |r| % 4 == 1 && r[0] == |r| && r[|r| - 4..] == rec
      && (|es| < HourSlots ==> r[1..] == es[1..] + rec)
      && (|es| == HourSlots ==> r[1..] == es[5..] + rec)
  {
    var r := HourPush(es, rec);
    if |es| < HourSlots {
      assert r[1..] == (es + rec)[1..] == es[1..] + rec;
      assert r[|r| - 4..] == (es + rec)[|es|..] == rec;
    } else {
      assert r[1..] == (es[4..] + rec)[1..] == es[5..] + rec;
      assert r[|r| - 4..] == (es[4..] + rec)[|es| - 4..] == rec;
    }
  }

  /** Python's item assignment s[i] = v, negative indices counting from the end. */
  function SetItem(s: seq<int>, i: int, v: int): (r: Result<seq<int>>)
    ensures r.Ok? <==> -|s| <= i < |s|
    ensures r.Ok? ==> |r.value| == |s|
  {
    if 0 <= i < |s| then Ok(s[i := v])
    else if -|s| <= i < 0 then Ok(s[|s| + i := v])
    else Err(IndexError)
  }

  /** The same-hour update: the last three slots (slots 94 to 96 once the
      history is full) take the hour's energies and the HDO flag. */
  function HourOverwrite(es: seq<int>, e1PHour: int, eTuvHour: int, hdo: int): Result<seq<int>>
  {
    var n := |es|;
    var i, j, k := if n < HourSlots then n - 3 else 94, if n < HourSlots then n - 2 else 95,
                   if n < HourSlots then n - 1 else 96;
    match SetItem(es, i, e1PHour)
    case Err(e) => Err(e)
    case Ok(a) =>
      match SetItem(a, j, eTuvHour)
      case Err(e) => Err(e)
      case Ok(c) => SetItem(c, k, hdo)
  }

  /** Within the same hour only the last record changes, in its last three slots. */
  lemma {:induction false} SameHourOverwrites(es: seq<int>, e1PHour: int, eTuvHour: int, hdo: int)
    requires 5 <= |es| <= HourSlots && |es| % 4 == 1
    ensures HourOverwrite(es, e1PHour, eTuvHour, hdo) == Ok(es[..|es| - 3] + [e1PHour, eTuvHour, hdo])
  {
    var n := |es|;
    var a := es[n - 3 := e1PHour];
    var c := a[n - 2 := eTuvHour];
    var d := c[n - 1 := hdo];
    assert d == es[..n - 3] + [e1PHour, eTuvHour, hdo];
  }

  /** With only the header present (the router's first hour being hour 0,
      which the initial last hour already holds), the overwrite raises IndexError. */
  lemma {:induction false} SameHourWithoutRecord(es: seq<int>, e1PHour: int, eTuvHour: int, hdo: int)
    requires |es| == 1
    ensures HourOverwrite(es, e1PHour, eTuvHour, hdo) == Err(IndexError)
  {
  }

  /** The shape of the minute history: at most 61 slots, slot 0 its length
      once a sample is held. */
  predicate MinuteShape(pm: seq<int>)
  {
    1 <= |pm| <= MinuteSlots && (|pm| == 1 || pm[0] == |pm|)
  }

  /** The shape of the hour history: a header and whole four-slot records, at
      most 97 slots, slot 0 its length once a record is held. */
  predicate HourShape(es: seq<int>)
  {
    1 <= |es| <= HourSlots && |es| % 4 == 1 && (|es| == 1 || es[0] == |es|)
  }

  lemma {:induction false} MinuteKeepsShape(pm: seq<int>, sample: int)
    requires MinuteShape(pm)
    ensures MinuteShape(MinutePush(pm, sample))
  {
    MinuteHistory(pm, sample);
  }

  lemma {:induction false} HourKeepsShape(es: seq<int>, rec: seq<int>)
    requires |rec| == 4 && HourShape(es)
    ensures HourShape(HourPush(es, rec))
  {
    HourHistory(es, rec);
  }

  /** The same-hour update keeps the shape, or raises on the bare header. */
  lemma {:induction false} OverwriteKeepsShape(es: seq<int>, e1PHour: int, eTuvHour: int, hdo: int)
    requires HourShape(es)
    ensures match HourOverwrite(es, e1PHour, eTuvHour, hdo)
      case Ok(v) => HourShape(v)
      case Err(e) => e == IndexError && |es| == 1
  {
    if |es| == 1 {
      SameHourWithoutRecord(es, e1PHour, eTuvHour, hdo);
    } else {
      SameHourOverwrites(es, e1PHour, eTuvHour, hdo);
      var v := es[..|es| - 3] + [e1PHour, eTuvHour, hdo];
      assert v[0] == es[0];
    }
  }

  // ---------------------------------------------------------------------------
  // The clock and the time stamp

  /** time.localtime() and time.time() at one call of the handler. */
  datatype Clock = Clock(year: nat, month: nat, day: nat, hour: nat, minute: nat, second: nat, now: int)

  /** WATTMETER_TIME: "DD.MM.YY  HH:MM:SS", the year reduced to its last two digits. */
  function Timestamp(c: Clock): string
  {
    Render([Pad(c.day), Lit("."), Pad(c.month), Lit("."), Str(LastTwo(NatToString(c.year))), Lit("  "),
            Pad(c.hour), Lit(":"), Pad(c.minute), Lit(":"), Pad(c.second)])
  }

  // ---------------------------------------------------------------------------
  // The bookkeeping of the handler, as values

  /** What the minute, hour and day blocks of the handler read and write: the
      two histories, the ledger file and its two views, the meter resets
      issued so far and the last minute, hour and date seen. */
  datatype History = History(
    pm: seq<int>, es: seq<int>, ledger: Option<string>, daily: seq<string>, monthly: seq<string>,
    resets: seq<int>, lastMinute: nat, lastHour: nat, lastDay: nat, lastMonth: nat, lastYear: nat)

  /** The bounds the handler keeps on its histories and views. */
  predicate Shaped(h: History)
  {
    MinuteShape(h.pm) && HourShape(h.es) && |h.daily| <= Ledger.TailLength && |h.monthly| <= Ledger.MaxMonths
  }

  /** The start-up block, once the clock is set: take the minute and the date
      and load both views of the ledger. */
  function StartBlock(h: History, c: Clock): History
  {
    h.(lastMinute := c.minute, lastDay := c.day, lastMonth := c.month, lastYear := c.year,
       daily := Ledger.LedgerTail(h.ledger), monthly := Ledger.MonthlyEnergy(h.ledger))
  }

  /** The minute block: push six times the minute's net energy, reset the
      meter's minute counter, remember the minute. */
  function MinuteBlock(h: History, c: Clock, r: Readings): History
  {
    h.(pm := MinutePush(h.pm, (r.e1PMin - r.e1NMin) * 6), resets := h.resets + [MinuteReset], lastMinute := c.minute)
  }

  /** The hour block: on a new hour reset the meter's hour counter and push a
      record; within the hour overwrite the open record, which raises
      IndexError when there is none. */
  function HourBlock(h: History, c: Clock, r: Readings): (res: Result<History>)
    ensures res.Err? ==> res.error == IndexError && h.lastHour == c.hour
  {
    if h.lastHour != c.hour then
      Ok(h.(resets := h.resets + [HourReset], lastHour := c.hour,
            es := HourPush(h.es, HourRecord(c.hour, r.e1PHour, r.eTuvHour, r.hdo))))
    else
      match HourOverwrite(h.es, r.e1PHour, r.eTuvHour, r.hdo)
      case Err(e) => Err(e)
      case Ok(es) => Ok(h.(es := es))
  }

  /** The day block: the closed day's line, keyed by the last date seen, is
      appended to the ledger, the meter's day counter reset, the new date
      taken and both views reloaded from the ledger. */
  function DayBlock(h: History, c: Clock, r: Readings): History
    requires DayCounters(r)
  {
    var ledger := Some(Ledger.Contents(h.ledger)
      + Ledger.LedgerLine(h.lastMonth, h.lastDay, h.lastYear, r.e1PDay, r.e1NDay, r.eTuvDay));
    h.(resets := h.resets + [DayReset], lastYear := c.year, lastMonth := c.month, lastDay := c.day,
       ledger := ledger, daily := Ledger.LedgerTail(ledger), monthly := Ledger.MonthlyEnergy(ledger))
  }

  /** The three blocks after a successful control step, each only once the
      clock is set: the minute block when the minute changed, the hour block,
      and the day block when the day changed and the start-up block ran. An
      IndexError of the hour block escapes and skips the day block. */
  function Bookkeeping(h: History, c: Clock, r: Readings, timeInit: bool, timeOffset: bool): (History, Option<Error>)
    requires DayCounters(r)
  {
    var h1 := if h.lastMinute != c.minute && timeInit then MinuteBlock(h, c, r) else h;
    if !timeInit then (h1, None)
    else
      match HourBlock(h1, c, r)
      case Err(e) => (h1, Some(e))
      case Ok(h2) => (if h2.lastDay != c.day && timeOffset then DayBlock(h2, c, r) else h2, None)
  }

  lemma {:induction false} StartKeepsShape(h: History, c: Clock)
    requires Shaped(h)
    ensures Shaped(StartBlock(h, c))
  {
    Ledger.MonthlyEnergyBounded(h.ledger);
  }

  /** Every block keeps the bounds: at most 61 minute slots and 97 hour slots
      with their headers, 31 ledger lines and 36 monthly summaries. */
  lemma {:induction false} BookkeepingKeepsShape(h: History, c: Clock, r: Readings, timeInit: bool, timeOffset: bool)
    requires Shaped(h) && DayCounters(r)
    ensures Shaped(Bookkeeping(h, c, r, timeInit, timeOffset).0)
  {
    MinuteKeepsShape(h.pm, (r.e1PMin - r.e1NMin) * 6);
    var h1 := if h.lastMinute != c.minute && timeInit then MinuteBlock(h, c, r) else h;
    assert Shaped(h1);
    HourKeepsShape(h1.es, HourRecord(c.hour, r.e1PHour, r.eTuvHour, r.hdo));
    OverwriteKeepsShape(h1.es, r.e1PHour, r.eTuvHour, r.hdo);
    match HourBlock(h1, c, r)
    case Err(e) =>
    case Ok(h2) =>
      assert Shaped(h2);
      var ledger := Some(Ledger.Contents(h2.ledger)
        + Ledger.LedgerLine(h2.lastMonth, h2.lastDay, h2.lastYear, r.e1PDay, r.e1NDay, r.eTuvDay));
      Ledger.MonthlyEnergyBounded(ledger);
  }

  /** The only exception the bookkeeping raises is the hour block's
      IndexError, and then no day is closed. */
  lemma {:induction false} BookkeepingRaises(h: History, c: Clock, r: Readings, timeInit: bool, timeOffset: bool)
    requires DayCounters(r)
    ensures var (h', raised) := Bookkeeping(h, c, r, timeInit, timeOffset);
      raised.Some? ==> raised.value == IndexError && timeInit && h.lastHour == c.hour && h'.ledger == h.ledger
  {
  }

  /** The meter resets of one call, in the order the blocks issue them: 100
      for a new minute, 101 for a new hour, 102 for a new day. */
  lemma {:induction false} BookkeepingResets(h: History, c: Clock, r: Readings, timeInit: bool, timeOffset: bool)
    requires DayCounters(r)
    ensures var (h', raised) := Bookkeeping(h, c, r, timeInit, timeOffset);
      h'.resets == h.resets
        + (if timeInit && h.lastMinute != c.minute then [MinuteReset] else [])
        + (if timeInit && h.lastHour != c.hour then [HourReset] else [])
        + (if timeInit && raised.None? && h.lastDay != c.day && timeOffset then [DayReset] else [])
  {
    var m := if timeInit && h.lastMinute != c.minute then [MinuteReset] else [];
    var h1 := if h.lastMinute != c.minute && timeInit then MinuteBlock(h, c, r) else h;
    assert h1.resets == h.resets + m;
    if timeInit {
      match HourBlock(h1, c, r)
      case Err(e) =>
      case Ok(h2) =>
        var hr := if h.lastHour != c.hour then [HourReset] else [];
        assert h2.resets == h.resets + m + hr;
        if h2.lastDay != c.day && timeOffset {
          assert DayBlock(h2, c, r).resets == h.resets + m + hr + [DayReset];
        } else {
          assert h2.resets == h.resets + m + hr + [];
        }
    } else {
      assert h1.resets == h.resets + [] + [] + [];
    }
  }

  /** A day change writes exactly one ledger line, keyed by the last date
      seen, and the daily view then ends with it (without its newline). */
  lemma {:induction false} DayChangeWritesOneLine(h: History, c: Clock, r: Readings)
    requires DayCounters(r) && EndsLine(Ledger.Contents(h.ledger))
    ensures var h' := DayBlock(h, c, r);
      var line := Ledger.LedgerLine(h.lastMonth, h.lastDay, h.lastYear, r.e1PDay, r.e1NDay, r.eTuvDay);
      Lines(Ledger.Contents(h'.ledger)) == Lines(Ledger.Contents(h.ledger)) + [line]
      && h'.daily != [] && h'.daily[|h'.daily| - 1] == line[..|line| - 1]
      && EndsLine(Ledger.Contents(h'.ledger))
  {
    var c0 := Ledger.Contents(h.ledger);
    var line := Ledger.LedgerLine(h.lastMonth, h.lastDay, h.lastYear, r.e1PDay, r.e1NDay, r.eTuvDay);
    Ledger.LedgerLineAppended(c0, h.lastMonth, h.lastDay, h.lastYear, r.e1PDay, r.e1NDay, r.eTuvDay);
    var t := Ledger.LedgerTail(Some(c0 + line));
    assert Lines(c0 + line) == Lines(c0) + [line] && EndsLine(c0 + line) && t != [] && t[|t| - 1] == line[..|line| - 1];
    var h' := DayBlock(h, c, r);
    assert h'.ledger == Some(c0 + line) && h'.daily == t;
  }

  // ---------------------------------------------------------------------------
  // The data layer and the wattmeter

  /** The file side of the day block: write the day's line to the ledger,
      then read the tail and the monthly summaries back from the new file. */
  method WriteDay(file: Option<string>, month: nat, day: nat, year: nat, r: Readings)
    returns (written: Option<string>, daily: seq<string>, monthly: seq<string>)
    requires DayCounters(r)
    ensures written == Some(Ledger.Contents(file) + Ledger.LedgerLine(month, day, year, r.e1PDay, r.e1NDay, r.eTuvDay))
    ensures daily == Ledger.LedgerTail(written) && monthly == Ledger.MonthlyEnergy(written)
  {
    var entry := [(Ledger.LedgerKey(month, day, year), [r.e1PDay, r.e1NDay, r.eTuvDay])];
    Ledger.DayEntryWritten(month, day, year, r.e1PDay, r.e1NDay, r.eTuvDay);
    written := Ledger.WriteData(file, entry);
    daily := Ledger.ReadData(written);
    monthly := Ledger.GetMonthlyEnergy(written);
  }

  /** The shared map of measured values the web interface and the regulation read. */
  class DataLayer {
    var readings: Readings
    var pm: seq<int>                 // "Pm": minute power history, slot 0 its length
    var es: seq<int>                 // "Es": hour energy history, slot 0 its length
    var daily: seq<string>           // "D": the last ledger lines
    var monthly: seq<string>         // "M": the monthly summaries
    var runTime: int                 // "RUN_TIME"
    var wattmeterTime: Option<string>  // "WATTMETER_TIME", None while it holds its initial 0
    var id: Option<string>           // "ID", None while it holds its initial 0

    constructor()
      ensures readings == NoReadings && pm == [0] && es == [0] && daily == [] && monthly == []
      ensures runTime == 0 && wattmeterTime == None && id == None
    {
      readings := NoReadings;
      pm := [0];
      es := [0];
      daily := [];
      monthly := [];
      runTime := 0;
      wattmeterTime := None;
      id := None;
    }
  }

  class Wattmeter {
    const dataLayer: DataLayer
    const regulation: Regulation.Regulation
    var timeInit: bool               // set once the clock was synchronised
    var timeOffset: bool             // set once the start-up values were taken
    var lastMinute: nat
    var lastHour: nat
    var lastDay: nat
    var lastMonth: nat
    var lastYear: nat
    var averagePower: seq<word>
    var startUpTime: int
    var ledger: Option<string>       // contents of daily_consumption.dat, None while absent
    var resets: seq<int>             // registers written with [1], oldest first

    /** The bookkeeping state held in this object and its data layer. */
    function Recorded(): History
      reads this, dataLayer
    {
      History(dataLayer.pm, dataLayer.es, ledger, dataLayer.daily, dataLayer.monthly,
              resets, lastMinute, lastHour, lastDay, lastMonth, lastYear)
    }

    /** The bounds every handler call keeps. */
    predicate Valid()
      reads this, dataLayer
    {
      Shaped(Recorded()) && |averagePower| <= WindowSize && DayCounters(dataLayer.readings)
    }

    constructor(id: string, ledger: Option<string>)
      ensures Valid() && fresh(dataLayer) && fresh(regulation)
      ensures Recorded() == History([0], [0], ledger, [], [], [], 0, 0, 0, 0, 0)
      ensures dataLayer.readings == NoReadings && dataLayer.id == Some(id)
      ensures !timeInit && !timeOffset && averagePower == [] && startUpTime == 0
    {
      dataLayer := new DataLayer();
      regulation := new Regulation.Regulation();
      timeInit := false;
      timeOffset := false;
      lastMinute := 0;
      lastHour := 0;
      lastDay := 0;
      lastMonth := 0;
      lastYear := 0;
      averagePower := [];
      startUpTime := 0;
      this.ledger := ledger;
      resets := [];
      new;
      dataLayer.id := Some(id);
    }

    /** __read_wattmeter_data: read the register block and, when it decodes,
        push the power sample into the window and store every field; otherwise
        change nothing. */
    method ReadWattmeterData(response: Option<seq<byte>>, reg: int, activeHigh: string)
      requires |averagePower| <= WindowSize && DayCounters(dataLayer.readings)
      modifies this`averagePower, dataLayer`readings
      ensures |averagePower| <= WindowSize && DayCounters(dataLayer.readings)
      ensures Recorded() == old(Recorded())
      ensures Decodable(response, reg) ==>
        averagePower == PushWindow(old(averagePower), Registers(response.value)[2])
        && dataLayer.readings == Decode(Registers(response.value), activeHigh, Mean(averagePower))
      ensures !Decodable(response, reg) ==>
        averagePower == old(averagePower) && dataLayer.readings == old(dataLayer.readings)
    {
      if response.None? {
        return;
      }
      var b := response.value;
      if !(|b| >= ResponseBytes && reg == MeterRegister) {
        return;
      }
      var ws := Registers(b);
      WindowStaysSmall(averagePower, ws[2]);
      averagePower := averagePower + [ws[2]];
      if |averagePower| > WindowSize {
        averagePower := averagePower[1..];
      }
      var actualPower: int := 0;
      var count := 0;
      while count < |averagePower|
        invariant 0 <= count <= |averagePower|
        invariant actualPower == SignedSum(averagePower[..count])
      {
        var power: int := averagePower[count];
        assert averagePower[..count + 1][..count] == averagePower[..count];
        actualPower := actualPower + (if power > 32767 then power - 65536 else power);
        count := count + 1;
      }
      assert averagePower[..count] == averagePower;
      var p1 := TruncDiv(actualPower, count);
      dataLayer.readings := Decode(ws, activeHigh, p1);
    }

    /** The start-up block. */
    method StartUp(c: Clock)
      modifies this`startUpTime, this`lastMinute, this`lastDay, this`lastMonth, this`lastYear, this`timeOffset
      modifies dataLayer`daily, dataLayer`monthly
      ensures Recorded() == StartBlock(old(Recorded()), c)
      ensures startUpTime == c.now && timeOffset
      ensures averagePower == old(averagePower) && dataLayer.readings == old(dataLayer.readings)
    {
      var daily := Ledger.ReadData(ledger);
      var monthly := Ledger.GetMonthlyEnergy(ledger);
      TakeDate(c);
      dataLayer.daily := daily;
      dataLayer.monthly := monthly;
    }

    /** The clock part of the start-up block: the start-up time and the date
        of the first step, and the flag that lets the day block run. */
    method TakeDate(c: Clock)
      modifies this`startUpTime, this`lastMinute, this`lastDay, this`lastMonth, this`lastYear, this`timeOffset
      ensures Recorded() == old(Recorded()).(lastMinute := c.minute, lastDay := c.day, lastMonth := c.month, lastYear := c.year)
      ensures startUpTime == c.now && timeOffset
    {
      startUpTime := c.now;
      lastMinute := c.minute;
      lastDay := c.day;
      lastMonth := c.month;
      lastYear := c.year;
      timeOffset := true;
    }

    /** The minute block. */
    method RecordMinute(c: Clock)
      modifies dataLayer`pm, this`resets, this`lastMinute
      ensures Recorded() == MinuteBlock(old(Recorded()), c, dataLayer.readings)
      ensures timeInit == old(timeInit) && timeOffset == old(timeOffset) && startUpTime == old(startUpTime)
      ensures averagePower == old(averagePower) && dataLayer.readings == old(dataLayer.readings)
      ensures dataLayer.id == old(dataLayer.id) && dataLayer.runTime == old(dataLayer.runTime)
      ensures dataLayer.wattmeterTime == old(dataLayer.wattmeterTime)
    {
      var minuteEnergy := dataLayer.readings.e1PMin - dataLayer.readings.e1NMin;
      if |dataLayer.pm| < MinuteSlots {
        dataLayer.pm := dataLayer.pm + [minuteEnergy * 6];
      } else {
        dataLayer.pm := dataLayer.pm[1..];
        dataLayer.pm := dataLayer.pm + [minuteEnergy * 6];
      }
      dataLayer.pm := dataLayer.pm[0 := |dataLayer.pm|];
      resets := resets + [MinuteReset];
      lastMinute := c.minute;
    }

    /** The hour block; IndexError when there is no record to overwrite. */
    method RecordHour(c: Clock) returns (raised: Option<Error>)
      modifies dataLayer`es, this`resets, this`lastHour
      ensures match HourBlock(old(Recorded()), c, dataLayer.readings)
        case Err(e) => raised == Some(e) && Recorded() == old(Recorded())
        case Ok(h) => raised == None && Recorded() == h
      ensures timeInit == old(timeInit) && timeOffset == old(timeOffset) && startUpTime == old(startUpTime)
      ensures averagePower == old(averagePower) && dataLayer.readings == old(dataLayer.readings)
      ensures dataLayer.id == old(dataLayer.id) && dataLayer.runTime == old(dataLayer.runTime)
      ensures dataLayer.wattmeterTime == old(dataLayer.wattmeterTime)
    {
      var r := dataLayer.readings;
      if lastHour != c.hour {
        resets := resets + [HourReset];
        lastHour := c.hour;
        if |dataLayer.es| < HourSlots {
          dataLayer.es := dataLayer.es + [lastHour, r.e1PHour, r.eTuvHour, r.hdo];
        } else {
          dataLayer.es := dataLayer.es[4..];
          dataLayer.es := dataLayer.es + [lastHour, r.e1PHour, r.eTuvHour, r.hdo];
        }
        dataLayer.es := dataLayer.es[0 := |dataLayer.es|];
        return None;
      }
      var n := |dataLayer.es|;
      if n < HourSlots {
        if n < 2 {
          // es[n - 3] is out of range
          return Some(IndexError);
        }
        // with two to four slots, n - 3 is a negative index counted from the end
        var i := if n - 3 < 0 then n - 3 + n else n - 3;
        dataLayer.es := dataLayer.es[i := r.e1PHour];
        dataLayer.es := dataLayer.es[n - 2 := r.eTuvHour];
        dataLayer.es := dataLayer.es[n - 1 := r.hdo];
      } else {
        dataLayer.es := dataLayer.es[94 := r.e1PHour];
        dataLayer.es := dataLayer.es[95 := r.eTuvHour];
        dataLayer.es := dataLayer.es[96 := r.hdo];
      }
      return None;
    }

    /** The day block. */
    method CloseDay(c: Clock)
      requires DayCounters(dataLayer.readings)
      modifies this`resets, this`lastYear, this`lastMonth, this`lastDay, this`ledger
      modifies dataLayer`daily, dataLayer`monthly
      ensures Recorded() == DayBlock(old(Recorded()), c, dataLayer.readings)
      ensures timeInit == old(timeInit) && timeOffset == old(timeOffset) && startUpTime == old(startUpTime)
      ensures averagePower == old(averagePower) && dataLayer.readings == old(dataLayer.readings)
      ensures dataLayer.id == old(dataLayer.id) && dataLayer.runTime == old(dataLayer.runTime)
      ensures dataLayer.wattmeterTime == old(dataLayer.wattmeterTime)
    {
      var written, daily, monthly := WriteDay(ledger, lastMonth, lastDay, lastYear, dataLayer.readings);
      ledger, dataLayer.daily, dataLayer.monthly := written, daily, monthly;
      TurnDay(c);
    }

    /** The bookkeeping part of the day block: the day reset, then the date of
        this step becomes the last date seen. */
    method TurnDay(c: Clock)
      modifies this`resets, this`lastYear, this`lastMonth, this`lastDay
      ensures Recorded() == old(Recorded()).(resets := old(resets) + [DayReset], lastYear := c.year, lastMonth := c.month, lastDay := c.day)
      ensures timeInit == old(timeInit) && timeOffset == old(timeOffset) && startUpTime == old(startUpTime)
      ensures averagePower == old(averagePower) && dataLayer.readings == old(dataLayer.readings)
      ensures dataLayer.id == old(dataLayer.id) && dataLayer.runTime == old(dataLayer.runTime)
      ensures dataLayer.wattmeterTime == old(dataLayer.wattmeterTime)
    {
      resets := resets + [DayReset];
      lastYear := c.year;
      lastMonth := c.month;
      lastDay := c.day;
    }

    /** The three blocks after a successful control step. */
    method Bookkeep(c: Clock) returns (raised: Option<Error>)
      requires DayCounters(dataLayer.readings)
      modifies dataLayer`pm, dataLayer`es, dataLayer`daily, dataLayer`monthly
      modifies this`resets, this`lastMinute, this`lastHour, this`lastDay, this`lastMonth, this`lastYear, this`ledger
      ensures (Recorded(), raised) == Bookkeeping(old(Recorded()), c, dataLayer.readings, timeInit, timeOffset)
      ensures timeInit == old(timeInit) && timeOffset == old(timeOffset) && startUpTime == old(startUpTime)
      ensures averagePower == old(averagePower) && dataLayer.readings == old(dataLayer.readings)
      ensures dataLayer.id == old(dataLayer.id) && dataLayer.runTime == old(dataLayer.runTime)
      ensures dataLayer.wattmeterTime == old(dataLayer.wattmeterTime)
    {
      if lastMinute != c.minute && timeInit {
        RecordMinute(c);
      }
      raised := None;
      if timeInit {
        raised := RecordHour(c);
        if raised.Some? {
          return;
        }
        if lastDay != c.day && timeOffset {
          CloseDay(c);
        }
      }
    }

    /** The run-time stamps: seconds since start-up and the local time. */
    method Stamp(c: Clock)
      modifies dataLayer`runTime, dataLayer`wattmeterTime
      ensures dataLayer.runTime == c.now - startUpTime && dataLayer.wattmeterTime == Some(Timestamp(c))
      ensures Recorded() == old(Recorded())
    {
      dataLayer.runTime := c.now - startUpTime;
      dataLayer.wattmeterTime := Some(Timestamp(c));
    }

    /** The part of a cycle before the regulation: the start-up block once the
        clock is set, the run-time stamps and the meter read. */
    method Prepare(c: Clock, response: Option<seq<byte>>, activeHigh: string)
      requires Valid()
      modifies this`startUpTime, this`lastMinute, this`lastDay, this`lastMonth, this`lastYear, this`timeOffset
      modifies this`averagePower, dataLayer`daily, dataLayer`monthly, dataLayer`runTime, dataLayer`wattmeterTime
      modifies dataLayer`readings
      ensures Valid()
      ensures timeInit == old(timeInit) && dataLayer.id == old(dataLayer.id)
      ensures timeOffset == (old(timeOffset) || old(timeInit))
      ensures var up := !old(timeOffset) && old(timeInit);
        startUpTime == (if up then c.now else old(startUpTime))
        && dataLayer.runTime == c.now - startUpTime && dataLayer.wattmeterTime == Some(Timestamp(c))
        && Recorded() == (if up then StartBlock(old(Recorded()), c) else old(Recorded()))
      ensures Decodable(response, MeterRegister) ==>
        averagePower == PushWindow(old(averagePower), Registers(response.value)[2])
        && dataLayer.readings == Decode(Registers(response.value), activeHigh, Mean(averagePower))
      ensures !Decodable(response, MeterRegister) ==>
        averagePower == old(averagePower) && dataLayer.readings == old(dataLayer.readings)
    {
      Clocking(c);
      ReadWattmeterData(response, MeterRegister, activeHigh);
    }

    /** The clock part of a cycle: the start-up block once the clock is set,
        then the run-time stamps. */
    method Clocking(c: Clock)
      requires Valid()
      modifies this`startUpTime, this`lastMinute, this`lastDay, this`lastMonth, this`lastYear, this`timeOffset
      modifies dataLayer`daily, dataLayer`monthly, dataLayer`runTime, dataLayer`wattmeterTime
      ensures Valid()
      ensures timeOffset == (old(timeOffset) || old(timeInit))
      ensures averagePower == old(averagePower) && dataLayer.readings == old(dataLayer.readings)
      ensures var up := !old(timeOffset) && old(timeInit);
        startUpTime == (if up then c.now else old(startUpTime))
        && dataLayer.runTime == c.now - startUpTime && dataLayer.wattmeterTime == Some(Timestamp(c))
        && Recorded() == (if up then StartBlock(old(Recorded()), c) else old(Recorded()))
    {
      StartKeepsShape(Recorded(), c);
      if !timeOffset && timeInit {
        StartUp(c);
      }
      Stamp(c);
    }

    /** The control step of a cycle, on the decoded power and HDO flag. */
    method RunRegulation(c: Clock, cfg: Regulation.RegulationConfig) returns (duty: Result<int>)
      modifies regulation
      ensures duty.Err? <==> cfg.tuvPower == 0
      ensures duty.Err? ==> duty.error == ZeroDivisionError
      ensures cfg.tuvPower != 0 ==>
        regulation.Current() == Regulation.Regulate(old(regulation.Current()), c.hour, c.minute,
          dataLayer.readings.pRegulation, dataLayer.readings.hdo, cfg,
          regulation.secNightBoost, regulation.secMorningBoost, regulation.overflowLimit)
    {
      duty := regulation.Run(c.hour, c.minute, dataLayer.readings.pRegulation, dataLayer.readings.hdo, cfg);
    }

    /** The control step and the bookkeeping after it. */
    method Control(c: Clock, cfg: Regulation.RegulationConfig) returns (raised: Option<Error>)
      requires Valid()
      modifies regulation, dataLayer`pm, dataLayer`es, dataLayer`daily, dataLayer`monthly
      modifies this`resets, this`lastMinute, this`lastHour, this`lastDay, this`lastMonth, this`lastYear, this`ledger
      ensures Valid()
      ensures timeInit == old(timeInit) && timeOffset == old(timeOffset) && startUpTime == old(startUpTime)
      ensures averagePower == old(averagePower) && dataLayer.readings == old(dataLayer.readings)
      ensures dataLayer.id == old(dataLayer.id) && dataLayer.runTime == old(dataLayer.runTime)
      ensures dataLayer.wattmeterTime == old(dataLayer.wattmeterTime)
      ensures cfg.tuvPower != 0 ==>
        regulation.Current() == Regulation.Regulate(old(regulation.Current()), c.hour, c.minute,
          dataLayer.readings.pRegulation, dataLayer.readings.hdo, cfg,
          regulation.secNightBoost, regulation.secMorningBoost, regulation.overflowLimit)
      ensures if cfg.tuvPower == 0 then raised == Some(ZeroDivisionError) && Recorded() == old(Recorded())
        else (Recorded(), raised) == Bookkeeping(old(Recorded()), c, dataLayer.readings, timeInit, timeOffset)
    {
      ghost var h1 := Recorded();
      var duty := RunRegulation(c, cfg);
      assert Recorded() == h1 && Valid();
      if duty.Err? {
        return Some(duty.error);
      }
      BookkeepingKeepsShape(h1, c, dataLayer.readings, timeInit, timeOffset);
      raised := Bookkeep(c);
    }

    /** wattmeter_handler: one cycle. Takes the start-up values once the clock
        is set, stamps the run time, reads the meter, runs the regulation, then
        does the bookkeeping. Returns the exception that escapes
        (ZeroDivisionError from the regulation, IndexError from the hour
        block), None otherwise. */
    method WattmeterHandler(c: Clock, response: Option<seq<byte>>, activeHigh: string,
                            cfg: Regulation.RegulationConfig) returns (raised: Option<Error>)
      requires Valid()
      modifies this, dataLayer, regulation
      ensures Valid()
      ensures timeInit == old(timeInit) && timeOffset == (old(timeOffset) || old(timeInit))
      ensures dataLayer.id == old(dataLayer.id)
      ensures var up := !old(timeOffset) && old(timeInit);
        startUpTime == (if up then c.now else old(startUpTime))
        && dataLayer.runTime == c.now - startUpTime && dataLayer.wattmeterTime == Some(Timestamp(c))
      ensures Decodable(response, MeterRegister) ==>
        averagePower == PushWindow(old(averagePower), Registers(response.value)[2])
        && dataLayer.readings == Decode(Registers(response.value), activeHigh, Mean(averagePower))
      ensures !Decodable(response, MeterRegister) ==>
        averagePower == old(averagePower) && dataLayer.readings == old(dataLayer.readings)
      ensures cfg.tuvPower != 0 ==>
        regulation.Current() == Regulation.Regulate(old(regulation.Current()), c.hour, c.minute,
          dataLayer.readings.pRegulation, dataLayer.readings.hdo, cfg,
          regulation.secNightBoost, regulation.secMorningBoost, regulation.overflowLimit)
      ensures var up := !old(timeOffset) && old(timeInit);
        var h0 := if up then StartBlock(old(Recorded()), c) else old(Recorded());
        if cfg.tuvPower == 0 then raised == Some(ZeroDivisionError) && Recorded() == h0
        else (Recorded(), raised) == Bookkeeping(h0, c, dataLayer.readings, timeInit, timeOffset)
    {
      Prepare(c, response, activeHigh);
      raised := Control(c, cfg);
    }
  }
}
