/** The daily energy ledger (FileHandler in main/wattmeter.py): one line
    "MM/DD/YY:[export,import,boiler]" per finished day, appended to a text
    file; the tail of the file for display; and the monthly summaries folded
    from it. The file is its text contents, None when it does not exist. */
module Ledger {
  import opened Base
  import opened Text

  /** The text of a file, "" for a file that does not exist yet ("a+" creates it). */
  function Contents(file: Option<string>): string
  {
    match file
    case None => ""
    case Some(c) => c
  }

  /** The items of Python's str(list) of integers, separated by ", ". */
  function ListItems(vals: seq<int>): string
  {
    if |vals| == 0 then ""
    else if |vals| == 1 then IntToString(vals[0])
    else IntToString(vals[0]) + ", " + ListItems(vals[1..])
  }

  /** Python's str(list) of integers, as in "[1, 2, 3]". */
  function ListStr(vals: seq<int>): string
  {
    "[" + ListItems(vals) + "]"
  }

  /** One line written by write_data: "%s:%s\n" % (key, value) with every space removed. */
  function EntryLine(key: string, vals: seq<int>): string
  {
    Replace(key + ":" + ListStr(vals) + "\n", ' ', "")
  }

  /** The text write_data appends for the entries of its dictionary, in order. */
  function EntriesText(data: seq<(string, seq<int>)>): string
  {
    if data == [] then "" else EntriesText(data[..|data| - 1]) + EntryLine(data[|data| - 1].0, data[|data| - 1].1)
  }

  /** write_data: append one line per entry to the file, creating it if needed. */
  method WriteData(file: Option<string>, data: seq<(string, seq<int>)>) returns (written: Option<string>)
    ensures written == Some(Contents(file) + EntriesText(data))
  {
    var lines: seq<string> := [];
    var i := 0;
    while i < |data|
      invariant 0 <= i <= |data|
      invariant Concat(lines) == EntriesText(data[..i])
    {
      var (variable, value) := data[i];
      assert data[..i + 1][..i] == data[..i];
      lines := lines + [EntryLine(variable, value)];
      assert lines[..|lines| - 1] == lines[..|lines| - 1];
      i := i + 1;
    }
    assert data[..i] == data;
    written := Some(Contents(file) + Concat(lines));
  }

  /** The date key of a ledger line: "{0:02}/{1:02}/{2}" of month, day and str(year)[-2:]. */
  function LedgerKey(month: nat, day: nat, year: nat): string
  {
    Pad2(month) + "/" + Pad2(day) + "/" + LastTwo(NatToString(year))
  }

  /** The ledger line of one day, as it stands in the file. */
  function LedgerLine(month: nat, day: nat, year: nat, positive: nat, negative: nat, boiler: nat): string
  {
    LedgerKey(month, day, year) + ":[" + NatToString(positive) + "," + NatToString(negative) + ","
      + NatToString(boiler) + "]\n"
  }

  lemma {:induction false} DigitsHaveNo(s: string, c: char)
    requires AllDigits(s) && !IsDigit(c)
    ensures Excludes(s, c)
  {
  }

  lemma {:induction false} DigitsUnreplaced(s: string, c: char, r: string)
    requires AllDigits(s) && !IsDigit(c)
    ensures Replace(s, c, r) == s
  {
    ReplaceAbsent(s, c, r);
  }

  lemma {:induction false} SpaceFreeLiterals()
    ensures Replace("/", ' ', "") == "/" && Replace(":", ' ', "") == ":" && Replace("[", ' ', "") == "["
    ensures Replace(", ", ' ', "") == "," && Replace("]", ' ', "") == "]" && Replace("\n", ' ', "") == "\n"
  {
    ReplaceOne('/', ' ', ""); ReplaceOne(':', ' ', ""); ReplaceOne('[', ' ', "");
    ReplaceOne(']', ' ', ""); ReplaceOne('\n', ' ', ""); ReplaceOne(' ', ' ', "");
    ReplaceOne(',', ' ', "");
    assert ", " == [','] + [' '];
    ReplaceAppend([','], [' '], ' ', "");
  }

  /** Removing the spaces of a rendered day entry whose fields hold none leaves the compact form. */
  lemma {:induction false} SpacesRemoved(pm: string, pd: string, y: string, p: string, n: string, b: string)
    requires Replace(pm, ' ', "") == pm && Replace(pd, ' ', "") == pd && Replace(y, ' ', "") == y
    requires Replace(p, ' ', "") == p && Replace(n, ' ', "") == n && Replace(b, ' ', "") == b
    ensures Replace(pm + "/" + pd + "/" + y + ":" + "[" + p + ", " + n + ", " + b + "]" + "\n", ' ', "")
         == pm + "/" + pd + "/" + y + ":" + "[" + p + "," + n + "," + b + "]" + "\n"
  {
    SpaceFreeLiterals();
    var u, v := pm, pm;
    ReplaceAppend(u, "/", ' ', ""); u, v := u + "/", v + "/";
    ReplaceAppend(u, pd, ' ', ""); u, v := u + pd, v + pd;
    ReplaceAppend(u, "/", ' ', ""); u, v := u + "/", v + "/";
    ReplaceAppend(u, y, ' ', ""); u, v := u + y, v + y;
    ReplaceAppend(u, ":", ' ', ""); u, v := u + ":", v + ":";
    ReplaceAppend(u, "[", ' ', ""); u, v := u + "[", v + "[";
    ReplaceAppend(u, p, ' ', ""); u, v := u + p, v + p;
    ReplaceAppend(u, ", ", ' ', ""); u, v := u + ", ", v + ",";
    ReplaceAppend(u, n, ' ', ""); u, v := u + n, v + n;
    ReplaceAppend(u, ", ", ' ', ""); u, v := u + ", ", v + ",";
    ReplaceAppend(u, b, ' ', ""); u, v := u + b, v + b;
    ReplaceAppend(u, "]", ' ', ""); u, v := u + "]", v + "]";
    ReplaceAppend(u, "\n", ' ', "");
  }

  lemma {:induction false} EntryShape(pm: string, pd: string, y: string, p: string, n: string, b: string)
    ensures pm + "/" + pd + "/" + y + ":" + ("[" + (p + ", " + (n + ", " + b)) + "]") + "\n"
         == pm + "/" + pd + "/" + y + ":" + "[" + p + ", " + n + ", " + b + "]" + "\n"
    ensures pm + "/" + pd + "/" + y + ":" + "[" + p + "," + n + "," + b + "]" + "\n"
         == pm + "/" + pd + "/" + y + ":[" + p + "," + n + "," + b + "]\n"
  {
  }

  lemma {:induction false} ListStrOfThree(a: nat, b: nat, c: nat)
    ensures ListStr([a, b, c]) == "[" + (NatToString(a) + ", " + (NatToString(b) + ", " + NatToString(c))) + "]"
  {
    var vals := [a, b, c];
    assert vals[1..] == [b, c] && vals[1..][1..] == [c];
    assert IntToString(a) == NatToString(a) && IntToString(b) == NatToString(b) && IntToString(c) == NatToString(c);
    assert ListItems(vals[1..][1..]) == NatToString(c);
    assert ListItems(vals[1..]) == NatToString(b) + ", " + NatToString(c);
  }

  /** write_data writes exactly the compact ledger line for a day's entry: the
      spaces of str(list) are removed. */
  lemma {:induction false} EntryLineIsLedgerLine(month: nat, day: nat, year: nat, positive: nat, negative: nat, boiler: nat)
    ensures EntryLine(LedgerKey(month, day, year), [positive, negative, boiler])
         == LedgerLine(month, day, year, positive, negative, boiler)
  {
    var pm, pd, y := Pad2(month), Pad2(day), LastTwo(NatToString(year));
    var p, n, b := NatToString(positive), NatToString(negative), NatToString(boiler);
    Pad2Digits(month); Pad2Digits(day); NatToStringValue(year); LastTwoAllDigits(NatToString(year));
    NatToStringValue(positive); NatToStringValue(negative); NatToStringValue(boiler);
    ListStrOfThree(positive, negative, boiler);
    EntryShape(pm, pd, y, p, n, b);
    DigitsUnreplaced(pm, ' ', ""); DigitsUnreplaced(pd, ' ', ""); DigitsUnreplaced(y, ' ', "");
    DigitsUnreplaced(p, ' ', ""); DigitsUnreplaced(n, ' ', ""); DigitsUnreplaced(b, ' ', "");
    SpacesRemoved(pm, pd, y, p, n, b);
  }

  /** The day written by the wattmeter, one entry keyed by its date, is its ledger line. */
  lemma {:induction false} DayEntryWritten(month: nat, day: nat, year: nat, positive: nat, negative: nat, boiler: nat)
    ensures EntriesText([(LedgerKey(month, day, year), [positive, negative, boiler])])
         == LedgerLine(month, day, year, positive, negative, boiler)
  {
    var e := [(LedgerKey(month, day, year), [positive, negative, boiler])];
    assert e[..0] == [];
    EntryLineIsLedgerLine(month, day, year, positive, negative, boiler);
  }

  /** The six replacements of get_monthly_energy, in the order the source applies them. */
  function Scrub(line: string): string
  {
    Replace(Replace(Replace(Replace(Replace(Replace(line, '\n', ""), '/', ":"), '[', ""), ']', ""), ',', ":"), ' ', "")
  }


  /** What the six replacements do to one character. */
  function ScrubChar(c: char): string
  {
    if c == '\n' || c == '[' || c == ']' || c == ' ' then ""
    else if c == '/' || c == ',' then ":"
    else [c]
  }

  /** The six replacements done character by character. */
  function ScrubEach(s: string): string
  {
    if s == [] then [] else ScrubChar(s[0]) + ScrubEach(s[1..])
  }

  lemma {:induction false} ScrubAppend(a: string, b: string)
    ensures Scrub(a + b) == Scrub(a) + Scrub(b)
  {
    var r1a, r1b := Replace(a, '\n', ""), Replace(b, '\n', "");
    ReplaceAppend(a, b, '\n', "");
    var r2a, r2b := Replace(r1a, '/', ":"), Replace(r1b, '/', ":");
    ReplaceAppend(r1a, r1b, '/', ":");
    var r3a, r3b := Replace(r2a, '[', ""), Replace(r2b, '[', "");
    ReplaceAppend(r2a, r2b, '[', "");
    var r4a, r4b := Replace(r3a, ']', ""), Replace(r3b, ']', "");
    ReplaceAppend(r3a, r3b, ']', "");
    var r5a, r5b := Replace(r4a, ',', ":"), Replace(r4b, ',', ":");
    ReplaceAppend(r4a, r4b, ',', ":");
    ReplaceAppend(r5a, r5b, ' ', "");
  }

  lemma {:induction false} ReplaceOne(c: char, x: char, r: string)
    ensures Replace([c], x, r) == if c == x then r else [c]
  {
    assert [c][1..] == [];
  }

  lemma {:induction false} ScrubOne(c: char)
    ensures Scrub([c]) == ScrubChar(c)
  {
    ReplaceOne(c, '\n', ""); ReplaceOne(c, '/', ":"); ReplaceOne(c, '[', "");
    ReplaceOne(c, ']', ""); ReplaceOne(c, ',', ":"); ReplaceOne(c, ' ', "");
    ReplaceOne(':', '[', ""); ReplaceOne(':', ']', ""); ReplaceOne(':', ',', ":"); ReplaceOne(':', ' ', "");
  }

  lemma {:induction false} ScrubIsEach(s: string)
    ensures Scrub(s) == ScrubEach(s)
    decreases |s|
  {
    if s != [] {
      assert s == [s[0]] + s[1..];
      ScrubAppend([s[0]], s[1..]);
      ScrubOne(s[0]);
      ScrubIsEach(s[1..]);
    }
  }

  lemma {:induction false} ScrubEachAppend(a: string, b: string)
    ensures ScrubEach(a + b) == ScrubEach(a) + ScrubEach(b)
    decreases |a|
  {
    if a == [] {
      assert a + b == b;
    } else {
      assert (a + b)[0] == a[0];
      assert (a + b)[1..] == a[1..] + b;
      ScrubEachAppend(a[1..], b);
    }
  }

  lemma {:induction false} ScrubEachDigits(s: string)
    requires AllDigits(s)
    ensures ScrubEach(s) == s
    decreases |s|
  {
    if s != [] {
      ScrubEachDigits(s[1..]);
    }
  }

  /** The field split of get_monthly_energy: the six replacements (done
      character by character, which ScrubIsEach shows is the same), then the
      split at ':'. */
  function Fields(line: string): (f: seq<string>)
    ensures |f| >= 1
  {
    Split(ScrubEach(line), ':')
  }

  /** The replacements turn a compact day entry into its six fields joined by ':'. */
  lemma {:induction false} ScrubPieces(pm: string, pd: string, y: string, p: string, n: string, b: string)
    requires AllDigits(pm) && AllDigits(pd) && AllDigits(y) && AllDigits(p) && AllDigits(n) && AllDigits(b)
    ensures ScrubEach(pm + "/" + pd + "/" + y + ":[" + p + "," + n + "," + b + "]\n")
         == pm + ":" + pd + ":" + y + ":" + p + ":" + n + ":" + b
  {
    ScrubMarks();
    ScrubEachDigits(pm);
    ScrubStep(pm, "/", pm, ":");
    ScrubDigitsStep(pm + "/", pm + ":", pd);
    ScrubStep(pm + "/" + pd, "/", pm + ":" + pd, ":");
    ScrubDigitsStep(pm + "/" + pd + "/", pm + ":" + pd + ":", y);
    ScrubStep(pm + "/" + pd + "/" + y, ":[", pm + ":" + pd + ":" + y, ":");
    ScrubDigitsStep(pm + "/" + pd + "/" + y + ":[", pm + ":" + pd + ":" + y + ":", p);
    ScrubStep(pm + "/" + pd + "/" + y + ":[" + p, ",", pm + ":" + pd + ":" + y + ":" + p, ":");
    ScrubDigitsStep(pm + "/" + pd + "/" + y + ":[" + p + ",", pm + ":" + pd + ":" + y + ":" + p + ":", n);
    ScrubStep(pm + "/" + pd + "/" + y + ":[" + p + "," + n, ",", pm + ":" + pd + ":" + y + ":" + p + ":" + n, ":");
    ScrubDigitsStep(pm + "/" + pd + "/" + y + ":[" + p + "," + n + ",", pm + ":" + pd + ":" + y + ":" + p + ":" + n + ":", b);
    ScrubStep(pm + "/" + pd + "/" + y + ":[" + p + "," + n + "," + b, "]\n",
      pm + ":" + pd + ":" + y + ":" + p + ":" + n + ":" + b, "");
    assert pm + ":" + pd + ":" + y + ":" + p + ":" + n + ":" + b + "" == pm + ":" + pd + ":" + y + ":" + p + ":" + n + ":" + b;
  }

  /** What the replacements make of the punctuation of a day entry. */
  lemma {:induction false} ScrubMarks()
    ensures ScrubEach("/") == ":" && ScrubEach(",") == ":" && ScrubEach(":[") == ":" && ScrubEach("]\n") == ""
  {
    assert ScrubEach(":[") == ":" + ScrubEach("[");
    assert ScrubEach("[") == "";
    assert ScrubEach("]\n") == ScrubEach("\n");
    assert ScrubEach("\n") == "";
  }

  /** Scrubbing one more piece appends its scrubbed form. */
  lemma {:induction false} ScrubStep(u: string, x: string, v: string, w: string)
    requires ScrubEach(u) == v && ScrubEach(x) == w
    ensures ScrubEach(u + x) == v + w
  {
    ScrubEachAppend(u, x);
  }

  /** Scrubbing leaves appended digits as they are. */
  lemma {:induction false} ScrubDigitsStep(u: string, v: string, d: string)
    requires ScrubEach(u) == v && AllDigits(d)
    ensures ScrubEach(u + d) == v + d
  {
    ScrubEachDigits(d);
    ScrubEachAppend(u, d);
  }

  lemma {:induction false} JoinSix(a: string, b: string, c: string, d: string, e: string, f: string, sep: char)
    ensures Join([a, b, c, d, e, f], sep) == a + [sep] + b + [sep] + c + [sep] + d + [sep] + e + [sep] + f
  {
    assert [a, b, c, d, e, f][1..] == [b, c, d, e, f];
    assert [b, c, d, e, f][1..] == [c, d, e, f];
    assert [c, d, e, f][1..] == [d, e, f];
    assert [d, e, f][1..] == [e, f];
    assert [e, f][1..] == [f];
    assert Join([e, f], sep) == e + [sep] + f;
    assert Join([d, e, f], sep) == d + [sep] + (e + [sep] + f);
    assert Join([c, d, e, f], sep) == c + [sep] + (d + [sep] + (e + [sep] + f));
    assert Join([b, c, d, e, f], sep) == b + [sep] + (c + [sep] + (d + [sep] + (e + [sep] + f)));
    assert Join([a, b, c, d, e, f], sep) == a + [sep] + (b + [sep] + (c + [sep] + (d + [sep] + (e + [sep] + f))));
  }

  /** The field split takes a compact day entry of digit fields back apart. */
  lemma {:induction false} CompactFields(pm: string, pd: string, y: string, p: string, n: string, b: string)
    requires AllDigits(pm) && AllDigits(pd) && AllDigits(y) && AllDigits(p) && AllDigits(n) && AllDigits(b)
    ensures Fields(pm + "/" + pd + "/" + y + ":[" + p + "," + n + "," + b + "]\n") == [pm, pd, y, p, n, b]
  {
    var line := pm + "/" + pd + "/" + y + ":[" + p + "," + n + "," + b + "]\n";
    var parts := [pm, pd, y, p, n, b];
    ScrubPieces(pm, pd, y, p, n, b);
    JoinSix(pm, pd, y, p, n, b, ':');
    assert ":" == [':'];
    var joined := pm + ":" + pd + ":" + y + ":" + p + ":" + n + ":" + b;
    assert Join(parts, ':') == joined;
    DigitsHaveNo(pm, ':'); DigitsHaveNo(pd, ':'); DigitsHaveNo(y, ':');
    DigitsHaveNo(p, ':'); DigitsHaveNo(n, ':'); DigitsHaveNo(b, ':');
    assert forall k | 0 <= k < |parts| :: Excludes(parts[k], ':');
    SplitJoin(parts, ':');
  }

  lemma {:induction false} LastTwoAllDigits(s: string)
    requires AllDigits(s)
    ensures AllDigits(LastTwo(s))
  {
    var r := LastTwo(s);
    forall i | 0 <= i < |r| ensures IsDigit(r[i]) {
      assert r[i] == s[|s| - |r| + i];
    }
  }

  /** The field split takes a ledger line back apart into its six fields
      [MM, DD, YY, export, import, boiler]. */
  lemma {:induction false} LedgerLineFields(month: nat, day: nat, year: nat, positive: nat, negative: nat, boiler: nat)
    ensures Fields(LedgerLine(month, day, year, positive, negative, boiler))
         == [Pad2(month), Pad2(day), LastTwo(NatToString(year)),
             NatToString(positive), NatToString(negative), NatToString(boiler)]
  {
    var pm, pd, y := Pad2(month), Pad2(day), LastTwo(NatToString(year));
    var p, n, b := NatToString(positive), NatToString(negative), NatToString(boiler);
    Pad2Digits(month); Pad2Digits(day); NatToStringValue(year);
    NatToStringValue(positive); NatToStringValue(negative); NatToStringValue(boiler);
    LastTwoAllDigits(NatToString(year));
    assert LedgerLine(month, day, year, positive, negative, boiler)
        == pm + "/" + pd + "/" + y + ":[" + p + "," + n + "," + b + "]\n";
    CompactFields(pm, pd, y, p, n, b);
  }

  /** A ledger line is one line of the file: it ends in '\n' and holds no other. */
  lemma {:induction false} LedgerLineIsLine(month: nat, day: nat, year: nat, positive: nat, negative: nat, boiler: nat)
    ensures IsLine(LedgerLine(month, day, year, positive, negative, boiler))
  {
    var pm, pd, y := Pad2(month), Pad2(day), LastTwo(NatToString(year));
    var p, n, b := NatToString(positive), NatToString(negative), NatToString(boiler);
    NatToStringValue(year);
    LastTwoAllDigits(NatToString(year));
    Pad2Digits(month); Pad2Digits(day);
    NatToStringValue(positive); NatToStringValue(negative); NatToStringValue(boiler);
    DigitsHaveNo(pm, '\n'); DigitsHaveNo(pd, '\n'); DigitsHaveNo(y, '\n');
    DigitsHaveNo(p, '\n'); DigitsHaveNo(n, '\n'); DigitsHaveNo(b, '\n');
    var s := pm;
    ExcludesAppend(s, "/", '\n'); s := s + "/";
    ExcludesAppend(s, pd, '\n'); s := s + pd;
    ExcludesAppend(s, "/", '\n'); s := s + "/";
    ExcludesAppend(s, y, '\n'); s := s + y;
    ExcludesAppend(s, ":[", '\n'); s := s + ":[";
    ExcludesAppend(s, p, '\n'); s := s + p;
    ExcludesAppend(s, ",", '\n'); s := s + ",";
    ExcludesAppend(s, n, '\n'); s := s + n;
    ExcludesAppend(s, ",", '\n'); s := s + ",";
    ExcludesAppend(s, b, '\n'); s := s + b;
    ExcludesAppend(s, "]", '\n'); s := s + "]";
    NewlineEnds(s);
    assert LedgerLine(month, day, year, positive, negative, boiler) == s + "\n";
  }

  // ---------------------------------------------------------------------------
  // get_monthly_energy

  /** The loop state of get_monthly_energy. */
  datatype Acc = Acc(energy: seq<string>, lastMonth: int, lastYear: int, positive: int, negative: int, boiler: int)

  const Start: Acc := Acc([], 0, 0, 0, 0, 0)

  /** Maximum number of monthly summaries kept. */
  const MaxMonths: nat := 36

  /** One monthly summary: "{}/{}:[{},{},{}]" of month, year and the three sums. */
  function Summary(month: int, year: int, positive: int, negative: int, boiler: int): string
  {
    IntToString(month) + "/" + IntToString(year) + ":[" + IntToString(positive) + "," + IntToString(negative)
    + "," + IntToString(boiler) + "]"
  }

  /** Drop the oldest summary when 36 are already kept: the result is the
      input less at most its first element, and it leaves room for one more
      summary whenever the input was within the cap. */
  function Capped(energy: seq<string>): (r: seq<string>)
    ensures |energy| - 1 <= |r| <= |energy| && r == energy[|energy| - |r|..]
    ensures |energy| <= MaxMonths ==> |r| < MaxMonths
    ensures |energy| < MaxMonths ==> r == energy
  {
    if |energy| >= MaxMonths then energy[1..] else energy
  }

  /** The first branch of an iteration: before any month is open, open the
      month and year of this line. */
  function OpenMonth(acc: Acc, f: seq<string>): Option<Acc>
    requires |f| >= 1
  {
    if acc.lastMonth != 0 then Some(acc)
    else
      match ParseInt(f[0])
      case None => None
      case Some(m) =>
        if |f| < 3 then None
        else
          match ParseInt(f[2])
          case None => None
          case Some(y) => Some(acc.(lastMonth := m, lastYear := y))
  }

  /** The second branch: a line of another month closes the open month into a summary. */
  function RollMonth(acc: Acc, f: seq<string>): Option<Acc>
    requires |f| >= 1
  {
    match ParseInt(f[0])
    case None => None
    case Some(m) =>
      if acc.lastMonth == m then Some(acc)
      else if |f| < 3 then None
      else
        match ParseInt(f[2])
        case None => None
        case Some(y) =>
          Some(Acc(Capped(acc.energy) + [Summary(acc.lastMonth, acc.lastYear, acc.positive, acc.negative, acc.boiler)],
                   m, y, 0, 0, 0))
  }

  /** The last part: add the day's three energies to the open month. */
  function AddDay(acc: Acc, f: seq<string>): Option<Acc>
  {
    if |f| < 6 then None
    else
      var p, n, b := ParseInt(f[3]), ParseInt(f[4]), ParseInt(f[5]);
      if p.None? || n.None? || b.None? then None
      else Some(acc.(positive := acc.positive + p.value, negative := acc.negative + n.value, boiler := acc.boiler + b.value))
  }

  /** One iteration of get_monthly_energy over the fields of a line; None
      when the line raises (too few fields, or a field int() rejects). */
  function StepFields(acc: Acc, f: seq<string>): Option<Acc>
    requires |f| >= 1
  {
    match OpenMonth(acc, f)
    case None => None
    case Some(a1) =>
      match RollMonth(a1, f)
      case None => None
      case Some(a2) => AddDay(a2, f)
  }

  /** One iteration of get_monthly_energy over a line. */
  function Step(acc: Acc, line: string): Option<Acc>
  {
    StepFields(acc, Fields(line))
  }

  /** The loop state after the given lines, None once one of them raised. */
  function Fold(lines: seq<string>): Option<Acc>
    decreases |lines|, 1
  {
    if lines == [] then Some(Start) else FoldLast(lines)
  }

  /** The fold of a non-empty list: the fold of all but the last line, then one step. */
  function FoldLast(lines: seq<string>): Option<Acc>
    requires lines != []
    decreases |lines|, 0
  {
    match Fold(lines[..|lines| - 1])
    case None => None
    case Some(acc) => Step(acc, lines[|lines| - 1])
  }

  /** The summaries after the loop: the open month is always emitted. */
  function Close(acc: Acc): seq<string>
  {
    Capped(acc.energy) + [Summary(acc.lastMonth, acc.lastYear, acc.positive, acc.negative, acc.boiler)]
  }

  /** What get_monthly_energy returns for a file: [] when it is missing or a line raises. */
  function MonthlyEnergy(file: Option<string>): seq<string>
  {
    match file
    case None => []
    case Some(c) =>
      match Fold(Lines(c))
      case None => []
      case Some(acc) => Close(acc)
  }

  lemma {:induction false} FoldFailureSticks(lines: seq<string>, j: nat)
    requires j <= |lines| && Fold(lines[..j]) == None
    ensures Fold(lines) == None
    decreases |lines| - j
  {
    if j == |lines| {
      assert lines[..j] == lines;
    } else {
      assert lines[..j + 1][..j] == lines[..j];
      FoldFailureSticks(lines, j + 1);
    }
  }

  lemma {:induction false} FoldAppend(lines: seq<string>, line: string)
    ensures Fold(lines + [line]) == match Fold(lines) case None => None case Some(acc) => Step(acc, line)
  {
    assert (lines + [line])[..|lines|] == lines;
  }

  lemma {:induction false} FoldKeepsAtMostMaxMonths(lines: seq<string>)
    ensures Fold(lines).Some? ==> |Fold(lines).value.energy| <= MaxMonths
    decreases |lines|
  {
    if lines != [] {
      FoldKeepsAtMostMaxMonths(lines[..|lines| - 1]);
    }
  }

  /** get_monthly_energy never returns more than 36 summaries. */
  lemma {:induction false} MonthlyEnergyBounded(file: Option<string>)
    ensures |MonthlyEnergy(file)| <= MaxMonths
  {
    if file.Some? {
      FoldKeepsAtMostMaxMonths(Lines(file.value));
    }
  }

  /** An empty ledger still yields the summary of the never-opened month. */
  lemma {:induction false} EmptyLedgerSummary()
    ensures MonthlyEnergy(Some("")) == ["0/0:[0,0,0]"]
  {
    assert Lines("") == [];
    ZeroSummary();
    assert Close(Start) == [Summary(0, 0, 0, 0, 0)];
  }

  /** The summary of a month that was never opened. */
  lemma {:induction false} ZeroSummary()
    ensures Summary(0, 0, 0, 0, 0) == "0/0:[0,0,0]"
  {
    assert IntToString(0) == "0";
  }

  /** How one iteration treats six fields that parse to a month m, a year y
      and three energies p, n, b. */
  lemma {:induction false} StepOnParsedFields(acc: Acc, f: seq<string>, m: int, y: int, p: int, n: int, b: int)
    requires |f| == 6 && ParseInt(f[0]) == Some(m) && ParseInt(f[2]) == Some(y)
    requires ParseInt(f[3]) == Some(p) && ParseInt(f[4]) == Some(n) && ParseInt(f[5]) == Some(b)
    ensures StepFields(acc, f) ==
      if acc.lastMonth != 0 && acc.lastMonth == m then
        Some(acc.(positive := acc.positive + p, negative := acc.negative + n, boiler := acc.boiler + b))
      else if acc.lastMonth == 0 then
        Some(Acc(acc.energy, m, y, acc.positive + p, acc.negative + n, acc.boiler + b))
      else
        Some(Acc(Capped(acc.energy) + [Summary(acc.lastMonth, acc.lastYear, acc.positive, acc.negative, acc.boiler)],
                 m, y, p, n, b))
  {
  }

  /** How one iteration treats the line of a finished day. */
  lemma {:induction false} StepOnLedgerLine(acc: Acc, month: nat, day: nat, year: nat, positive: nat, negative: nat, boiler: nat)
    ensures Step(acc, LedgerLine(month, day, year, positive, negative, boiler)) ==
      if acc.lastMonth != 0 && acc.lastMonth == month then
        Some(acc.(positive := acc.positive + positive, negative := acc.negative + negative, boiler := acc.boiler + boiler))
      else if acc.lastMonth == 0 then
        Some(Acc(acc.energy, month, year % 100, acc.positive + positive, acc.negative + negative, acc.boiler + boiler))
      else
        Some(Acc(Capped(acc.energy) + [Summary(acc.lastMonth, acc.lastYear, acc.positive, acc.negative, acc.boiler)],
                 month, year % 100, positive, negative, boiler))
  {
    var f := [Pad2(month), Pad2(day), LastTwo(NatToString(year)),
              NatToString(positive), NatToString(negative), NatToString(boiler)];
    LedgerLineFields(month, day, year, positive, negative, boiler);
    Pad2RoundTrip(month);
    LastTwoDigitsValue(year);
    IntToStringRoundTrip(positive);
    IntToStringRoundTrip(negative);
    IntToStringRoundTrip(boiler);
    StepOnParsedFields(acc, f, month, year % 100, positive, negative, boiler);
  }

  /** Appending one line to a ledger runs one more iteration of the fold. */
  lemma {:induction false} MonthlyAfterLine(c: string, line: string)
    requires EndsLine(c) && IsLine(line)
    ensures MonthlyEnergy(Some(c + line)) ==
      match Fold(Lines(c))
      case None => []
      case Some(acc) => (match Step(acc, line) case None => [] case Some(next) => Close(next))
  {
    LinesAppend(c, line);
    LinesOfLine(line);
    FoldAppend(Lines(c), line);
  }

  /** A day of a new month closes the open month: the earlier summaries are
      kept (the oldest dropped when 36 are kept) and the new month's summary
      holds just that day. */
  lemma {:induction false} NewMonthRollsSummaries(c: string, acc: Acc, month: nat, day: nat, year: nat, positive: nat, negative: nat, boiler: nat)
    requires EndsLine(c) && Fold(Lines(c)) == Some(acc)
    requires acc.lastMonth != 0 && acc.lastMonth != month
    ensures MonthlyEnergy(Some(c + LedgerLine(month, day, year, positive, negative, boiler)))
         == Capped(MonthlyEnergy(Some(c))) + [Summary(month, year % 100, positive, negative, boiler)]
  {
    LedgerLineIsLine(month, day, year, positive, negative, boiler);
    MonthlyAfterLine(c, LedgerLine(month, day, year, positive, negative, boiler));
    StepOnLedgerLine(acc, month, day, year, positive, negative, boiler);
  }

  /** A further day of the open month adds its energies to the last summary
      and leaves the earlier ones alone. */
  lemma {:induction false} SameMonthAccumulates(c: string, acc: Acc, month: nat, day: nat, year: nat, positive: nat, negative: nat, boiler: nat)
    requires EndsLine(c) && Fold(Lines(c)) == Some(acc)
    requires acc.lastMonth != 0 && acc.lastMonth == month
    ensures var before := MonthlyEnergy(Some(c));
      MonthlyEnergy(Some(c + LedgerLine(month, day, year, positive, negative, boiler)))
        == before[..|before| - 1]
           + [Summary(month, acc.lastYear, acc.positive + positive, acc.negative + negative, acc.boiler + boiler)]
  {
    var line := LedgerLine(month, day, year, positive, negative, boiler);
    var next := acc.(positive := acc.positive + positive, negative := acc.negative + negative, boiler := acc.boiler + boiler);
    assert MonthlyEnergy(Some(c + line)) == Close(next) by {
      LedgerLineIsLine(month, day, year, positive, negative, boiler);
      MonthlyAfterLine(c, line);
      StepOnLedgerLine(acc, month, day, year, positive, negative, boiler);
      assert Step(acc, line) == Some(next);
    }
    CloseAccumulated(acc, positive, negative, boiler);
    var before := MonthlyEnergy(Some(c));
    assert before == Close(acc);
    assert before[..|before| - 1] == Capped(acc.energy);
  }

  /** Closing after a day was added to the open month reports the grown sums. */
  lemma {:induction false} CloseAccumulated(acc: Acc, positive: int, negative: int, boiler: int)
    ensures Close(acc.(positive := acc.positive + positive, negative := acc.negative + negative, boiler := acc.boiler + boiler))
      == Capped(acc.energy) + [Summary(acc.lastMonth, acc.lastYear, acc.positive + positive, acc.negative + negative, acc.boiler + boiler)]
  {
  }

  /** A line that raises ends the fold with None. */
  lemma {:induction false} FailsAt(lines: seq<string>, i: nat, acc: Acc)
    requires i < |lines| && Fold(lines[..i]) == Some(acc) && StepFields(acc, Fields(lines[i])) == None
    ensures Fold(lines) == None
  {
    FoldAt(lines, i);
    FoldFailureSticks(lines, i + 1);
  }

  /** A line that goes through moves the fold one step. */
  lemma {:induction false} GoesOn(lines: seq<string>, i: nat, acc: Acc, next: Acc)
    requires i < |lines| && Fold(lines[..i]) == Some(acc) && StepFields(acc, Fields(lines[i])) == Some(next)
    ensures Fold(lines[..i + 1]) == Some(next)
  {
    FoldAt(lines, i);
  }

  /** The fold of the first i + 1 lines is one step on the fold of the first i. */
  lemma {:induction false} FoldAt(lines: seq<string>, i: nat)
    requires i < |lines|
    ensures Fold(lines[..i + 1]) == match Fold(lines[..i]) case None => None case Some(acc) => Step(acc, lines[i])
  {
    assert lines[..i + 1][..i] == lines[..i];
  }

  /** The body of get_monthly_energy's loop for the fields of one line: open
      a month if none is open, close the open month into a summary when the
      month field changes, then add the day's energies. None when the line raises. */
  method ReadLine(acc: Acc, line: seq<string>) returns (r: Option<Acc>)
    requires |line| >= 1
    ensures r == StepFields(acc, line)
  {
    var cur := acc;
    if cur.lastMonth == 0 {
      var m := ParseInt(line[0]);
      if m.None? || |line| < 3 {
        return None;
      }
      var y := ParseInt(line[2]);
      if y.None? {
        return None;
      }
      cur := cur.(lastMonth := m.value, lastYear := y.value);
    }
    ghost var started := cur;
    assert OpenMonth(acc, line) == Some(started);
    var month := ParseInt(line[0]);
    if month.None? {
      return None;
    }
    if cur.lastMonth != month.value {
      var energy := cur.energy;
      if |energy| >= MaxMonths {
        energy := energy[1..];
      }
      energy := energy + [Summary(cur.lastMonth, cur.lastYear, cur.positive, cur.negative, cur.boiler)];
      if |line| < 3 {
        return None;
      }
      var y := ParseInt(line[2]);
      if y.None? {
        return None;
      }
      cur := Acc(energy, month.value, y.value, 0, 0, 0);
    }
    ghost var rolled := cur;
    assert RollMonth(started, line) == Some(rolled);
    if |line| < 6 {
      return None;
    }
    var p, n, b := ParseInt(line[3]), ParseInt(line[4]), ParseInt(line[5]);
    if p.None? || n.None? || b.None? {
      return None;
    }
    cur := cur.(positive := cur.positive + p.value, negative := cur.negative + n.value, boiler := cur.boiler + b.value);
    return Some(cur);
  }

  /** get_monthly_energy: stream the ledger, summing the three energies while
      the month field stays the same and emitting one summary per month. */
  method GetMonthlyEnergy(file: Option<string>) returns (energy: seq<string>)
    ensures energy == MonthlyEnergy(file)
  {
    if file.None? {
      return [];
    }
    var lines := Lines(file.value);
    // energy, last_month, last_year and the three sums, held together
    var acc := Start;
    var i := 0;
    while i < |lines|
      invariant 0 <= i <= |lines|
      invariant Fold(lines[..i]) == Some(acc)
    {
      var next := ReadLine(acc, Fields(lines[i]));
      if next.None? {
        FailsAt(lines, i, acc);
        return [];
      }
      GoesOn(lines, i, acc, next.value);
      acc := next.value;
      i := i + 1;
    }
    assert lines[..i] == lines;
    energy := acc.energy;
    if |energy| >= MaxMonths {
      energy := energy[1..];
    }
    energy := energy + [Summary(acc.lastMonth, acc.lastYear, acc.positive, acc.negative, acc.boiler)];
  }

  // ---------------------------------------------------------------------------
  // read_data

  /** Number of ledger lines read_data returns. */
  const TailLength: nat := 31

  /** Python's line.replace("\n", "") over a list of lines. */
  function WithoutNewlines(lines: seq<string>): (r: seq<string>)
    ensures |r| == |lines|
  {
    seq(|lines|, k requires 0 <= k < |lines| => Replace(lines[k], '\n', ""))
  }

  /** What read_data returns: the last 31 lines without their newlines, [] for a missing file. */
  function LedgerTail(file: Option<string>): seq<string>
  {
    match file
    case None => []
    case Some(c) =>
      var lines := Lines(c);
      WithoutNewlines(lines[Max(0, |lines| - TailLength)..])
  }

  /** read_data: count the rows, then keep those whose 1-based number exceeds rows - 31. */
  method ReadData(file: Option<string>) returns (data: seq<string>)
    ensures data == LedgerTail(file)
    ensures |data| <= TailLength
  {
    if file.None? {
      return [];
    }
    var lines := Lines(file.value);
    var rowCount := 0;
    for i := 0 to |lines|
      invariant rowCount == |lines[..i]|
    {
      rowCount := rowCount + 1;
    }
    var start := Max(0, rowCount - TailLength);
    data := [];
    var cnt := 0;
    while cnt < |lines|
      invariant 0 <= cnt <= |lines|
      invariant data == WithoutNewlines(lines[Min(start, cnt)..cnt])
    {
      var row := lines[cnt];
      cnt := cnt + 1;
      if cnt > rowCount - TailLength {
        assert lines[start..cnt] == lines[Min(start, cnt - 1)..cnt - 1] + [row];
        data := data + [Replace(row, '\n', "")];
      }
    }
  }

  /** The last-31 window of a list after one more element. */
  lemma {:induction false} WindowAfterAppend(lines: seq<string>, line: string)
    ensures var longer := WithoutNewlines(lines[Max(0, |lines| - TailLength)..]) + [Replace(line, '\n', "")];
      WithoutNewlines((lines + [line])[Max(0, |lines| + 1 - TailLength)..]) == longer[Max(0, |longer| - TailLength)..]
  {
    var longer := WithoutNewlines(lines[Max(0, |lines| - TailLength)..]) + [Replace(line, '\n', "")];
    var lhs := WithoutNewlines((lines + [line])[Max(0, |lines| + 1 - TailLength)..]);
    var rhs := longer[Max(0, |longer| - TailLength)..];
    assert |lhs| == |rhs|;
    forall k | 0 <= k < |lhs| ensures lhs[k] == rhs[k] {
      var s := Max(0, |lines| + 1 - TailLength);
      if s + k < |lines| {
        assert (lines + [line])[s + k] == lines[s + k];
      }
    }
  }

  lemma {:induction false} LineWithoutNewline(line: string)
    requires IsLine(line)
    ensures Replace(line, '\n', "") == line[..|line| - 1]
  {
    var body := line[..|line| - 1];
    assert line == body + "\n";
    ReplaceAppend(body, "\n", '\n', "");
    ReplaceAbsent(body, '\n', "");
    ReplaceOne('\n', '\n', "");
  }

  /** After a line is appended (write_data appends ledger lines, which are
      lines by LedgerLineIsLine), the tail ends with that line without its
      newline and keeps the lines before it, at most 31 in all. */
  lemma {:induction false} TailAfterAppend(c: string, line: string)
    requires EndsLine(c) && IsLine(line)
    ensures var longer := LedgerTail(Some(c)) + [line[..|line| - 1]];
      LedgerTail(Some(c + line)) == longer[Max(0, |longer| - TailLength)..]
  {
    LinesAppend(c, line);
    LinesOfLine(line);
    LineWithoutNewline(line);
    WindowAfterAppend(Lines(c), line);
  }

  /** Appending one ledger line to a file of whole lines adds exactly that
      line; the tail then ends with it (without its newline) and the file
      still ends with a whole line. */
  lemma {:induction false} LedgerLineAppended(c: string, month: nat, day: nat, year: nat, positive: nat, negative: nat, boiler: nat)
    requires EndsLine(c)
    ensures var line := LedgerLine(month, day, year, positive, negative, boiler);
      var t := LedgerTail(Some(c + line));
      Lines(c + line) == Lines(c) + [line] && EndsLine(c + line)
      && t != [] && t[|t| - 1] == line[..|line| - 1]
  {
    var line := LedgerLine(month, day, year, positive, negative, boiler);
    LedgerLineIsLine(month, day, year, positive, negative, boiler);
    LinesAppend(c, line);
    LinesOfLine(line);
    TailAfterAppend(c, line);
    var longer := LedgerTail(Some(c)) + [line[..|line| - 1]];
    var tail := longer[Max(0, |longer| - TailLength)..];
    assert tail[|tail| - 1] == longer[|longer| - 1];
  }
}
