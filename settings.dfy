/** The settings store (Config in main/__config__.py): an ordered dictionary
    of string settings with defaults, saved to the text file setting.dat one
    "key;value" line per entry, read back line by line, merged into the
    defaults, and updated one key at a time. The file is its text contents,
    None when it does not exist (open() then raises OSError). */
module Settings {
  import opened Base
  import opened Text

  /** An ordered dictionary of strings: its entries in insertion order. */
  type Dict = seq<(string, string)>

  /** A Python dict has each key once. */
  predicate UniqueKeys(d: Dict)
  {
    forall i, j | 0 <= i < j < |d| :: d[i].0 != d[j].0
  }

  /** The keys of a dictionary, in order. */
  function Keys(d: Dict): seq<string>
  {
    seq(|d|, i requires 0 <= i < |d| => d[i].0)
  }

  /** The position of key k, -1 when the dictionary lacks it. */
  function Find(d: Dict, k: string): (i: int)
    ensures -1 <= i < |d|
    ensures i >= 0 ==> d[i].0 == k
    ensures i < 0 ==> forall j | 0 <= j < |d| :: d[j].0 != k
  {
    if d == [] then -1
    else if d[|d| - 1].0 == k then |d| - 1
    else Find(d[..|d| - 1], k)
  }

  /** d[k] = v: an existing key keeps its place and takes the new value, a new key goes last. */
  function Put(d: Dict, k: string, v: string): Dict
  {
    var i := Find(d, k);
    if i >= 0 then d[i := (k, v)] else d + [(k, v)]
  }

  /** The key of every entry of a unique-key dictionary is found at that entry. */
  lemma {:induction false} FindUnique(d: Dict, i: nat)
    requires UniqueKeys(d) && i < |d|
    ensures Find(d, d[i].0) == i
  {
    var j := Find(d, d[i].0);
    assert j >= 0;
  }

  /** Setting a key keeps the keys unique, stores the value under the key,
      and leaves every other key where it was with its value. */
  lemma {:induction false} PutStores(d: Dict, k: string, v: string)
    requires UniqueKeys(d)
    ensures var r := Put(d, k, v);
      UniqueKeys(r) && Find(r, k) >= 0 && r[Find(r, k)].1 == v
      && |r| == (if Find(d, k) >= 0 then |d| else |d| + 1)
      && forall j | 0 <= j < |d| :: r[j].0 == d[j].0 && (d[j].0 != k ==> r[j].1 == d[j].1)
  {
    var r := Put(d, k, v);
    var i := Find(d, k);
    if i >= 0 {
      assert r[i].0 == k;
    } else {
      assert r[|d|].0 == k;
    }
  }

  /** Setting a key the dictionary holds keeps its keys. */
  lemma {:induction false} PutKeys(d: Dict, k: string, v: string)
    requires Find(d, k) >= 0
    ensures Keys(Put(d, k, v)) == Keys(d)
  {
    var r := Put(d, k, v);
    assert forall j | 0 <= j < |d| :: Keys(r)[j] == Keys(d)[j];
  }

  /** Setting the last key of a unique-key dictionary on the entries before
      it rebuilds it, and those entries are unique and as clean as it is. */
  lemma {:induction false} UniqueInit(d: Dict)
    requires UniqueKeys(d) && d != []
    ensures UniqueKeys(d[..|d| - 1]) && (Clean(d) ==> Clean(d[..|d| - 1]))
    ensures Put(d[..|d| - 1], d[|d| - 1].0, d[|d| - 1].1) == d
  {
    var init, kv := d[..|d| - 1], d[|d| - 1];
    assert forall j | 0 <= j < |init| :: init[j] == d[j];
    assert forall j | 0 <= j < |init| :: init[j].0 != kv.0;
    assert Find(init, kv.0) < 0;
    assert init + [kv] == d;
  }

  /** Looking a key up in a dictionary extended by entries without that key
      finds it where it was. */
  lemma {:induction false} FindAppendMiss(s: Dict, m: Dict, k: string)
    requires forall j | 0 <= j < |m| :: m[j].0 != k
    ensures Find(s + m, k) == Find(s, k)
    decreases |m|
  {
    if m != [] {
      var sm := s + m;
      assert sm[..|sm| - 1] == s + m[..|m| - 1];
      FindAppendMiss(s, m[..|m| - 1], k);
    } else {
      assert s + m == s;
    }
  }

  // ---------------------------------------------------------------------------
  // The line format of setting.dat

  /** One line of write_setting: "%s;%s\n" % (key, value). */
  function SettingLine(k: string, v: string): string
  {
    k + ";" + v + "\n"
  }

  /** The lines write_setting builds, one per entry, in order. */
  function SettingLines(d: Dict): seq<string>
  {
    if d == [] then [] else SettingLines(d[..|d| - 1]) + [SettingLine(d[|d| - 1].0, d[|d| - 1].1)]
  }

  /** The text write_setting writes: ''.join of its lines. */
  function SettingsText(d: Dict): string
  {
    Concat(SettingLines(d))
  }

  /** One line of read_setting: strip the newlines at both ends and split at
      ';'; None unless that gives exactly a key and a value (the unpacking
      raises ValueError otherwise). */
  function ParseLine(line: string): Option<(string, string)>
  {
    var parts := Split(StripNewlines(line), ';');
    if |parts| == 2 then Some((parts[0], parts[1])) else None
  }

  /** read_setting's loop over the lines of the file: each pair is set in the
      dictionary in turn; None once a line does not split into two. */
  function ParseSettings(lines: seq<string>): Option<Dict>
  {
    if lines == [] then Some([])
    else
      match ParseSettings(lines[..|lines| - 1])
      case None => None
      case Some(d) =>
        match ParseLine(lines[|lines| - 1])
        case None => None
        case Some(kv) => Some(Put(d, kv.0, kv.1))
  }

  /** A string write_setting can store and read_setting can give back. */
  predicate Plain(s: string)
  {
    Excludes(s, ';') && Excludes(s, '\n')
  }

  /** No key and no value holds the separator or a newline. */
  predicate Clean(d: Dict)
  {
    forall i | 0 <= i < |d| :: Plain(d[i].0) && Plain(d[i].1)
  }

  /** The file as read_setting leaves it and the dictionary it returns:
      OSError for a missing file; the parsed lines; and, when a line does
      not split into two, the current settings, which it also writes back. */
  function ReadBack(file: Option<string>, data: Dict): Result<Dict>
  {
    match file
    case None => Err(OSError)
    case Some(c) =>
      match ParseSettings(Lines(c))
      case None => Ok(data)
      case Some(d) => Ok(d)
  }

  /** The settings get_config and handle_configure work from: what
      read_setting returns, or {} when it raised OSError. */
  function Stored(file: Option<string>, data: Dict): Dict
  {
    match ReadBack(file, data)
    case Err(_) => []
    case Ok(d) => d
  }

  /** read_setting falls back to the current settings: the file exists and
      one of its lines does not split into two. */
  predicate FallsBack(file: Option<string>)
  {
    file.Some? && ParseSettings(Lines(file.value)).None?
  }

  /** The current settings with every key the stored settings hold taken
      from them: the effect of get_config's merge loops. */
  function Override(d: Dict, s: Dict): (r: Dict)
    ensures |r| == |d|
  {
    seq(|d|, i requires 0 <= i < |d| => Overridden(d[i], s))
  }

  /** One entry after the merge: the stored value when s holds its key. */
  function Overridden(kv: (string, string), s: Dict): (string, string)
  {
    var k := Find(s, kv.0);
    if k >= 0 then (kv.0, s[k].1) else kv
  }

  /** The entries of d whose key s lacks, in order. */
  function Missing(s: Dict, d: Dict): Dict
  {
    if d == [] then []
    else Missing(s, d[..|d| - 1]) + (if Find(s, d[|d| - 1].0) < 0 then [d[|d| - 1]] else [])
  }

  /** The file parses and holds every key of d. */
  predicate FileHolds(file: Option<string>, d: Dict)
  {
    file.Some? && Parsed(file.value).Some?
    && forall i | 0 <= i < |d| :: HasKey(Parsed(file.value).value, d[i].0)
  }

  /** The dictionary read_setting's loop makes of a file's text. */
  function Parsed(c: string): Option<Dict>
  {
    ParseSettings(Lines(c))
  }

  /** `k in d`. */
  predicate HasKey(d: Dict, k: string)
  {
    Find(d, k) >= 0
  }

  // ---------------------------------------------------------------------------
  // Properties of the line format

  /** The text of one more entry is the text so far and its line. */
  lemma {:induction false} SettingsTextSnoc(d: Dict)
    requires d != []
    ensures SettingLines(d) == SettingLines(d[..|d| - 1]) + [SettingLine(d[|d| - 1].0, d[|d| - 1].1)]
    ensures SettingsText(d) == SettingsText(d[..|d| - 1]) + SettingLine(d[|d| - 1].0, d[|d| - 1].1)
  {
    var ls := SettingLines(d);
    assert ls[..|ls| - 1] == SettingLines(d[..|d| - 1]);
  }

  /** Concatenated lines end with a newline unless there are none. */
  lemma {:induction false} SettingsTextEndsLine(d: Dict)
    ensures EndsLine(SettingsText(d))
  {
    if d != [] {
      SettingsTextSnoc(d);
    }
  }

  /** A clean entry gives a text line. */
  lemma {:induction false} SettingLineIsLine(k: string, v: string)
    requires Excludes(k, '\n') && Excludes(v, '\n')
    ensures Excludes(k + ";" + v, '\n') && IsLine(SettingLine(k, v))
  {
    ExcludesAppend(k, ";", '\n');
    ExcludesAppend(k + ";", v, '\n');
    NewlineEnds(k + ";" + v);
  }

  /** write_setting writes exactly one line per entry, in insertion order:
      reading the file line by line gives back the lines it built. */
  lemma {:induction false} SettingsLines(d: Dict)
    requires forall i | 0 <= i < |d| :: Excludes(d[i].0, '\n') && Excludes(d[i].1, '\n')
    ensures Lines(SettingsText(d)) == SettingLines(d)
    ensures |Lines(SettingsText(d))| == |d|
    decreases |d|
  {
    if d == [] {
      assert SettingsText(d) == "";
    } else {
      var init, kv := d[..|d| - 1], d[|d| - 1];
      SettingsLines(init);
      SettingsTextEndsLine(init);
      SettingsTextSnoc(d);
      LinesAppend(SettingsText(init), SettingLine(kv.0, kv.1));
      SettingLineIsLine(kv.0, kv.1);
      LinesOfLine(SettingLine(kv.0, kv.1));
    }
  }

  /** Joining a key and a value with ';'. */
  lemma {:induction false} JoinPair(k: string, v: string)
    ensures Join([k, v], ';') == k + ";" + v
  {
    assert [k, v][1..] == [v];
  }

  /** A line written for a clean entry parses back to that entry. */
  lemma {:induction false} ParseSettingLine(k: string, v: string)
    requires Plain(k) && Plain(v)
    ensures ParseLine(SettingLine(k, v)) == Some((k, v))
  {
    var body := k + ";" + v;
    SettingLineIsLine(k, v);
    assert SettingLine(k, v) == body + "\n";
    StripLine(body);
    SplitPair(k, v);
  }

  /** A key and a value without ';' split back apart at the one ';' between them. */
  lemma {:induction false} SplitPair(k: string, v: string)
    requires Excludes(k, ';') && Excludes(v, ';')
    ensures Split(k + ";" + v, ';') == [k, v]
  {
    var parts := [k, v];
    JoinPair(k, v);
    assert forall j | 0 <= j < |parts| :: Excludes(parts[j], ';') by {
      assert parts[0] == k && parts[1] == v;
    }
    SplitJoin(parts, ';');
  }

  /** One more line: the settings so far with that line's pair set. */
  lemma {:induction false} ParseSettingsSnoc(lines: seq<string>, line: string)
    ensures ParseSettings(lines + [line]) ==
      if ParseSettings(lines).None? || ParseLine(line).None? then None
      else Some(Put(ParseSettings(lines).value, ParseLine(line).value.0, ParseLine(line).value.1))
  {
    assert (lines + [line])[..|lines|] == lines;
  }

  /** The dictionary of a list of lines is that of all but the last, with the last set in it. */
  lemma {:induction false} ParseSettingsLast(lines: seq<string>)
    requires lines != []
    ensures var init, line := lines[..|lines| - 1], lines[|lines| - 1];
      ParseSettings(lines) ==
        if ParseSettings(init).None? || ParseLine(line).None? then None
        else Some(Put(ParseSettings(init).value, ParseLine(line).value.0, ParseLine(line).value.1))
  {
  }

  /** The loop over the lines write_setting built rebuilds the dictionary. */
  lemma {:induction false} ParseSettingLines(d: Dict)
    requires UniqueKeys(d) && Clean(d)
    ensures ParseSettings(SettingLines(d)) == Some(d)
    decreases |d|
  {
    if d != [] {
      var init, kv := d[..|d| - 1], d[|d| - 1];
      UniqueInit(d);
      ParseSettingLines(init);
      SettingsTextSnoc(d);
      ParseSettingLine(kv.0, kv.1);
      ParseSettingsSnoc(SettingLines(init), SettingLine(kv.0, kv.1));
      assert ParseSettings(SettingLines(d)) == Some(Put(init, kv.0, kv.1));
    }
  }

  /** Round trip: reading back what write_setting wrote gives the same
      dictionary, in the same order, when no key or value holds ';' or a newline. */
  lemma {:induction false} SettingsRoundTrip(d: Dict)
    requires UniqueKeys(d) && Clean(d)
    ensures ParseSettings(Lines(SettingsText(d))) == Some(d)
    ensures ReadBack(Some(SettingsText(d)), d) == Ok(d)
  {
    SettingsLines(d);
    ParseSettingLines(d);
  }

  /** read_setting rejects the whole file when one of its lines does not
      split into a key and a value. */
  lemma {:induction false} ParseRejects(lines: seq<string>, j: nat)
    requires j < |lines| && ParseLine(lines[j]).None?
    ensures ParseSettings(lines).None?
  {
    assert lines[..j + 1] == lines[..j] + [lines[j]];
    ParseSettingsSnoc(lines[..j], lines[j]);
    ParseFailureSticks(lines, j + 1);
  }

  /** read_setting accepts the file when every line splits into a key and a value. */
  lemma {:induction false} ParseAccepts(lines: seq<string>)
    requires forall j | 0 <= j < |lines| :: ParseLine(lines[j]).Some?
    ensures ParseSettings(lines).Some?
    decreases |lines|
  {
    if lines != [] {
      var init := lines[..|lines| - 1];
      ParseSettingsLast(lines);
      assert forall j | 0 <= j < |init| :: init[j] == lines[j];
      ParseAccepts(init);
    }
  }

  /** A piece of a split holds no separator, nor any character its string lacks. */
  lemma {:induction false} SplitPieces(s: string, sep: char, c: char)
    requires Excludes(s, c)
    ensures forall k | 0 <= k < |Split(s, sep)| :: Excludes(Split(s, sep)[k], sep) && Excludes(Split(s, sep)[k], c)
    decreases |s|
  {
    if s != [] {
      SplitPieces(s[1..], sep, c);
      var rest := Split(s[1..], sep);
      if s[0] != sep {
        var p := [s[0]] + rest[0];
        forall i | 0 <= i < |p| ensures p[i] != sep && p[i] != c {
          if i > 0 {
            assert p[i] == rest[0][i - 1];
          }
        }
      }
    }
  }

  /** What is left of a string after its trailing c are removed ends in another character. */
  lemma {:induction false} TrimEndLast(s: string, c: char)
    ensures TrimEnd(s, c) == [] || TrimEnd(s, c)[|TrimEnd(s, c)| - 1] != c
    decreases |s|
  {
    if s != [] && s[|s| - 1] == c {
      TrimEndLast(s[..|s| - 1], c);
    }
  }

  /** No newline but perhaps the last character: a line as a text file yields it. */
  predicate InnerPlain(s: string)
  {
    forall i | 0 <= i < |s| - 1 :: s[i] != '\n'
  }

  /** Stripping a line of its newlines leaves no newline. */
  lemma {:induction false} StripLeavesNoNewline(s: string)
    requires InnerPlain(s)
    ensures Excludes(StripNewlines(s), '\n')
  {
    var t := TrimStart(s, '\n');
    var r := TrimEnd(t, '\n');
    InnerPlainSuffix(s, |s| - |t|);
    InnerPlainPrefix(t, |r|);
    TrimEndLast(t, '\n');
  }

  /** A suffix of a string with no inner newline has none. */
  lemma {:induction false} InnerPlainSuffix(s: string, k: nat)
    requires InnerPlain(s) && k <= |s|
    ensures InnerPlain(s[k..])
  {
    var t := s[k..];
    forall i | 0 <= i < |t| - 1 ensures t[i] != '\n' {
      assert t[i] == s[k + i];
    }
  }

  /** A prefix of a string with no inner newline has none. */
  lemma {:induction false} InnerPlainPrefix(s: string, k: nat)
    requires InnerPlain(s) && k <= |s|
    ensures InnerPlain(s[..k])
  {
    var t := s[..k];
    forall i | 0 <= i < |t| - 1 ensures t[i] != '\n' {
      assert t[i] == s[i];
    }
  }

  /** The key and the value of a line of a text file hold neither ';' nor a newline. */
  lemma {:induction false} ParseLineClean(line: string)
    requires InnerPlain(line)
    requires ParseLine(line).Some?
    ensures Plain(ParseLine(line).value.0) && Plain(ParseLine(line).value.1)
  {
    StripLeavesNoNewline(line);
    var parts := Split(StripNewlines(line), ';');
    SplitPieces(StripNewlines(line), ';', '\n');
    assert Excludes(parts[0], ';') && Excludes(parts[1], ';');
  }

  /** Setting a plain key to a plain value keeps a dictionary clean. */
  lemma {:induction false} PutClean(d: Dict, k: string, v: string)
    requires Clean(d) && Plain(k) && Plain(v)
    ensures Clean(Put(d, k, v))
  {
    var r := Put(d, k, v);
    forall i | 0 <= i < |r| ensures Plain(r[i].0) && Plain(r[i].1) {
      if i == |d| || i == Find(d, k) {
        assert r[i] == (k, v);
      } else {
        assert r[i] == d[i];
      }
    }
  }

  /** Every dictionary read_setting parses from a file's lines has unique
      keys and neither separators nor newlines in its keys and values. */
  lemma {:induction false} ParsedIsClean(lines: seq<string>)
    requires forall j | 0 <= j < |lines| :: InnerPlain(lines[j])
    requires ParseSettings(lines).Some?
    ensures UniqueKeys(ParseSettings(lines).value) && Clean(ParseSettings(lines).value)
    decreases |lines|
  {
    if lines != [] {
      var init, line := lines[..|lines| - 1], lines[|lines| - 1];
      ParseSettingsLast(lines);
      assert forall j | 0 <= j < |init| :: init[j] == lines[j];
      ParsedIsClean(init);
      var d := ParseSettings(init).value;
      ParseLineClean(line);
      var kv := ParseLine(line).value;
      PutKeepsClean(d, kv.0, kv.1);
    }
  }

  /** Setting a plain key to a plain value keeps a dictionary unique and clean. */
  lemma {:induction false} PutKeepsClean(d: Dict, k: string, v: string)
    requires UniqueKeys(d) && Clean(d) && Plain(k) && Plain(v)
    ensures UniqueKeys(Put(d, k, v)) && Clean(Put(d, k, v))
  {
    PutStores(d, k, v);
    PutClean(d, k, v);
  }

  /** The dictionary of a readable file is unique and clean. */
  lemma {:induction false} FileIsClean(c: string)
    requires ParseSettings(Lines(c)).Some?
    ensures UniqueKeys(ParseSettings(Lines(c)).value) && Clean(ParseSettings(Lines(c)).value)
  {
    LinesShape(c);
    ParsedIsClean(Lines(c));
  }

  /** The stored settings are unique, and clean when the current ones are. */
  lemma {:induction false} StoredIsClean(file: Option<string>, data: Dict)
    requires UniqueKeys(data)
    ensures UniqueKeys(Stored(file, data))
    ensures Clean(data) ==> Clean(Stored(file, data))
  {
    if file.Some? && ParseSettings(Lines(file.value)).Some? {
      FileIsClean(file.value);
    }
  }

  // ---------------------------------------------------------------------------
  // Properties of the merge

  /** The missing entries after one more entry of d. */
  lemma {:induction false} MissingSnoc(s: Dict, d: Dict)
    requires d != []
    ensures Missing(s, d) == Missing(s, d[..|d| - 1]) + if Find(s, d[|d| - 1].0) < 0 then [d[|d| - 1]] else []
  {
  }

  /** Each missing entry is an entry of d whose key s lacks. */
  lemma {:induction false} MissingFrom(s: Dict, d: Dict)
    requires UniqueKeys(d)
    ensures forall j | 0 <= j < |Missing(s, d)| ::
      Find(s, Missing(s, d)[j].0) < 0 && Find(d, Missing(s, d)[j].0) >= 0
      && Missing(s, d)[j] == d[Find(d, Missing(s, d)[j].0)]
    decreases |d|
  {
    if d != [] {
      var init, kv := d[..|d| - 1], d[|d| - 1];
      var m, m0 := Missing(s, d), Missing(s, init);
      MissingSnoc(s, d);
      MissingFrom(s, init);
      forall j | 0 <= j < |m|
        ensures Find(s, m[j].0) < 0 && Find(d, m[j].0) >= 0 && m[j] == d[Find(d, m[j].0)]
      {
        if j < |m0| {
          var x := Find(init, m0[j].0);
          assert m[j] == m0[j] == init[x] == d[x];
          FindUnique(d, x);
        } else {
          assert m[j] == kv;
          FindUnique(d, |d| - 1);
        }
      }
    }
  }

  /** The missing entries of a unique-key dictionary have unique keys. */
  lemma {:induction false} MissingUnique(s: Dict, d: Dict)
    requires UniqueKeys(d)
    ensures UniqueKeys(Missing(s, d))
    decreases |d|
  {
    if d != [] {
      var init, kv := d[..|d| - 1], d[|d| - 1];
      var m, m0 := Missing(s, d), Missing(s, init);
      MissingSnoc(s, d);
      MissingUnique(s, init);
      MissingFrom(s, init);
      forall a, b | 0 <= a < b < |m| ensures m[a].0 != m[b].0 {
        if b == |m0| {
          var x := Find(init, m0[a].0);
          assert m[a] == init[x] == d[x] && m[b] == d[|d| - 1];
        } else {
          assert m[a] == m0[a] && m[b] == m0[b];
        }
      }
    }
  }

  /** Every key of d is in s or among the missing entries. */
  lemma {:induction false} MissingCovers(s: Dict, d: Dict)
    ensures forall i | 0 <= i < |d| :: Find(s, d[i].0) >= 0 || Find(Missing(s, d), d[i].0) >= 0
    decreases |d|
  {
    if d != [] {
      var init, kv := d[..|d| - 1], d[|d| - 1];
      var m, m0 := Missing(s, d), Missing(s, init);
      MissingSnoc(s, d);
      MissingCovers(s, init);
      forall i | 0 <= i < |d| ensures Find(s, d[i].0) >= 0 || Find(m, d[i].0) >= 0 {
        if i < |d| - 1 {
          assert init[i] == d[i];
          if Find(s, d[i].0) < 0 {
            var x := Find(m0, d[i].0);
            assert m[x] == m0[x];
          }
        } else if Find(s, kv.0) < 0 {
          assert m[|m0|] == kv;
        }
      }
    }
  }

  /** The stored settings extended by the missing defaults keep unique keys. */
  lemma {:induction false} ExtendedUnique(s: Dict, d: Dict)
    requires UniqueKeys(s) && UniqueKeys(d)
    ensures UniqueKeys(s + Missing(s, d))
  {
    var m := Missing(s, d);
    var e := s + m;
    MissingFrom(s, d);
    MissingUnique(s, d);
    forall i, j | 0 <= i < j < |e| ensures e[i].0 != e[j].0 {
      if j >= |s| && i < |s| {
        assert e[j] == m[j - |s|];
        assert e[i] == s[i];
      } else if i >= |s| {
        assert e[i] == m[i - |s|] && e[j] == m[j - |s|];
      }
    }
  }

  /** The stored settings extended by the missing defaults stay clean when both are. */
  lemma {:induction false} ExtendedClean(s: Dict, d: Dict)
    requires UniqueKeys(d) && Clean(s) && Clean(d)
    ensures Clean(s + Missing(s, d))
  {
    var m := Missing(s, d);
    var e := s + m;
    MissingFrom(s, d);
    forall i | 0 <= i < |e| ensures Plain(e[i].0) && Plain(e[i].1) {
      if i >= |s| {
        var k := Find(d, m[i - |s|].0);
        assert e[i] == m[i - |s|] == d[k];
      } else {
        assert e[i] == s[i];
      }
    }
  }

  /** The file written from the stored settings extended by the missing
      defaults reads back whole and holds every key of the defaults. */
  lemma {:induction false} ExtendedFileHolds(s: Dict, d: Dict)
    requires UniqueKeys(s) && UniqueKeys(d) && Clean(s) && Clean(d)
    ensures FileHolds(Some(SettingsText(s + Missing(s, d))), d)
  {
    var m := Missing(s, d);
    var e := s + m;
    ExtendedUnique(s, d);
    ExtendedClean(s, d);
    SettingsRoundTrip(e);
    MissingCovers(s, d);
    forall i | 0 <= i < |d| ensures Find(e, d[i].0) >= 0 {
      if Find(s, d[i].0) >= 0 {
        assert e[Find(s, d[i].0)] == s[Find(s, d[i].0)];
      } else {
        var j := Find(m, d[i].0);
        assert e[|s| + j] == m[j];
      }
    }
  }

  /** Overriding changes no key and keeps the keys unique; a clean dictionary
      overridden from a clean one stays clean. */
  lemma {:induction false} OverrideKeeps(d: Dict, s: Dict)
    requires UniqueKeys(d)
    ensures forall i | 0 <= i < |d| :: Override(d, s)[i].0 == d[i].0
    ensures Keys(Override(d, s)) == Keys(d)
    ensures UniqueKeys(Override(d, s))
    ensures Clean(d) && Clean(s) ==> Clean(Override(d, s))
  {
  }

  /** After the merge, a key of d that s holds carries the value s gives it;
      any other keeps its value. */
  lemma {:induction false} OverrideValue(d: Dict, s: Dict, k: string)
    requires UniqueKeys(d) && Find(d, k) >= 0
    ensures var r := Override(d, s);
      Find(r, k) == Find(d, k)
      && r[Find(r, k)].1 == (if Find(s, k) >= 0 then s[Find(s, k)].1 else d[Find(d, k)].1)
  {
    OverrideKeeps(d, s);
    var i := Find(d, k);
    FindUnique(Override(d, s), i);
  }

  /** Overriding from the dictionary itself changes nothing. */
  lemma {:induction false} OverrideSelf(d: Dict)
    requires UniqueKeys(d)
    ensures Override(d, d) == d
  {
    forall i | 0 <= i < |d| ensures Override(d, d)[i] == d[i] {
      FindUnique(d, i);
    }
  }

  // ---------------------------------------------------------------------------
  // The store

  /** What handle_configure returns: Some(True), Some(False), or None when
      it falls off the end. */
  type Answer = Option<bool>

  const SettingProfile: string := "setting.dat"

  /** The defaults of the constructor, in their insertion order. */
  const Defaults: Dict := [
    ("txt,ACTUAL SW VERSION", "0"),
    ("sw,AUTOMATIC UPDATE", "1"), ("sw,TESTING SOFTWARE", "0"), ("sw,Wi-Fi AP", "1"), ("sw,AC IN ACTIVE: HIGH", "0"),
    ("bt,RESET PV-ROUTER", "0"), ("btn,BOOST-MODE", "0"),
    ("in,OVERFLOW-OFFSET", "100"), ("in,TUV-VOLUME", "200"), ("in,TUV-POWER", "2200"), ("in,NIGHT-BOOST", "64800"),
    ("in,NIGHT-TEMPERATURE", "55"), ("in,MORNING-BOOST", "21600"), ("in,MORNING-TEMPERATURE", "40"),
    ("in,BOOST-TIMEOUT", "120"), ("in,TIME-ZONE", "2"), ("in,STOP-SOC", "70"),
    ("in,POWER-RELAY", "1000"), ("in,TIMEOUT-RELAY", "10"), ("in,RELAY-LOAD", "2000"),
    ("bti,INVERTER-TYPE", "0"), ("INVERTER_IP_ADDR", "0"),
    ("BOOST", "0"), ("ERRORS", "0"), ("ID", "0"), ("TYPE", "3")]

  class Config {
    /** self.data: the current settings. */
    var data: Dict
    /** The contents of setting.dat. */
    var file: Option<string>

    predicate Valid()
      reads this
    {
      UniqueKeys(data)
    }

    /** The defaults, over an existing settings file. The constructor's
        handle_configure of the software version is a separate call here
        (HandleConfigure("txt,ACTUAL SW VERSION", version)). */
    constructor(file: Option<string>)
      ensures data == Defaults && this.file == file
    {
      data := Defaults;
      this.file := file;
    }

    /** write_setting: the file becomes one "key;value" line per entry. */
    method WriteSetting(setting: Dict)
      modifies this`file
      ensures file == Some(SettingsText(setting))
    {
      var lines: seq<string> := [];
      for i := 0 to |setting|
        invariant lines == SettingLines(setting[..i])
      {
        assert setting[..i + 1][..i] == setting[..i];
        var (variable, value) := setting[i];
        lines := lines + [SettingLine(variable, value)];
      }
      assert setting[..|setting|] == setting;
      file := Some(Concat(lines));
    }

    /** read_setting: the parsed file; OSError for a missing file; and, when
        a line does not split into a key and a value, the current settings
        themselves (aliased: a later change to the result changes them),
        written back to the file. */
    method ReadSetting() returns (setting: Result<Dict>, aliased: bool)
      modifies this`file
      ensures setting == ReadBack(old(file), data)
      ensures aliased == FallsBack(old(file))
      ensures file == if aliased then Some(SettingsText(data)) else old(file)
    {
      if file.None? {
        return Err(OSError), false;
      }
      var lines := Lines(file.value);
      var parsed: Dict := [];
      for i := 0 to |lines|
        invariant ParseSettings(lines[..i]) == Some(parsed)
        invariant file == old(file)
      {
        var parts := Split(StripNewlines(lines[i]), ';');
        ReadStep(lines, i, parsed);
        if |parts| != 2 {
          WriteSetting(data);
          return Ok(data), true;
        }
        parsed := Put(parsed, parts[0], parts[1]);
      }
      assert lines[..|lines|] == lines;
      return Ok(parsed), false;
    }

    /** The first merge loop of get_config: every key the stored settings
        hold takes their value. */
    method Merge(setting: Dict)
      modifies this`data
      ensures data == Override(old(data), setting)
    {
      var i := 0;
      while i < |data|
        invariant OverriddenUpTo(data, old(data), setting, i)
      {
        var (variable, value) := data[i];
        OverrideAdvance(data, old(data), setting, i);
        var k := Find(setting, variable);
        if k >= 0 && value != setting[k].1 {
          data := data[i := (variable, setting[k].1)];
        } else {
          assert data[i := Overridden(old(data)[i], setting)] == data;
        }
        i := i + 1;
      }
      OverriddenAll(data, old(data), setting);
    }

    /** The second merge loop of get_config: a key the settings hold takes
        their value; a key they lack is added to them from the current
        settings and the settings are written out. */
    method Absorb(setting: Dict) returns (extended: Dict)
      requires Valid()
      modifies this`data, this`file
      ensures data == Override(old(data), setting)
      ensures extended == setting + Missing(setting, old(data))
      ensures file == if Missing(setting, old(data)) == [] then old(file) else Some(SettingsText(extended))
    {
      ghost var start := data;
      extended := setting;
      var i := 0;
      while i < |data|
        invariant OverriddenUpTo(data, start, setting, i)
        invariant AbsorbedUpTo(file, old(file), extended, setting, start, i)
      {
        var (variable, value) := data[i];
        AbsorbStep(setting, start, i);
        OverrideAdvance(data, start, setting, i);
        var k := Find(extended, variable);
        if k >= 0 {
          KeepMissing(file, old(file), extended, setting, start, i);
          assert extended[k] == setting[k];
          if value != extended[k].1 {
            data := data[i := (variable, extended[k].1)];
          } else {
            assert data[i := Overridden(start[i], setting)] == data;
          }
        } else {
          AddMissing(extended, setting, start, i);
          assert data[i := Overridden(start[i], setting)] == data;
          extended := Put(extended, variable, value);
          WriteSetting(extended);
        }
        i := i + 1;
      }
      assert start[..i] == start;
      OverriddenAll(data, start, setting);
      assert start[..i] == start;
    }

    /** get_config, up to the generation of a random ID: read the stored
        settings ({} when the file is missing); when their count differs,
        empty the file, merge them and start again from {}; then merge and
        add every missing key, writing the file after each. */
    method GetConfig() returns (config: Dict)
      requires Valid()
      modifies this
      ensures Valid() && config == data
      ensures data == Override(old(data), Stored(old(file), old(data)))
      ensures Keys(data) == Keys(old(data))
      ensures Clean(old(data)) && old(data) != [] ==> FileHolds(file, data)
    {
      var read, aliased := ReadSetting();
      var setting: Dict := if read.Ok? then read.value else [];
      ghost var stored := setting;
      ghost var start := data;
      assert stored == Stored(old(file), start);
      StoredIsClean(old(file), start);
      OverrideKeeps(start, stored);
      if |setting| != |data| {
        file := Some("");
        Merge(setting);
        setting := [];
        var extended := Absorb(setting);
        ghost var merged := Override(start, stored);
        MissingNone(merged);
        OverrideNothing(merged);
        assert data == merged && extended == merged by {
          assert [] + merged == merged;
        }
        if Clean(start) && start != [] {
          assert file == Some(SettingsText(merged));
          RoundTripHolds(merged);
        }
      } else {
        var extended := Absorb(setting);
        if Clean(start) && start != [] {
          AbsorbedFileHolds(old(file), start);
        }
      }
      config := data;
    }

    /** handle_configure: with a non-empty name, read the stored settings
        ({} when the file is missing); an unknown name raises KeyError,
        answered False; an unchanged value falls through, answered None; a
        changed one is stored, written out, merged by get_config and
        answered True. An empty name is answered False. */
    method HandleConfigure(variable: string, value: string) returns (r: Answer)
      requires Valid()
      modifies this
      ensures Valid()
      ensures variable == [] ==> r == Some(false) && data == old(data) && file == old(file)
      ensures variable != [] ==>
        var s := Stored(old(file), old(data));
        var k := Find(s, variable);
        (k < 0 ==> r == Some(false))
        && (k >= 0 && s[k].1 == value ==> r == None)
        && (k >= 0 && s[k].1 != value ==> r == Some(true))
      ensures r != Some(true) ==> data == old(data)
      ensures Keys(data) == Keys(old(data))
      ensures r == Some(true) && Clean(old(data)) && Plain(value) && Find(old(data), variable) >= 0 ==>
        var i := Find(data, variable); i >= 0 && data[i].1 == value && FileHolds(file, data)
    {
      if |variable| == 0 {
        return Some(false);
      }
      var read, aliased := ReadSetting();
      var setting: Dict := if read.Ok? then read.value else [];
      StoredIsClean(old(file), old(data));
      var k := Find(setting, variable);
      if k < 0 {
        return Some(false);
      }
      if setting[k].1 == value {
        return None;
      }
      ghost var stored := setting;
      setting := Put(setting, variable, value);
      PutStores(stored, variable, value);
      if aliased {
        assert stored == old(data);
        PutKeys(stored, variable, value);
        data := setting;
      }
      ghost var written := data;
      WriteSetting(setting);
      ghost var merged := Stored(file, written);
      ghost var keeps := Clean(written) && written != [];
      var _ := GetConfig();
      assert keeps ==> FileHolds(file, data);
      assert data == Override(written, merged);
      OverrideKeeps(written, merged);
      assert Keys(written) == Keys(old(data));
      assert Keys(data) == Keys(old(data));
      if Clean(old(data)) && Plain(value) && Find(old(data), variable) >= 0 {
        assert Plain(variable) by {
          assert stored[k].0 == variable;
        }
        PutClean(stored, variable, value);
        assert Clean(written) && Find(written, variable) >= 0;
        assert keeps;
        ConfiguredValue(written, stored, variable, value);
      }
      return Some(true);
    }
  }

  /** The key at position i of a unique-key dictionary is looked up in the
      stored settings extended by the entries before i as in the stored settings alone. */
  lemma {:induction false} NewKey(s: Dict, d: Dict, i: nat)
    requires UniqueKeys(d) && i < |d|
    ensures Find(s + Missing(s, d[..i]), d[i].0) == Find(s, d[i].0)
  {
    var p := d[..i];
    assert UniqueKeys(p) by {
      forall a, b | 0 <= a < b < |p| ensures p[a].0 != p[b].0 {
        assert p[a] == d[a] && p[b] == d[b];
      }
    }
    var m := Missing(s, p);
    MissingFrom(s, p);
    forall j | 0 <= j < |m| ensures m[j].0 != d[i].0 {
      var x := Find(p, m[j].0);
      assert m[j] == p[x] == d[x];
    }
    FindAppendMiss(s, m, d[i].0);
  }

  /** One iteration of the second merge loop: the entry at i is looked up
      as in the stored settings, and is missing from them exactly when it is
      added. */
  lemma {:induction false} AbsorbStep(s: Dict, d: Dict, i: nat)
    requires UniqueKeys(d) && i < |d|
    ensures Find(s + Missing(s, d[..i]), d[i].0) == Find(s, d[i].0)
    ensures Missing(s, d[..i + 1]) == Missing(s, d[..i]) + if Find(s, d[i].0) < 0 then [d[i]] else []
  {
    NewKey(s, d, i);
    assert d[..i + 1][..i] == d[..i];
    MissingSnoc(s, d[..i + 1]);
  }

  /** One turn of read_setting's loop: a line that does not split into two
      makes the whole file unreadable; one that does is set in turn. */
  lemma ReadStep(lines: seq<string>, i: nat, parsed: Dict)
    requires i < |lines| && ParseSettings(lines[..i]) == Some(parsed)
    ensures var parts := Split(StripNewlines(lines[i]), ';');
      if |parts| != 2 then ParseSettings(lines).None?
      else ParseSettings(lines[..i + 1]) == Some(Put(parsed, parts[0], parts[1]))
  {
    assert lines[..i + 1] == lines[..i] + [lines[i]];
    ParseSettingsSnoc(lines[..i], lines[i]);
    if ParseLine(lines[i]).None? {
      ParseFailureSticks(lines, i + 1);
    }
  }

  /** A failing line fails every longer list of lines. */
  lemma {:induction false} ParseFailureSticks(lines: seq<string>, j: nat)
    requires j <= |lines| && ParseSettings(lines[..j]).None?
    ensures ParseSettings(lines).None?
    decreases |lines| - j
  {
    if j < |lines| {
      assert lines[..j + 1] == lines[..j] + [lines[j]];
      ParseSettingsSnoc(lines[..j], lines[j]);
      ParseFailureSticks(lines, j + 1);
    } else {
      assert lines[..j] == lines;
    }
  }

  /** Nothing is missing from a dictionary's own keys. */
  lemma {:induction false} MissingNone(d: Dict)
    ensures Missing([], d) == d
    decreases |d|
  {
    if d != [] {
      MissingNone(d[..|d| - 1]);
      assert d[..|d| - 1] + [d[|d| - 1]] == d;
    }
  }

  /** When the stored settings are as many as the current ones, the file
      get_config leaves behind (the one read_setting left, or the stored
      settings extended by the missing keys) reads back whole and holds
      every key of the merged settings. */
  lemma {:induction false} AbsorbedFileHolds(file: Option<string>, d: Dict)
    requires UniqueKeys(d) && Clean(d) && d != []
    requires |Stored(file, d)| == |d|
    ensures var s := Stored(file, d);
      var read := if FallsBack(file) then Some(SettingsText(d)) else file;
      FileHolds(if Missing(s, d) == [] then read else Some(SettingsText(s + Missing(s, d))), Override(d, s))
  {
    var s := Stored(file, d);
    var read := if FallsBack(file) then Some(SettingsText(d)) else file;
    var left := if Missing(s, d) == [] then read else Some(SettingsText(s + Missing(s, d)));
    StoredIsClean(file, d);
    if Missing(s, d) != [] {
      ExtendedFileHolds(s, d);
    } else if FallsBack(file) {
      RoundTripHolds(d);
    } else {
      assert file.Some? && ParseSettings(Lines(file.value)) == Some(s);
      MissingCovers(s, d);
      forall i | 0 <= i < |d| ensures Find(s, d[i].0) >= 0 {
        assert Find(Missing(s, d), d[i].0) < 0;
      }
    }
    assert FileHolds(left, d);
    OverrideKeeps(d, s);
    SameKeysHold(left, d, Override(d, s));
  }

  /** After handle_configure has set k to v in the stored settings s and
      get_config has merged the written file into the settings w, k carries v. */
  lemma {:induction false} ConfiguredValue(w: Dict, s: Dict, k: string, v: string)
    requires UniqueKeys(w) && UniqueKeys(s) && Clean(s) && Plain(k) && Plain(v)
    requires Find(w, k) >= 0
    ensures var r := Override(w, Stored(Some(SettingsText(Put(s, k, v))), w));
      Find(r, k) >= 0 && r[Find(r, k)].1 == v
  {
    var t := Put(s, k, v);
    PutStores(s, k, v);
    PutClean(s, k, v);
    SettingsRoundTrip(t);
    assert Stored(Some(SettingsText(t)), w) == t;
    OverrideValue(w, t, k);
  }

  /** The state of a merge loop after i entries: those before i merged from
      s, the rest as they started. */
  predicate OverriddenUpTo(d: Dict, start: Dict, s: Dict, i: int)
  {
    |d| == |start| && 0 <= i <= |d|
    && (forall j | 0 <= j < i :: d[j] == Overridden(start[j], s))
    && (forall j | i <= j < |d| :: d[j] == start[j])
  }

  /** The state of the second merge loop of get_config after i entries of
      d: the stored settings s extended by the entries before i that s lacks,
      and the file written from them after each addition. */
  predicate AbsorbedUpTo(file: Option<string>, file0: Option<string>, extended: Dict, s: Dict, d: Dict, i: int)
    requires 0 <= i <= |d|
  {
    extended == s + Missing(s, d[..i])
    && file == if Missing(s, d[..i]) == [] then file0 else Some(SettingsText(extended))
  }

  /** An entry whose key the stored settings hold adds nothing. */
  lemma {:induction false} KeepMissing(file: Option<string>, file0: Option<string>, extended: Dict, s: Dict, d: Dict, i: int)
    requires UniqueKeys(d) && 0 <= i < |d| && Find(s, d[i].0) >= 0
    requires AbsorbedUpTo(file, file0, extended, s, d, i)
    ensures AbsorbedUpTo(file, file0, extended, s, d, i + 1)
  {
    AbsorbStep(s, d, i);
    assert Missing(s, d[..i + 1]) == Missing(s, d[..i]);
  }

  /** An entry whose key the stored settings lack is added after the others. */
  lemma {:induction false} AddMissing(extended: Dict, s: Dict, d: Dict, i: int)
    requires UniqueKeys(d) && 0 <= i < |d| && Find(s, d[i].0) < 0
    requires extended == s + Missing(s, d[..i])
    ensures Put(extended, d[i].0, d[i].1) == s + Missing(s, d[..i + 1])
    ensures Missing(s, d[..i + 1]) != []
  {
    AbsorbStep(s, d, i);
    var m := Missing(s, d[..i]);
    assert Find(extended, d[i].0) < 0;
    assert (s + m) + [d[i]] == s + (m + [d[i]]);
  }

  /** Merging the entry at i advances a merge loop. */
  lemma {:induction false} OverrideAdvance(d: Dict, start: Dict, s: Dict, i: int)
    requires OverriddenUpTo(d, start, s, i) && i < |d|
    ensures d[i] == start[i]
    ensures OverriddenUpTo(d[i := Overridden(start[i], s)], start, s, i + 1)
  {
  }

  /** A merge loop that has gone through every entry has computed Override. */
  lemma {:induction false} OverriddenAll(d: Dict, start: Dict, s: Dict)
    requires OverriddenUpTo(d, start, s, |d|)
    ensures d == Override(start, s)
  {
  }

  /** Overriding from no settings changes nothing. */
  lemma {:induction false} OverrideNothing(d: Dict)
    ensures Override(d, []) == d
  {
    forall i | 0 <= i < |d| ensures Override(d, [])[i] == d[i] {
      assert Find([], d[i].0) < 0;
    }
  }

  /** The file written from a unique, clean dictionary holds its keys. */
  lemma {:induction false} RoundTripHolds(d: Dict)
    requires UniqueKeys(d) && Clean(d)
    ensures FileHolds(Some(SettingsText(d)), d)
  {
    SettingsRoundTrip(d);
    forall i | 0 <= i < |d| ensures Find(d, d[i].0) >= 0 {
      FindUnique(d, i);
    }
  }

  /** A file that holds the keys of d holds those of any dictionary with the same keys. */
  lemma {:induction false} SameKeysHold(file: Option<string>, d: Dict, e: Dict)
    requires FileHolds(file, d)
    requires |d| == |e| && forall i | 0 <= i < |d| :: e[i].0 == d[i].0
    ensures FileHolds(file, e)
  {
    var p := ParseSettings(Lines(file.value)).value;
    forall i | 0 <= i < |e| ensures Find(p, e[i].0) >= 0 {
      assert e[i].0 == d[i].0;
    }
  }
}
