/** The settings store of client/storage.py: `key value` lines loaded into a
    dictionary of value lists, space-separated field validation, float conversion,
    `key:value` profile records, and the line rewriting of save. The settings file is
    the string `content`; Python's `float` is the parameter `toFloat`. */
module Storage {
  import opened Common

  // ---------------------------------------------------------------------------
  // load

  /** A line load reads rather than skips: not empty and not a comment once stripped. */
  predicate Kept(line: string) {
    var l := Strip(line);
    l != "" && !StartsWith(l, "#")
  }

  /** How load treats one line of the file. */
  datatype LineKind =
    | Skipped                              // empty or a comment once stripped
    | Malformed                            // `line.split(" ", 1)` yields one part: ValueError
    | Setting(key: string, value: string)  // the lowered key and the rest of the line

  /** `key, value = line.split(" ", 1)` on the stripped line, with the key lowered. */
  function Classify(line: string): (k: LineKind)
    ensures k.Skipped? <==> !Kept(line)
    ensures k.Malformed? <==> Kept(line) && ' ' !in Strip(line)
    ensures k.Setting? ==> exists head :: Strip(line) == head + [' '] + k.value && ' ' !in head && k.key == ToLower(head)
  {
    if !Kept(line) then Skipped
    else match SplitOnce(Strip(line), ' ')
      case None => Malformed
      case Some((key, value)) => Setting(ToLower(key), value)
  }

  /** The classification of every line. */
  function Kinds(lines: seq<string>): (r: seq<LineKind>)
    ensures |r| == |lines| && forall i :: 0 <= i < |lines| ==> r[i] == Classify(lines[i])
  {
    seq(|lines|, i requires 0 <= i < |lines| => Classify(lines[i]))
  }

  /** The value list of key, empty when the key is absent. */
  function Get(m: map<string, seq<string>>, key: string): seq<string> {
    if key in m then m[key] else []
  }

  /** Appending to the list of a key, creating it on a KeyError. */
  function AddEntry(m: map<string, seq<string>>, key: string, value: string): (r: map<string, seq<string>>)
    ensures r.Keys == m.Keys + {key}
    ensures Get(r, key) == Get(m, key) + [value]
    ensures forall k :: k != key ==> Get(r, k) == Get(m, k)
  {
    m[key := Get(m, key) + [value]]
  }

  /** The loop of Storage.load from entries m over the remaining lines, classified: the
      final dictionary, and ValueError at the first malformed line, with the entries
      gathered before it. */
  function LoadFrom(m: map<string, seq<string>>, kinds: seq<LineKind>): (map<string, seq<string>>, Outcome)
    decreases |kinds|
  {
    if |kinds| == 0 then (m, Pass)
    else match kinds[0]
      case Skipped => LoadFrom(m, kinds[1..])
      case Malformed => (m, Fail(ValueError))
      case Setting(key, value) => LoadFrom(AddEntry(m, key, value), kinds[1..])
  }

  /** The lines of the settings file. */
  function Lines(content: string): seq<string> {
    Split(content, '\n')
  }

  /** What load makes of the whole file. */
  function Loaded(content: string): (map<string, seq<string>>, Outcome) {
    LoadFrom(map[], Kinds(Lines(content)))
  }

  /** The values filed under key in the lines, in file order. */
  function ValuesFor(kinds: seq<LineKind>, key: string): seq<string>
    decreases |kinds|
  {
    if |kinds| == 0 then []
    else (if kinds[0].Setting? && kinds[0].key == key then [kinds[0].value] else []) + ValuesFor(kinds[1..], key)
  }

  /** Every key maps to a non-empty list. */
  predicate NonEmptyLists(m: map<string, seq<string>>) {
    forall k :: k in m ==> m[k] != []
  }

  /** load raises exactly when some line is malformed, and the error is ValueError. */
  lemma {:induction false} LoadFails(m: map<string, seq<string>>, kinds: seq<LineKind>)
    ensures LoadFrom(m, kinds).1.Pass? <==> forall i :: 0 <= i < |kinds| ==> !kinds[i].Malformed?
    ensures LoadFrom(m, kinds).1.Fail? ==> LoadFrom(m, kinds).1.error == ValueError
    decreases |kinds|
  {
    if |kinds| > 0 {
      assert forall i :: 1 <= i < |kinds| ==> kinds[i] == kinds[1..][i - 1];
      match kinds[0]
      case Skipped => LoadFails(m, kinds[1..]);
      case Malformed =>
      case Setting(key, value) => LoadFails(AddEntry(m, key, value), kinds[1..]);
    }
  }

  /** A load that succeeds files under every key exactly the values of the lines with
      that key, in file order, after what was there. */
  lemma {:induction false} LoadCollects(m: map<string, seq<string>>, kinds: seq<LineKind>, key: string)
    requires LoadFrom(m, kinds).1.Pass?
    ensures Get(LoadFrom(m, kinds).0, key) == Get(m, key) + ValuesFor(kinds, key)
    decreases |kinds|
  {
    if |kinds| > 0 {
      match kinds[0]
      case Skipped => LoadCollects(m, kinds[1..], key);
      case Setting(k, v) =>
        LoadCollects(AddEntry(m, k, v), kinds[1..], key);
        if k == key {
          assert ValuesFor(kinds, key) == [v] + ValuesFor(kinds[1..], key);
        }
    }
  }

  /** The lists load builds are never empty, and no key is lost. */
  lemma {:induction false} LoadKeys(m: map<string, seq<string>>, kinds: seq<LineKind>)
    requires NonEmptyLists(m)
    ensures NonEmptyLists(LoadFrom(m, kinds).0)
    ensures LoadFrom(m, kinds).0.Keys >= m.Keys
    decreases |kinds|
  {
    if |kinds| > 0 {
      match kinds[0]
      case Skipped => LoadKeys(m, kinds[1..]);
      case Malformed =>
      case Setting(k, v) => LoadKeys(AddEntry(m, k, v), kinds[1..]);
    }
  }

  /** After a successful load, key is present exactly when some line is filed under
      it, and then holds those lines' values in file order. */
  lemma LoadedEntries(content: string, key: string)
    requires Loaded(content).1.Pass?
    ensures var m := Loaded(content).0;
      var values := ValuesFor(Kinds(Lines(content)), key);
      (key in m <==> values != []) && (key in m ==> m[key] == values)
  {
    LoadCollects(map[], Kinds(Lines(content)), key);
    LoadKeys(map[], Kinds(Lines(content)));
  }

  // ---------------------------------------------------------------------------
  // _getVal and _getNumeric

  /** Each value split on single spaces, None as soon as one has other than n fields. */
  function SplitFields(values: seq<string>, n: int): (r: Option<seq<seq<string>>>)
    ensures r.None? <==> exists i :: 0 <= i < |values| && |Split(values[i], ' ')| != n
    ensures r.Some? ==>
      |r.value| == |values| &&
      forall i :: 0 <= i < |values| ==> r.value[i] == Split(values[i], ' ') && |r.value[i]| == n
  {
    if |values| == 0 then Some([])
    else
      var fields := Split(values[0], ' ');
      if |fields| != n then None
      else match SplitFields(values[1..], n)
        case None =>
          assert forall i :: 1 <= i < |values| ==> values[i] == values[1..][i - 1];
          None
        case Some(rest) => Some([fields] + rest)
  }

  /** What Storage._getVal returns for key in the dictionary m. */
  function FieldsOf(m: map<string, seq<string>>, key: string, n: int): (r: Option<seq<seq<string>>>)
    ensures key !in m ==> r.None?
    ensures key in m ==> r == SplitFields(m[key], n)
  {
    if key !in m then None else SplitFields(m[key], n)
  }

  /** `map(float, vals)` for every field list vals, None when a field does not convert. */
  function ToNumbers(fields: seq<seq<string>>, toFloat: string -> Option<real>): (r: Option<seq<seq<real>>>)
    ensures r.None? <==> exists i :: 0 <= i < |fields| && RowToNumbers(fields[i], toFloat).None?
    ensures r.Some? ==>
      |r.value| == |fields| && forall i :: 0 <= i < |fields| ==> RowToNumbers(fields[i], toFloat) == Some(r.value[i])
  {
    if |fields| == 0 then Some([])
    else match RowToNumbers(fields[0], toFloat)
      case None => None
      case Some(row) =>
        match ToNumbers(fields[1..], toFloat)
        case None =>
          assert forall i :: 1 <= i < |fields| ==> fields[i] == fields[1..][i - 1];
          None
        case Some(rest) => Some([row] + rest)
  }

  /** `map(float, row)`, None when a field does not convert. */
  function RowToNumbers(row: seq<string>, toFloat: string -> Option<real>): (r: Option<seq<real>>)
    ensures r.None? <==> exists j :: 0 <= j < |row| && toFloat(row[j]).None?
    ensures r.Some? ==> |r.value| == |row| && forall j :: 0 <= j < |row| ==> toFloat(row[j]) == Some(r.value[j])
  {
    if |row| == 0 then Some([])
    else match toFloat(row[0])
      case None => None
      case Some(x) =>
        match RowToNumbers(row[1..], toFloat)
        case None =>
          assert forall j :: 1 <= j < |row| ==> row[j] == row[1..][j - 1];
          None
        case Some(rest) => Some([x] + rest)
  }

  /** What Storage._getNumeric returns: None when _getVal does (iterating None raises
      TypeError, which is caught) or when a field fails to convert. */
  function NumericOf(m: map<string, seq<string>>, key: string, n: int, toFloat: string -> Option<real>): Option<seq<seq<real>>> {
    match FieldsOf(m, key, n)
    case None => None
    case Some(fields) => ToNumbers(fields, toFloat)
  }

  // ---------------------------------------------------------------------------
  // getProfiles

  /** A profile field: a float, or the text of a name that is not a float. */
  datatype Field = Number(x: real) | Text(s: string)

  type ProfileRecord = map<string, Field>

  const ProfileKeys: seq<string> := ["name", "rampup", "ts", "Tsmin", "Tsmax", "tl", "Tl", "tp", "Tp", "rampdown"]

  /** getProfiles.splitAtColon: `val.split(":", 1)`, and ("", "") without a colon. */
  function SplitAtColon(val: string): (r: (string, string))
    ensures ':' in val ==> val == r.0 + [':'] + r.1 && ':' !in r.0
    ensures ':' !in val ==> r == ("", "")
  {
    match SplitOnce(val, ':')
    case None => ("", "")
    case Some(parts) => parts
  }

  /** Whether the field sets key: it names key, key is a profile key, and its value
      converts, or key is "name". */
  predicate Sets(field: string, key: string, toFloat: string -> Option<real>) {
    var (k, v) := SplitAtColon(field);
    k == key && k in ProfileKeys && (toFloat(v).Some? || k == "name")
  }

  /** One pass of the field loop of getProfiles. */
  function AddField(m: ProfileRecord, field: string, toFloat: string -> Option<real>): ProfileRecord {
    var (k, v) := SplitAtColon(field);
    if k !in ProfileKeys then m
    else match toFloat(v)
      case Some(x) => m[k := Number(x)]
      case None => if k == "name" then m[k := Text(v)] else m
  }

  /** The field loop of getProfiles from the partial profile m. */
  function ParseFieldsFrom(m: ProfileRecord, fields: seq<string>, toFloat: string -> Option<real>): ProfileRecord
    decreases |fields|
  {
    if |fields| == 0 then m else ParseFieldsFrom(AddField(m, fields[0], toFloat), fields[1..], toFloat)
  }

  /** A key ends up in the profile exactly when it was there or some field sets it. */
  lemma {:induction false} ParsedKeys(m: ProfileRecord, fields: seq<string>, key: string, toFloat: string -> Option<real>)
    ensures key in ParseFieldsFrom(m, fields, toFloat) <==>
      key in m || exists i :: 0 <= i < |fields| && Sets(fields[i], key, toFloat)
    decreases |fields|
  {
    if |fields| > 0 {
      ParsedKeys(AddField(m, fields[0], toFloat), fields[1..], key, toFloat);
      AddFieldKeys(m, fields[0], key, toFloat);
      SetsInRest(fields, key, toFloat);
    }
  }

  /** One field adds key exactly when it sets it. */
  lemma AddFieldKeys(m: ProfileRecord, field: string, key: string, toFloat: string -> Option<real>)
    ensures key in AddField(m, field, toFloat) <==> key in m || Sets(field, key, toFloat)
  {
  }

  lemma SetsInRest(fields: seq<string>, key: string, toFloat: string -> Option<real>)
    requires |fields| > 0
    ensures (exists i :: 0 <= i < |fields| && Sets(fields[i], key, toFloat)) <==>
      Sets(fields[0], key, toFloat) || exists i :: 0 <= i < |fields| - 1 && Sets(fields[1..][i], key, toFloat)
  {
    if exists i :: 0 <= i < |fields| && Sets(fields[i], key, toFloat) {
      var i :| 0 <= i < |fields| && Sets(fields[i], key, toFloat);
      if i > 0 {
        assert Sets(fields[1..][i - 1], key, toFloat);
      }
    }
    if exists i :: 0 <= i < |fields| - 1 && Sets(fields[1..][i], key, toFloat) {
      var i :| 0 <= i < |fields| - 1 && Sets(fields[1..][i], key, toFloat);
      assert Sets(fields[i + 1], key, toFloat);
    }
  }

  /** The profile holds all ten keys. */
  predicate Complete(m: ProfileRecord) {
    forall i :: 0 <= i < |ProfileKeys| ==> ProfileKeys[i] in m
  }

  /** The name of a complete profile. */
  function Name(m: ProfileRecord): Field
    requires Complete(m)
  {
    assert ProfileKeys[0] in m;
    m["name"]
  }

  /** The profile a raw record yields before the name is looked at. */
  function Parsed(raw: seq<string>, toFloat: string -> Option<real>): ProfileRecord {
    ParseFieldsFrom(map[], raw, toFloat)
  }

  /** What getProfiles does with one raw record. */
  datatype RecordKind =
    | Dropped                    // some profile key is missing
    | FloatName                  // the name converts to a float: `startswith` raises AttributeError
    | Front(p: ProfileRecord)    // the name started with `_`, now removed
    | Back(p: ProfileRecord)     // any other name

  function ClassifyRecord(raw: seq<string>, toFloat: string -> Option<real>): (k: RecordKind)
    ensures k.Dropped? <==> !Complete(Parsed(raw, toFloat))
    ensures k.FloatName? <==> Complete(Parsed(raw, toFloat)) && Name(Parsed(raw, toFloat)).Number?
    ensures k.Front? ==> var m := Parsed(raw, toFloat);
      Complete(m) && Name(m).Text? && StartsWith(Name(m).s, "_") && k.p == m["name" := Text(Name(m).s[1..])]
    ensures k.Back? ==> var m := Parsed(raw, toFloat);
      Complete(m) && Name(m).Text? && !StartsWith(Name(m).s, "_") && k.p == m
  {
    var m := Parsed(raw, toFloat);
    if !Complete(m) then Dropped
    else match Name(m)
      case Number(_) => FloatName
      case Text(name) => if StartsWith(name, "_") then Front(m["name" := Text(name[1..])]) else Back(m)
  }

  function RecordKinds(raws: seq<seq<string>>, toFloat: string -> Option<real>): (r: seq<RecordKind>)
    ensures |r| == |raws| && forall i :: 0 <= i < |raws| ==> r[i] == ClassifyRecord(raws[i], toFloat)
  {
    seq(|raws|, i requires 0 <= i < |raws| => ClassifyRecord(raws[i], toFloat))
  }

  /** The outer loop of getProfiles from the list acc over the classified records: an
      incomplete profile is dropped, a float name raises, a `_` profile goes to the
      front and any other to the back. */
  function CollectFrom(acc: seq<ProfileRecord>, kinds: seq<RecordKind>): Result<seq<ProfileRecord>>
    decreases |kinds|
  {
    if |kinds| == 0 then Ok(acc)
    else match Collect1(acc, kinds[0])
      case Err(e) => Err(e)
      case Ok(acc') => CollectFrom(acc', kinds[1..])
  }

  /** One pass of that loop. */
  function Collect1(acc: seq<ProfileRecord>, kind: RecordKind): Result<seq<ProfileRecord>> {
    match kind
    case Dropped => Ok(acc)
    case FloatName => Err(AttributeError)
    case Front(p) => Ok([p] + acc)
    case Back(p) => Ok(acc + [p])
  }

  /** The `_` profiles, renamed, in file order. */
  function Underscored(kinds: seq<RecordKind>): seq<ProfileRecord>
    decreases |kinds|
  {
    if |kinds| == 0 then []
    else (if kinds[0].Front? then [kinds[0].p] else []) + Underscored(kinds[1..])
  }

  /** The other complete profiles, in file order. */
  function Plain(kinds: seq<RecordKind>): seq<ProfileRecord>
    decreases |kinds|
  {
    if |kinds| == 0 then []
    else (if kinds[0].Back? then [kinds[0].p] else []) + Plain(kinds[1..])
  }

  function Reverse<T>(s: seq<T>): (r: seq<T>)
    ensures |r| == |s| && forall i :: 0 <= i < |s| ==> r[i] == s[|s| - 1 - i]
  {
    if |s| == 0 then [] else Reverse(s[1..]) + [s[0]]
  }

  /** Some complete profile in the sequence has a float name. */
  predicate HasFloatName(kinds: seq<RecordKind>) {
    exists i :: 0 <= i < |kinds| && kinds[i].FloatName?
  }

  lemma FloatNameInRest(kinds: seq<RecordKind>)
    requires |kinds| > 0 && !kinds[0].FloatName?
    ensures HasFloatName(kinds) <==> HasFloatName(kinds[1..])
  {
    if HasFloatName(kinds) {
      var i :| 0 <= i < |kinds| && kinds[i].FloatName?;
      assert kinds[1..][i - 1].FloatName?;
    }
    if HasFloatName(kinds[1..]) {
      var i :| 0 <= i < |kinds| - 1 && kinds[1..][i].FloatName?;
      assert kinds[i + 1].FloatName?;
    }
  }

  /** getProfiles returns the `_` profiles in reverse file order, then the others in
      file order, unless a complete profile has a float name. */
  lemma {:induction false} CollectOrder(acc: seq<ProfileRecord>, kinds: seq<RecordKind>)
    ensures CollectFrom(acc, kinds) ==
      if HasFloatName(kinds) then Err(AttributeError)
      else Ok(Reverse(Underscored(kinds)) + acc + Plain(kinds))
    decreases |kinds|
  {
    if |kinds| == 0 {
      assert Reverse(Underscored(kinds)) + acc + Plain(kinds) == acc;
    } else if kinds[0].FloatName? {
      assert HasFloatName(kinds);
    } else {
      var rest := kinds[1..];
      FloatNameInRest(kinds);
      match kinds[0]
      case Dropped =>
        CollectOrder(acc, rest);
        assert Underscored(kinds) == Underscored(rest) && Plain(kinds) == Plain(rest);
      case Front(p) =>
        CollectOrder([p] + acc, rest);
        CollectFront(acc, kinds, p);
      case Back(p) =>
        CollectOrder(acc + [p], rest);
        CollectBack(acc, kinds, p);
    }
  }

  /** The step of CollectOrder on a `_` profile: it goes before the accumulated ones. */
  lemma CollectFront(acc: seq<ProfileRecord>, kinds: seq<RecordKind>, p: ProfileRecord)
    requires |kinds| > 0 && kinds[0] == Front(p)
    ensures Reverse(Underscored(kinds)) + acc + Plain(kinds) ==
      Reverse(Underscored(kinds[1..])) + ([p] + acc) + Plain(kinds[1..])
  {
    var rest := kinds[1..];
    var u := Underscored(rest);
    assert Underscored(kinds) == [p] + u && Plain(kinds) == Plain(rest);
    assert Reverse([p] + u) == Reverse(u) + [p] by {
      assert ([p] + u)[1..] == u;
    }
    AppendAssoc(Reverse(u), [p], acc);
  }

  /** The step of CollectOrder on another complete profile: it goes after them. */
  lemma CollectBack(acc: seq<ProfileRecord>, kinds: seq<RecordKind>, p: ProfileRecord)
    requires |kinds| > 0 && kinds[0] == Back(p)
    ensures Reverse(Underscored(kinds)) + acc + Plain(kinds) ==
      Reverse(Underscored(kinds[1..])) + (acc + [p]) + Plain(kinds[1..])
  {
    var rest := kinds[1..];
    assert Underscored(kinds) == Underscored(rest) && Plain(kinds) == [p] + Plain(rest);
    var r := Reverse(Underscored(rest));
    AppendAssoc(r, acc, [p]);
    AppendAssoc(r + acc, [p], Plain(rest));
  }

  // ---------------------------------------------------------------------------
  // save

  /** `line.startswith(key + " ")`: a line save treats as a setting of key (already
      lowered). */
  predicate Matches(line: string, key: string) {
    key + " " <= line
  }

  /** What the loop of Storage.save emits from the remaining lines when it is in the
      given stage (0: no match yet, 1: the previous line matched, 2: a run was closed),
      including the final append. */
  function Continue(stage: int, lines: seq<string>, key: string, newValue: string, append: bool): seq<string>
    decreases |lines|
  {
    if |lines| == 0 then (if append && stage < 2 then [newValue] else [])
    else if Matches(lines[0], key) then
      [if append then lines[0] else newValue] + Continue(1, lines[1..], key, newValue, append)
    else if stage == 1 && append then
      [newValue, lines[0]] + Continue(2, lines[1..], key, newValue, append)
    else
      [lines[0]] + Continue(stage, lines[1..], key, newValue, append)
  }

  /** The replacement save: every matching line replaced by the new setting. */
  function Replaced(lines: seq<string>, key: string, newValue: string): (r: seq<string>)
    ensures |r| == |lines|
    ensures forall i :: 0 <= i < |lines| ==> r[i] == if Matches(lines[i], key) then newValue else lines[i]
  {
    seq(|lines|, i requires 0 <= i < |lines| => if Matches(lines[i], key) then newValue else lines[i])
  }

  /** The lines with the new setting inserted after each line that ends a run of
      matching lines. */
  function AfterRuns(lines: seq<string>, key: string, newValue: string): seq<string>
    decreases |lines|
  {
    if |lines| == 0 then []
    else
      var endsRun := Matches(lines[0], key) && (|lines| == 1 || !Matches(lines[1], key));
      [lines[0]] + (if endsRun then [newValue] else []) + AfterRuns(lines[1..], key, newValue)
  }

  predicate NoMatch(lines: seq<string>, key: string) {
    forall i :: 0 <= i < |lines| ==> !Matches(lines[i], key)
  }

  /** Without append, save replaces the matching lines and keeps the others. */
  lemma {:induction false} SaveReplaces(stage: int, lines: seq<string>, key: string, newValue: string)
    requires stage < 2
    ensures Continue(stage, lines, key, newValue, false) == Replaced(lines, key, newValue)
    decreases |lines|
  {
    if |lines| > 0 {
      var s := if Matches(lines[0], key) then 1 else stage;
      SaveReplaces(s, lines[1..], key, newValue);
      ReplacedCons(lines, key, newValue);
    }
  }

  lemma ReplacedCons(lines: seq<string>, key: string, newValue: string)
    requires |lines| > 0
    ensures Replaced(lines, key, newValue) ==
      [if Matches(lines[0], key) then newValue else lines[0]] + Replaced(lines[1..], key, newValue)
  {
  }

  /** With append, once a run has been closed or while one is open, save emits the
      remaining lines with the new setting after every run, plus one for the open run
      when the next line does not continue it. */
  lemma {:induction false} SaveAppendsInRun(lines: seq<string>, key: string, newValue: string)
    ensures Continue(1, lines, key, newValue, true) ==
      (if |lines| == 0 || !Matches(lines[0], key) then [newValue] else []) + AfterRuns(lines, key, newValue)
    ensures Continue(2, lines, key, newValue, true) == AfterRuns(lines, key, newValue)
    decreases |lines|
  {
    if |lines| > 0 {
      SaveAppendsInRun(lines[1..], key, newValue);
      if Matches(lines[0], key) {
        InRunMatch(lines, key, newValue);
      } else {
        InRunOther(lines, key, newValue);
      }
    }
  }

  /** The step of SaveAppendsInRun on a matching line: the run goes on. */
  lemma InRunMatch(lines: seq<string>, key: string, newValue: string)
    requires |lines| > 0 && Matches(lines[0], key)
    requires Continue(1, lines[1..], key, newValue, true) ==
      (if |lines[1..]| == 0 || !Matches(lines[1..][0], key) then [newValue] else []) + AfterRuns(lines[1..], key, newValue)
    ensures Continue(1, lines, key, newValue, true) == AfterRuns(lines, key, newValue)
    ensures Continue(2, lines, key, newValue, true) == AfterRuns(lines, key, newValue)
  {
    var rest := lines[1..];
    var ins := if |rest| == 0 || !Matches(rest[0], key) then [newValue] else [];
    assert AfterRuns(lines, key, newValue) == [lines[0]] + ins + AfterRuns(rest, key, newValue);
    AppendAssoc([lines[0]], ins, AfterRuns(rest, key, newValue));
  }

  /** The step of SaveAppendsInRun on another line: an open run is closed. */
  lemma InRunOther(lines: seq<string>, key: string, newValue: string)
    requires |lines| > 0 && !Matches(lines[0], key)
    requires Continue(2, lines[1..], key, newValue, true) == AfterRuns(lines[1..], key, newValue)
    ensures Continue(1, lines, key, newValue, true) == [newValue] + AfterRuns(lines, key, newValue)
    ensures Continue(2, lines, key, newValue, true) == AfterRuns(lines, key, newValue)
  {
    var tail := AfterRuns(lines[1..], key, newValue);
    assert AfterRuns(lines, key, newValue) == [lines[0]] + tail;
    assert Continue(1, lines, key, newValue, true) == [newValue, lines[0]] + tail;
    AppendAssoc([newValue], [lines[0]], tail);
  }

  /** With append, save keeps every line and inserts the new setting after every run of
      matching lines, or at the end when no line matches. */
  lemma {:induction false} SaveAppends(lines: seq<string>, key: string, newValue: string)
    ensures Continue(0, lines, key, newValue, true) ==
      AfterRuns(lines, key, newValue) + (if NoMatch(lines, key) then [newValue] else [])
    decreases |lines|
  {
    if |lines| > 0 {
      if Matches(lines[0], key) {
        SaveAppendsFirstMatch(lines, key, newValue);
      } else {
        SaveAppends(lines[1..], key, newValue);
        SaveAppendsFirstOther(lines, key, newValue);
      }
    }
  }

  lemma SaveAppendsFirstMatch(lines: seq<string>, key: string, newValue: string)
    requires |lines| > 0 && Matches(lines[0], key)
    ensures Continue(0, lines, key, newValue, true) == AfterRuns(lines, key, newValue)
    ensures !NoMatch(lines, key)
  {
    var rest := lines[1..];
    SaveAppendsInRun(rest, key, newValue);
    var ins := if |rest| == 0 || !Matches(rest[0], key) then [newValue] else [];
    assert AfterRuns(lines, key, newValue) == [lines[0]] + ins + AfterRuns(rest, key, newValue);
    assert Continue(0, lines, key, newValue, true) == [lines[0]] + Continue(1, rest, key, newValue, true);
    AppendAssoc([lines[0]], ins, AfterRuns(rest, key, newValue));
  }

  lemma NoMatchCons(lines: seq<string>, key: string)
    requires |lines| > 0 && !Matches(lines[0], key)
    ensures NoMatch(lines, key) <==> NoMatch(lines[1..], key)
  {
    assert forall i :: 1 <= i < |lines| ==> lines[i] == lines[1..][i - 1];
  }

  lemma SaveAppendsFirstOther(lines: seq<string>, key: string, newValue: string)
    requires |lines| > 0 && !Matches(lines[0], key)
    requires Continue(0, lines[1..], key, newValue, true) ==
      AfterRuns(lines[1..], key, newValue) + (if NoMatch(lines[1..], key) then [newValue] else [])
    ensures Continue(0, lines, key, newValue, true) ==
      AfterRuns(lines, key, newValue) + (if NoMatch(lines, key) then [newValue] else [])
  {
    var rest := lines[1..];
    NoMatchCons(lines, key);
    var tail := AfterRuns(rest, key, newValue);
    var last := if NoMatch(rest, key) then [newValue] else [];
    assert AfterRuns(lines, key, newValue) == [lines[0]] + tail;
    assert Continue(0, lines, key, newValue, true) == [lines[0]] + (tail + last);
    AppendAssoc([lines[0]], tail, last);
  }

  // ---------------------------------------------------------------------------

  /** The Storage object: the settings file's content and the dictionary load fills. */
  class Storage {
    var content: string
    var entries: map<string, seq<string>>

    /** Every key that load files maps to at least one value. */
    predicate Valid()
      reads this
    {
      NonEmptyLists(entries)
    }

    constructor (content0: string)
      ensures content == content0 && entries == map[] && Valid()
    {
      content := content0;
      entries := map[];
    }

    /** Storage.load: clear the dictionary, then file each kept line's value under its
        lowered key; ValueError at a kept line without a space. */
    method Load() returns (out: Outcome)
      modifies this
      ensures (entries, out) == Loaded(content)
      ensures content == old(content)
      ensures Valid()
    {
      entries := map[];
      entries, out := FillEntries(Lines(content));
    }

    /** Storage._getVal */
    method GetVal(key: string, expectedLen: int) returns (r: Option<seq<seq<string>>>)
      ensures r == FieldsOf(entries, key, expectedLen)
    {
      if key !in entries {
        return None;
      }
      r := SplitValues(entries[key], expectedLen);
    }

    /** Storage._getNumeric */
    method GetNumeric(key: string, expectedLen: int, toFloat: string -> Option<real>) returns (r: Option<seq<seq<real>>>)
      ensures r == NumericOf(entries, key, expectedLen, toFloat)
    {
      var rawVals := GetVal(key, expectedLen);
      if rawVals.None? {
        return None;
      }
      r := ConvertRows(rawVals.value, toFloat);
    }

    /** getPidCoeffs (with key "pidcoeffs", three fields) and getShhCoeffs (with
        "shhcoeffs", four): the first entry of the key, when every entry has the
        right number of fields and all of them convert. */
    method GetCoeffs(key: string, count: nat, toFloat: string -> Option<real>) returns (r: Option<seq<real>>)
      requires Valid()
      ensures r.Some? <==> NumericOf(entries, key, count, toFloat).Some?
      ensures r.Some? ==>
        key in entries && |r.value| == count &&
        forall j :: 0 <= j < count ==> toFloat(Split(entries[key][0], ' ')[j]) == Some(r.value[j])
    {
      var val := GetNumeric(key, count, toFloat);
      if val.None? {
        return None;
      }
      return Some(val.value[0]);
    }

    /** getUref, getIref and getAdcComp (keys "uref", "iref", "adccomp"): the single
        field of the first entry. */
    method GetScalar(key: string, toFloat: string -> Option<real>) returns (r: Option<real>)
      requires Valid()
      ensures r.Some? <==> NumericOf(entries, key, 1, toFloat).Some?
      ensures r.Some? ==>
        key in entries && Split(entries[key][0], ' ') == [entries[key][0]] &&
        toFloat(entries[key][0]) == Some(r.value)
    {
      var val := GetNumeric(key, 1, toFloat);
      if val.None? {
        return None;
      }
      return Some(val.value[0][0]);
    }

    /** Storage.getProfiles: the profiles of the ten-field "profile" entries, None when
        there are none (or _getVal yields None). */
    method GetProfiles(toFloat: string -> Option<real>) returns (r: Result<Option<seq<ProfileRecord>>>)
      ensures r == match FieldsOf(entries, "profile", 10)
        case None => Ok(None)
        case Some(raws) => match CollectFrom([], RecordKinds(raws, toFloat))
          case Err(e) => Err(e)
          case Ok(ps) => if ps == [] then Ok(None) else Ok(Some(ps))
    {
      var profiles: seq<ProfileRecord> := [];
      var rawProfiles := GetVal("profile", 10);
      if rawProfiles.Some? {
        var raws := rawProfiles.value;
        ghost var kinds := RecordKinds(raws, toFloat);
        var i := 0;
        while i < |raws|
          invariant 0 <= i <= |raws|
          invariant CollectFrom(profiles, kinds[i..]) == CollectFrom([], kinds)
        {
          assert kinds[i..][1..] == kinds[i + 1..] && kinds[i..][0] == ClassifyRecord(raws[i], toFloat);
          var next := AddProfile(profiles, raws[i], toFloat);
          if next.Err? {
            return Err(next.error);
          }
          profiles := next.value;
          i := i + 1;
        }
        assert kinds[i..] == [];
      }
      if profiles != [] {
        return Ok(Some(profiles));
      }
      return Ok(None);
    }

    /** Storage.save: rewrite the file with the setting `key v1 ... vn` replacing every
        line of the key, or, with append, added after every run of such lines. The
        dictionary is not reloaded. */
    method Save(key: string, values: seq<string>, append: bool)
      modifies this
      ensures var k := ToLower(key);
        content == Join(Continue(0, Lines(old(content)), k, k + " " + Join(values, ' '), append), '\n')
      ensures entries == old(entries)
    {
      var k := ToLower(key);
      var newValue := k + " " + Join(values, ' ');
      var lines := SaveLines(Lines(content), k, newValue, append);
      content := Join(lines, '\n');
    }
  }

  /** The loop of Storage.save over the lines of the file, with its final append. */
  method SaveLines(file: seq<string>, k: string, newValue: string, append: bool) returns (lines: seq<string>)
    ensures lines == Continue(0, file, k, newValue, append)
  {
    lines := [];
    var stage := 0;
    var i := 0;
    while i < |file|
      invariant 0 <= i <= |file|
      invariant 0 <= stage <= 2
      invariant lines + Continue(stage, file[i..], k, newValue, append) == Continue(0, file, k, newValue, append)
    {
      assert file[i..][1..] == file[i + 1..] && file[i..][0] == file[i];
      ContinueStep(stage, file[i..], k, newValue, append);
      ghost var step := Step(stage, file[i], k, newValue, append);
      AppendAssoc(lines, step.1, Continue(step.0, file[i + 1..], k, newValue, append));
      lines, stage := SaveStep(lines, stage, file[i], k, newValue, append);
      i := i + 1;
    }
    if append && stage < 2 {
      lines := lines + [newValue];
    }
    assert file[i..] == [];
  }

  /** One pass of that loop: the next stage and the lines emitted for one line. */
  function Step(stage: int, line: string, key: string, newValue: string, append: bool): (int, seq<string>) {
    if Matches(line, key) then (1, [if append then line else newValue])
    else if stage == 1 && append then (2, [newValue, line])
    else (stage, [line])
  }

  lemma ContinueStep(stage: int, lines: seq<string>, key: string, newValue: string, append: bool)
    requires |lines| > 0
    ensures Continue(stage, lines, key, newValue, append) ==
      Step(stage, lines[0], key, newValue, append).1 +
      Continue(Step(stage, lines[0], key, newValue, append).0, lines[1..], key, newValue, append)
  {
  }

  /** The body of that loop for one line. */
  method SaveStep(lines: seq<string>, stage: int, line: string, k: string, newValue: string, append: bool)
    returns (lines': seq<string>, stage': int)
    requires 0 <= stage <= 2
    ensures 0 <= stage' <= 2
    ensures (stage', lines') == (Step(stage, line, k, newValue, append).0, lines + Step(stage, line, k, newValue, append).1)
  {
    lines', stage' := lines, stage;
    if Matches(line, k) {
      stage' := 1;
      if !append {
        lines' := lines' + [newValue];
      } else {
        lines' := lines' + [line];
      }
    } else {
      if stage' == 1 && append {
        stage' := 2;
        lines' := lines' + [newValue];
        assert lines' + [line] == lines + [newValue, line];
      }
      lines' := lines' + [line];
    }
  }

  /** The loop of load over the lines of the file, from a cleared dictionary: the
      entries filed, and ValueError at the first kept line without a space. */
  method FillEntries(lines: seq<string>) returns (entries: map<string, seq<string>>, out: Outcome)
    ensures (entries, out) == LoadFrom(map[], Kinds(lines))
    ensures NonEmptyLists(entries)
  {
    entries := map[];
    ghost var kinds := Kinds(lines);
    var i := 0;
    while i < |lines|
      invariant 0 <= i <= |lines|
      invariant LoadFrom(entries, kinds[i..]) == LoadFrom(map[], kinds)
      invariant NonEmptyLists(entries)
    {
      assert kinds[i..][1..] == kinds[i + 1..] && kinds[i..][0] == Classify(lines[i]);
      var next, ok := LoadLine(entries, lines[i]);
      if !ok {
        return entries, Fail(ValueError);
      }
      LoadStep(entries, kinds[i..]);
      entries := next;
      i := i + 1;
    }
    assert kinds[i..] == [];
    out := Pass;
  }

  /** The dictionary after one line that is not malformed: a setting is filed, a
      skipped line changes nothing. */
  function Filed(m: map<string, seq<string>>, kind: LineKind): (r: map<string, seq<string>>)
    ensures NonEmptyLists(m) ==> NonEmptyLists(r)
  {
    if kind.Setting? then AddEntry(m, kind.key, kind.value) else m
  }

  lemma LoadStep(m: map<string, seq<string>>, kinds: seq<LineKind>)
    requires |kinds| > 0 && !kinds[0].Malformed?
    ensures LoadFrom(m, kinds) == LoadFrom(Filed(m, kinds[0]), kinds[1..])
  {
  }

  /** `self._entries[key].append(value)`, or a new list on the KeyError. */
  method FileEntry(entries: map<string, seq<string>>, key: string, value: string) returns (next: map<string, seq<string>>)
    ensures next == AddEntry(entries, key, value)
  {
    if key in entries {
      next := entries[key := entries[key] + [value]];
    } else {
      assert Get(entries, key) + [value] == [value];
      next := entries[key := [value]];
    }
  }

  /** One pass of the loop of load: parse the line, then file a setting under its
      key, creating the key's list on a KeyError; ok is false on the ValueError. */
  method LoadLine(entries: map<string, seq<string>>, raw: string) returns (next: map<string, seq<string>>, ok: bool)
    ensures ok <==> !Classify(raw).Malformed?
    ensures ok ==> next == Filed(entries, Classify(raw))
  {
    var kind := ParseLine(raw);
    next := entries;
    match kind {
      case Skipped =>
      case Malformed => return entries, false;
      case Setting(key, value) =>
        next := FileEntry(entries, key, value);
    }
    ok := true;
  }

  /** The body of the loop of load for one line: strip it, skip it when empty or a
      comment, otherwise split it at the first space (ValueError without one) and
      lower the key. */
  method ParseLine(raw: string) returns (kind: LineKind)
    ensures kind == Classify(raw)
  {
    var line := Strip(raw);
    if line == [] || StartsWith(line, "#") {
      return Skipped;
    }
    var parts := SplitOnce(line, ' ');
    if parts.None? {
      return Malformed;
    }
    var key := ToLower(parts.value.0);
    var value := parts.value.1;
    return Setting(key, value);
  }

  /** The loop of Storage._getVal over the key's values: each split at spaces, None at
      the first with other than n fields (the AssertionError). */
  method SplitValues(raw: seq<string>, expectedLen: int) returns (r: Option<seq<seq<string>>>)
    ensures r == SplitFields(raw, expectedLen)
  {
    var vals := [];
    var i := 0;
    while i < |raw|
      invariant 0 <= i <= |raw|
      invariant |vals| == i && forall k :: 0 <= k < i ==> vals[k] == Split(raw[k], ' ') && |vals[k]| == expectedLen
    {
      var rawVals := Split(raw[i], ' ');
      if |rawVals| != expectedLen {
        assert SplitFields(raw, expectedLen).None?;
        return None;
      }
      vals := vals + [rawVals];
      i := i + 1;
    }
    assert forall k :: 0 <= k < |raw| ==> |Split(raw[k], ' ')| == expectedLen;
    assert SplitFields(raw, expectedLen).Some?;
    assert vals == SplitFields(raw, expectedLen).value;
    r := Some(vals);
  }

  /** The loop of Storage._getNumeric: `map(float, vals)` for every field list, None
      at the first ValueError. */
  method ConvertRows(fields: seq<seq<string>>, toFloat: string -> Option<real>) returns (r: Option<seq<seq<real>>>)
    ensures r == ToNumbers(fields, toFloat)
  {
    var numVals := [];
    var i := 0;
    while i < |fields|
      invariant 0 <= i <= |fields|
      invariant |numVals| == i
      invariant forall k :: 0 <= k < i ==> RowToNumbers(fields[k], toFloat) == Some(numVals[k])
    {
      var row := RowToNumbers(fields[i], toFloat);
      if row.None? {
        return None;
      }
      numVals := numVals + [row.value];
      i := i + 1;
    }
    assert forall k :: 0 <= k < |fields| ==> RowToNumbers(fields[k], toFloat).Some?;
    assert ToNumbers(fields, toFloat).Some?;
    assert numVals == ToNumbers(fields, toFloat).value;
    r := Some(numVals);
  }

  /** The body of the outer loop of getProfiles for one raw record. */
  method AddProfile(profiles: seq<ProfileRecord>, raw: seq<string>, toFloat: string -> Option<real>)
    returns (r: Result<seq<ProfileRecord>>)
    ensures r == Collect1(profiles, ClassifyRecord(raw, toFloat))
  {
    var profile := ParseProfile(raw, toFloat);
    var complete := IsComplete(profile);
    if !complete {
      return Ok(profiles);
    }
    assert ProfileKeys[0] in profile;
    var name := profile["name"];
    if name.Number? {
      return Err(AttributeError);
    }
    if StartsWith(name.s, "_") {
      profile := profile["name" := Text(name.s[1..])];
      return Ok([profile] + profiles);
    }
    return Ok(profiles + [profile]);
  }

  /** The missing-key loop of getProfiles. */
  method IsComplete(profile: ProfileRecord) returns (complete: bool)
    ensures complete == Complete(profile)
  {
    var missing := false;
    var k := 0;
    while k < |ProfileKeys|
      invariant 0 <= k <= |ProfileKeys|
      invariant !missing ==> forall k' :: 0 <= k' < k ==> ProfileKeys[k'] in profile
      invariant missing ==> !Complete(profile)
    {
      if ProfileKeys[k] !in profile {
        missing := true;
        break;
      }
      k := k + 1;
    }
    complete := !missing;
  }

  /** The field loop of getProfiles. */
  method ParseProfile(raw: seq<string>, toFloat: string -> Option<real>) returns (profile: ProfileRecord)
    ensures profile == Parsed(raw, toFloat)
  {
    profile := map[];
    var j := 0;
    while j < |raw|
      invariant 0 <= j <= |raw|
      invariant ParseFieldsFrom(profile, raw[j..], toFloat) == Parsed(raw, toFloat)
    {
      assert raw[j..][1..] == raw[j + 1..];
      var (key, value) := SplitAtColon(raw[j]);
      if key in ProfileKeys {
        var x := toFloat(value);
        if x.Some? {
          profile := profile[key := Number(x.value)];
        } else if key == "name" {
          profile := profile[key := Text(value)];
        }
      }
      j := j + 1;
    }
    assert raw[j..] == [];
  }

  /** Storage.__init__: read the settings file into a new store; load's ValueError
      propagates. */
  method Open(content: string) returns (st: Storage, out: Outcome)
    ensures fresh(st) && st.content == content
    ensures (st.entries, out) == Loaded(content)
  {
    st := new Storage(content);
    out := st.Load();
  }
}
