/** The console of the reflow oven client (client/uif.py) without its terminal I/O:
    splitting a typed line into command and parameter, the commands that act on the
    PID controller (`kp`, `ki`, `kd`, `spt`, `in`, `out`, `pidm`), the display switches
    (`disp` and the periodic `disp` call), and the line editor with its history that
    `listen` runs on every keystroke. What a command prints is returned as a Reply. */
module Uif {
  import opened Common
  import Pid

  // ---------------------------------------------------------------------------
  // Command dispatch

  /** The `_cmd_` methods of Uif, and the fallback `_notfound`. */
  datatype Command =
    | Kp | Ki | Kd | Spt | In | Out | Pidm | Pwr | Disp
    | Quit | Bake | Stop | Load | Save | Tune | Draw | Man
    | NotFound

  /** The method name after `_cmd_`. */
  function NameOf(c: Command): string {
    match c
    case Kp => "kp"
    case Ki => "ki"
    case Kd => "kd"
    case Spt => "spt"
    case In => "in"
    case Out => "out"
    case Pidm => "pidm"
    case Pwr => "pwr"
    case Disp => "disp"
    case Quit => "quit"
    case Bake => "bake"
    case Stop => "stop"
    case Load => "load"
    case Save => "save"
    case Tune => "tune"
    case Draw => "draw"
    case Man => "man"
    case NotFound => ""
  }

  /** `getattr(self, "_cmd_" + name, self._notfound)` */
  function Lookup(name: string): (c: Command)
    ensures c != NotFound ==> NameOf(c) == name
  {
    if name == "kp" then Kp
    else if name == "ki" then Ki
    else if name == "kd" then Kd
    else if name == "spt" then Spt
    else if name == "in" then In
    else if name == "out" then Out
    else if name == "pidm" then Pidm
    else if name == "pwr" then Pwr
    else if name == "disp" then Disp
    else if name == "quit" then Quit
    else if name == "bake" then Bake
    else if name == "stop" then Stop
    else if name == "load" then Load
    else if name == "save" then Save
    else if name == "tune" then Tune
    else if name == "draw" then Draw
    else if name == "man" then Man
    else NotFound
  }

  /** Every command is found under its own name, and nothing is found under the empty name. */
  lemma LookupNameOf(c: Command)
    ensures c != NotFound ==> Lookup(NameOf(c)) == c
    ensures Lookup("") == NotFound
  {
  }

  /** `val.split(" ", 1)`, with an empty parameter when there is no space. */
  function SplitCommand(val: string): (r: (string, string))
    ensures ' ' !in val ==> r == (val, "")
    ensures ' ' in val ==> val == r.0 + " " + r.1 && ' ' !in r.0
  {
    match SplitOnce(val, ' ')
    case None => (val, "")
    case Some((cmd, params)) => (cmd, params)
  }

  /** What `_execCommand` calls, and with which parameter. */
  function Parse(val: string): (Command, string) {
    var (cmd, params) := SplitCommand(val);
    (Lookup(ToLower(Strip(cmd))), Strip(params))
  }

  lemma StripWord(w: string)
    requires |w| > 0 && forall i :: 0 <= i < |w| ==> !IsSpace(w[i])
    ensures Strip(w) == w
  {
  }

  lemma LowerWord(w: string)
    requires forall i :: 0 <= i < |w| ==> !('A' <= w[i] <= 'Z')
    ensures ToLower(w) == w
  {
  }

  lemma NameIsWord(c: Command)
    requires c != NotFound
    ensures |NameOf(c)| > 0
    ensures forall i :: 0 <= i < |NameOf(c)| ==> !IsSpace(NameOf(c)[i]) && !('A' <= NameOf(c)[i] <= 'Z')
  {
  }

  /** The first word of a line is what precedes its first space. */
  lemma FirstWord(word: string, rest: string)
    requires ' ' !in word
    ensures SplitCommand(word + " " + rest) == (word, rest)
  {
    var line := word + " " + rest;
    assert line[|word|] == ' ';
    assert IndexOf(line, ' ') == Some(|word|) by {
      assert line[..|word|] == word;
    }
    assert line[|word| + 1..] == rest;
  }

  /** A line made of a command name, a space and a parameter runs that command on the
      stripped parameter; a bare name runs it with the empty parameter. */
  lemma ParseCommandLine(c: Command, param: string)
    requires c != NotFound
    ensures Parse(NameOf(c) + " " + param) == (c, Strip(param))
    ensures Parse(NameOf(c)) == (c, "")
  {
    var name := NameOf(c);
    NameIsWord(c);
    StripWord(name);
    LowerWord(name);
    LookupNameOf(c);
    FirstWord(name, param);
    assert Strip("") == "";
  }

  /** A line whose first word names no command is not found, whatever follows it. */
  lemma UnknownCommand(word: string, param: string)
    requires ' ' !in word
    requires Lookup(ToLower(Strip(word))) == NotFound
    ensures Parse(word + " " + param).0 == NotFound
  {
    FirstWord(word, param);
  }

  // ---------------------------------------------------------------------------
  // Replies

  /** What a command results in, in place of the text it prints:
      Shown / Message are `msg` calls, Failed is `_failed`, Raised an exception that
      escapes the command, DispKeys the listing of the display switches, and Forwarded
      a command outside the modelled set, passed on unmodelled. */
  datatype Reply =
    | Quiet
    | Shown(value: real)
    | Message(text: string)
    | Failed(error: Error)
    | Raised(error: Error)
    | DispKeys(keys: set<string>)
    | Forwarded(command: Command, param: string)

  // ---------------------------------------------------------------------------
  // _pidparam

  /** The Pid properties `_pidparam` is used on. */
  datatype PidProp = KpProp | KiProp | KdProp | SetPointProp | InputProp | OutputProp

  /** The property's getter. */
  function Get(s: Pid.PidState, prop: PidProp): real {
    match prop
    case KpProp => s.kp
    case KiProp => s.rawKi
    case KdProp => s.rawKd
    case SetPointProp => s.setpoint
    case InputProp => s.input
    case OutputProp => s.output
  }

  /** The property's setter. */
  function Set(s: Pid.PidState, prop: PidProp, v: real): Pid.PidState
    requires s.Valid()
  {
    match prop
    case KpProp => Pid.AfterKp(s, v)
    case KiProp => Pid.AfterKi(s, v)
    case KdProp => Pid.AfterKd(s, v)
    case SetPointProp => Pid.AfterSetPoint(s, v)
    case InputProp => Pid.AfterInput(s, v)
    case OutputProp => Pid.AfterOutput(s, v)
  }

  /** `_pidparam(prop, param)`: show the property for an empty parameter, report a
      parameter that is not a float, otherwise assign it. */
  function PidParamStep(s: Pid.PidState, prop: PidProp, param: string, toFloat: string -> Option<real>): (Pid.PidState, Reply)
    requires s.Valid()
  {
    if param == "" then (s, Shown(Get(s, prop)))
    else match toFloat(param)
      case None => (s, Failed(ValueError))
      case Some(v) => (Set(s, prop, v), Quiet)
  }

  /** Showing and a failed conversion leave the controller alone; an assignment keeps
      the sample time (so the controller stays valid) and reads back as the value
      assigned, except that `in` and `out` are ignored while AUTO_READ, respectively
      AUTO_CALC, is set. */
  lemma PidParamEffect(s: Pid.PidState, prop: PidProp, param: string, toFloat: string -> Option<real>)
    requires s.Valid()
    ensures var (t, reply) := PidParamStep(s, prop, param, toFloat);
      && t.Valid()
      && (param == "" ==> t == s && reply == Shown(Get(s, prop)))
      && (param != "" && toFloat(param).None? ==> t == s && reply == Failed(ValueError))
      && (param != "" && toFloat(param).Some? ==>
            reply == Quiet && Get(t, prop) ==
              if prop == InputProp && Pid.HasFlag(s.cntrlMode, Pid.AUTO_READ) then s.input
              else if prop == OutputProp && Pid.HasFlag(s.cntrlMode, Pid.AUTO_CALC) then s.output
              else toFloat(param).value)
  {
  }

  // ---------------------------------------------------------------------------
  // pidm

  /** The flags with their names in the order Python 2 lists the dictionary
      {AUTO_READ: "read", AUTO_CALC: "calc", AUTO_OUT: "out"} (small integer keys
      iterate in increasing order). */
  const AutoModes: seq<(Pid.Mode, string)> := [(Pid.AUTO_READ, "read"), (Pid.AUTO_CALC, "calc"), (Pid.AUTO_OUT, "out")]

  /** The mask `pidm text` sets (text already lowered): all flags for "full", otherwise
      the flags whose names occur in text. */
  function ModeOf(text: string): (m: Pid.Mode)
    ensures Pid.HasFlag(m, Pid.AUTO_READ) <==> Contains(text, "full") || Contains(text, "read")
    ensures Pid.HasFlag(m, Pid.AUTO_CALC) <==> Contains(text, "full") || Contains(text, "calc")
    ensures Pid.HasFlag(m, Pid.AUTO_OUT) <==> Contains(text, "full") || Contains(text, "out")
  {
    if Contains(text, "full") then Pid.AUTO_FULL
    else
      (if Contains(text, "read") then Pid.AUTO_READ else Pid.MANUAL) |
      (if Contains(text, "calc") then Pid.AUTO_CALC else Pid.MANUAL) |
      (if Contains(text, "out") then Pid.AUTO_OUT else Pid.MANUAL)
  }

  /** The names of the set flags, each followed by a space. */
  function FlagNames(m: Pid.Mode): string {
    (if Pid.HasFlag(m, Pid.AUTO_READ) then "read " else "") +
    (if Pid.HasFlag(m, Pid.AUTO_CALC) then "calc " else "") +
    (if Pid.HasFlag(m, Pid.AUTO_OUT) then "out " else "")
  }

  /** The names of the set flags among the first n of AutoModes, as the loop of
      `_cmd_pidm` builds them. */
  function NamesOf(m: Pid.Mode, n: nat): string
    requires n <= |AutoModes|
  {
    if n == 0 then ""
    else NamesOf(m, n - 1) + (if Pid.HasFlag(m, AutoModes[n - 1].0) then AutoModes[n - 1].1 + " " else "")
  }

  lemma NamesOfAll(m: Pid.Mode)
    ensures NamesOf(m, 3) == FlagNames(m)
  {
    assert NamesOf(m, 1) == (if Pid.HasFlag(m, Pid.AUTO_READ) then "read " else "");
    assert NamesOf(m, 2) == NamesOf(m, 1) + (if Pid.HasFlag(m, Pid.AUTO_CALC) then "calc " else "");
  }

  /** What `pidm` without a parameter shows for mask m. */
  function ModeText(m: Pid.Mode): string {
    if m == Pid.MANUAL then "manual"
    else if m == Pid.AUTO_FULL then "auto: full"
    else "auto: " + FlagNames(m)
  }

  /** The shown texts of the masks with at most one flag, and of the full mask. */
  lemma ModeTexts()
    ensures ModeText(0) == "manual"
    ensures ModeText(1) == "auto: read "
    ensures ModeText(2) == "auto: calc "
    ensures ModeText(4) == "auto: out "
    ensures ModeText(7) == "auto: full"
  {
  }

  /** The shown texts of the masks with two flags: the names in AutoModes order. */
  lemma ModeTextsCombined()
    ensures ModeText(3) == "auto: read calc "
    ensures ModeText(5) == "auto: read out "
    ensures ModeText(6) == "auto: calc out "
  {
    assert Pid.HasFlag(3, Pid.AUTO_READ) && Pid.HasFlag(3, Pid.AUTO_CALC) && !Pid.HasFlag(3, Pid.AUTO_OUT);
    assert Pid.HasFlag(5, Pid.AUTO_READ) && !Pid.HasFlag(5, Pid.AUTO_CALC) && Pid.HasFlag(5, Pid.AUTO_OUT);
    assert !Pid.HasFlag(6, Pid.AUTO_READ) && Pid.HasFlag(6, Pid.AUTO_CALC) && Pid.HasFlag(6, Pid.AUTO_OUT);
  }

  /** t does not occur in s when no character of s is t's first one. */
  lemma {:induction false} AbsentFirst(s: string, t: string)
    requires |t| > 0 && t[0] !in s
    ensures !Contains(s, t)
    decreases |s|
  {
    if |s| > 0 {
      assert s[0] != t[0];
      assert forall i :: 0 <= i < |s| - 1 ==> s[1..][i] == s[i + 1];
      AbsentFirst(s[1..], t);
    }
  }

  lemma Occurs(s: string, t: string, i: nat)
    requires OccursAt(s, t, i)
    ensures Contains(s, t)
  {
    ContainsAt(s, t);
  }

  /** "out" occurs in a shown text only as a flag name: the "o" of "auto" is followed by ":". */
  lemma OutAbsent(names: string)
    requires 'o' !in names
    ensures !Contains("auto: " + names, "out")
  {
    var s := "auto: " + names;
    ContainsAt(s, "out");
    forall i | 0 <= i
      ensures !OccursAt(s, "out", i)
    {
      if i <= |s| - 3 {
        assert s[i..i + 3][0] == s[i] && s[i..i + 3][1] == s[i + 1];
        if i >= 6 {
          assert s[i] == names[i - 6];
        } else if i == 3 {
          assert s[i + 1] == ':';
        } else {
          assert s[i] != 'o';
        }
      }
    }
  }

  /** The parts of the text shown for an automatic mask. */
  lemma ShownParts(m: Pid.Mode, r: string, c: string, o: string)
    requires r == if Pid.HasFlag(m, Pid.AUTO_READ) then "read " else ""
    requires c == if Pid.HasFlag(m, Pid.AUTO_CALC) then "calc " else ""
    requires o == if Pid.HasFlag(m, Pid.AUTO_OUT) then "out " else ""
    ensures FlagNames(m) == r + c + o
    ensures 'f' !in "auto: " && 'f' !in r && 'f' !in c && 'f' !in o
    ensures 'r' !in "auto: " && 'r' !in c && 'r' !in o
    ensures 'c' !in "auto: " && 'c' !in r && 'c' !in o
    ensures 'o' !in r && 'o' !in c
  {
  }

  /** Each flag name occurs in the text shown for an automatic mask exactly when the
      flag is set, and "full" does not occur. */
  lemma FlagsShown(m: Pid.Mode)
    ensures var s := "auto: " + FlagNames(m);
      && (Contains(s, "read") <==> Pid.HasFlag(m, Pid.AUTO_READ))
      && (Contains(s, "calc") <==> Pid.HasFlag(m, Pid.AUTO_CALC))
      && (Contains(s, "out") <==> Pid.HasFlag(m, Pid.AUTO_OUT))
      && !Contains(s, "full")
  {
    var r := if Pid.HasFlag(m, Pid.AUTO_READ) then "read " else "";
    var c := if Pid.HasFlag(m, Pid.AUTO_CALC) then "calc " else "";
    var o := if Pid.HasFlag(m, Pid.AUTO_OUT) then "out " else "";
    ShownParts(m, r, c, o);
    var s := "auto: " + r + c + o;
    AppendAssoc("auto: ", r + c, o);
    AppendAssoc("auto: ", r, c);
    AppendAssoc("auto: " + r, c, o);
    assert 'f' !in "auto: " + r + c + o;
    AbsentFirst(s, "full");
    ReadShown(m, r, c + o);
    CalcShown(m, "auto: " + r, c, o);
    OutShown(m, r + c, o);
  }

  lemma ReadShown(m: Pid.Mode, r: string, rest: string)
    requires r == if Pid.HasFlag(m, Pid.AUTO_READ) then "read " else ""
    requires 'r' !in rest
    ensures Contains("auto: " + r + rest, "read") <==> Pid.HasFlag(m, Pid.AUTO_READ)
  {
    var s := "auto: " + r + rest;
    if Pid.HasFlag(m, Pid.AUTO_READ) {
      assert s[6..10] == "read";
      Occurs(s, "read", 6);
    } else {
      assert s == "auto: " + rest;
      AbsentFirst(s, "read");
    }
  }

  lemma CalcShown(m: Pid.Mode, front: string, c: string, o: string)
    requires c == if Pid.HasFlag(m, Pid.AUTO_CALC) then "calc " else ""
    requires 'c' !in front && 'c' !in o
    ensures Contains(front + c + o, "calc") <==> Pid.HasFlag(m, Pid.AUTO_CALC)
  {
    var s := front + c + o;
    if Pid.HasFlag(m, Pid.AUTO_CALC) {
      assert s[|front|..|front| + 4] == "calc";
      Occurs(s, "calc", |front|);
    } else {
      assert s == front + o;
      AbsentFirst(s, "calc");
    }
  }

  lemma OutShown(m: Pid.Mode, front: string, o: string)
    requires o == if Pid.HasFlag(m, Pid.AUTO_OUT) then "out " else ""
    requires 'o' !in front
    ensures Contains("auto: " + front + o, "out") <==> Pid.HasFlag(m, Pid.AUTO_OUT)
  {
    var s := "auto: " + front + o;
    if Pid.HasFlag(m, Pid.AUTO_OUT) {
      assert s[6 + |front|..9 + |front|] == "out";
      Occurs(s, "out", 6 + |front|);
    } else {
      assert s == "auto: " + front;
      OutAbsent(front);
    }
  }

  lemma NoCapitals(m: Pid.Mode)
    ensures forall k :: 0 <= k < |ModeText(m)| ==> !('A' <= ModeText(m)[k] <= 'Z')
  {
  }

  /** "manual" holds none of the words that set a flag. */
  lemma ManualNamesNothing()
    ensures !Contains("manual", "full") && !Contains("manual", "read")
    ensures !Contains("manual", "calc") && !Contains("manual", "out")
  {
    AbsentFirst("manual", "full");
    AbsentFirst("manual", "read");
    AbsentFirst("manual", "calc");
    AbsentFirst("manual", "out");
  }

  /** Entering the text `pidm` shows sets the mask it shows: display and parser agree. */
  lemma ModeTextRoundTrip(m: Pid.Mode)
    ensures ModeOf(ToLower(ModeText(m))) == m
  {
    var s := ModeText(m);
    NoCapitals(m);
    LowerWord(s);
    if m == Pid.MANUAL {
      ManualNamesNothing();
    } else if m == Pid.AUTO_FULL {
      assert s[6..10] == "full";
      Occurs(s, "full", 6);
    } else {
      FlagsShown(m);
    }
  }

  /** `pidm param`: show the mask for an empty parameter, otherwise set the mask the
      lowered parameter names (through the cntrlMode setter). */
  function PidmStep(s: Pid.PidState, param: string): (Pid.PidState, Reply) {
    if param == "" then (s, Message(ModeText(s.cntrlMode)))
    else (Pid.AfterCntrlMode(s, ModeOf(ToLower(param))), Quiet)
  }

  /** `pidm` shows the current mask, and entering what it shows sets that mask again. */
  lemma PidmShowSet(s: Pid.PidState, m: Pid.Mode)
    ensures PidmStep(s, "") == (s, Message(ModeText(s.cntrlMode)))
    ensures PidmStep(s, ModeText(m)).0.cntrlMode == m
    ensures PidmStep(PidmStep(s, ModeText(m)).0, "").1 == Message(ModeText(m))
  {
    ModeTextRoundTrip(m);
  }

  /** The `_cmd_pidm` parser: "full" sets every flag, otherwise each flag whose name
      occurs in the lowered parameter is OR-ed into an empty mask. */
  method ParseMode(param: string) returns (mode: Pid.Mode)
    ensures mode == ModeOf(ToLower(param))
  {
    mode := Pid.MANUAL;
    var text := ToLower(param);
    if Contains(text, "full") {
      mode := Pid.AUTO_FULL;
    } else {
      for i := 0 to |AutoModes|
        invariant forall k :: 0 <= k < |AutoModes| ==>
          (Pid.HasFlag(mode, AutoModes[k].0) <==> k < i && Contains(text, AutoModes[k].1))
      {
        if Contains(text, AutoModes[i].1) {
          mode := mode | AutoModes[i].0;
        }
      }
      assert AutoModes[0] == (Pid.AUTO_READ, "read") && AutoModes[1] == (Pid.AUTO_CALC, "calc");
      assert AutoModes[2] == (Pid.AUTO_OUT, "out");
      SameFlags(mode, ModeOf(text));
    }
  }

  /** A mask is determined by its three flags. */
  lemma SameFlags(a: Pid.Mode, b: Pid.Mode)
    requires Pid.HasFlag(a, Pid.AUTO_READ) == Pid.HasFlag(b, Pid.AUTO_READ)
    requires Pid.HasFlag(a, Pid.AUTO_CALC) == Pid.HasFlag(b, Pid.AUTO_CALC)
    requires Pid.HasFlag(a, Pid.AUTO_OUT) == Pid.HasFlag(b, Pid.AUTO_OUT)
    ensures a == b
  {
  }

  /** The `_cmd_pidm` formatter for the current mask. */
  method FormatMode(m: Pid.Mode) returns (state: string)
    ensures state == ModeText(m)
  {
    if m == Pid.MANUAL {
      state := "manual";
    } else if m == Pid.AUTO_FULL {
      state := "auto: full";
    } else {
      state := "auto: ";
      for i := 0 to |AutoModes|
        invariant state == "auto: " + NamesOf(m, i)
      {
        if Pid.HasFlag(m, AutoModes[i].0) {
          AppendAssoc("auto: ", NamesOf(m, i), AutoModes[i].1 + " ");
          AppendAssoc(state, AutoModes[i].1, " ");
          state := state + AutoModes[i].1 + " ";
        } else {
          assert NamesOf(m, i + 1) == NamesOf(m, i) + "";
          assert NamesOf(m, i) + "" == NamesOf(m, i);
        }
      }
      NamesOfAll(m);
    }
  }

  // ---------------------------------------------------------------------------
  // pwr

  /** `pwr param`: an empty parameter shows the output as a percentage of maxOut (a zero
      maxOut raises ZeroDivisionError); otherwise the parameter, read as a percentage of
      maxOut, goes to the guarded output setter. `float(param)` is not guarded here, so
      a parameter that is not a float raises ValueError out of the command. */
  function PwrStep(s: Pid.PidState, param: string, toFloat: string -> Option<real>): (Pid.PidState, Reply) {
    if param == "" then
      if s.outMax == 0.0 then (s, Raised(ZeroDivisionError)) else (s, Shown(s.output * 100.0 / s.outMax))
    else match toFloat(param)
      case None => (s, Raised(ValueError))
      case Some(v) => (Pid.AfterOutput(s, Percent(v, s.outMax)), Quiet)
  }

  /** `float(param) / 100 * maxOut` */
  function Percent(v: real, outMax: real): real {
    v / 100.0 * outMax
  }

  /** Showing and a refused parameter change nothing; a percentage is ignored under
      AUTO_CALC and otherwise sets the output, which `pwr` then shows as that percentage
      again, as long as maxOut is not zero. */
  lemma PwrEffect(s: Pid.PidState, param: string, toFloat: string -> Option<real>)
    ensures param == "" ==> PwrStep(s, param, toFloat).0 == s
    ensures param == "" ==> (PwrStep(s, param, toFloat).1.Raised? <==> s.outMax == 0.0)
    ensures param != "" && toFloat(param).None? ==> PwrStep(s, param, toFloat) == (s, Raised(ValueError))
    ensures param != "" && Pid.HasFlag(s.cntrlMode, Pid.AUTO_CALC) && toFloat(param).Some? ==>
      PwrStep(s, param, toFloat) == (s, Quiet)
    ensures param != "" && !Pid.HasFlag(s.cntrlMode, Pid.AUTO_CALC) && toFloat(param).Some? && s.outMax != 0.0 ==>
      var t := PwrStep(s, param, toFloat).0;
      t.(output := s.output) == s && PwrStep(t, "", toFloat) == (t, Shown(toFloat(param).value))
  {
    if param != "" && !Pid.HasFlag(s.cntrlMode, Pid.AUTO_CALC) && toFloat(param).Some? && s.outMax != 0.0 {
      PercentBack(toFloat(param).value, s.outMax);
    }
  }

  /** A percentage of a non-zero maxOut, shown as a percentage again, is the percentage. */
  lemma PercentBack(v: real, outMax: real)
    requires outMax != 0.0
    ensures Percent(v, outMax) * 100.0 / outMax == v
  {
    assert Percent(v, outMax) * 100.0 == v * outMax;
  }

  // ---------------------------------------------------------------------------
  // disp

  const OFF := "off"
  const ONESHOT := "oneshot"

  /** `disp param`: list the switches for an empty parameter; `key` alone sets it to
      oneshot, `key state` to state; a second space leaves three parts that the
      two-name unpacking refuses with a ValueError that escapes the command. */
  function CmdDispStep(states: map<string, string>, param: string): (map<string, string>, Reply) {
    if param == "" then (states, DispKeys(states.Keys))
    else match SplitOnce(param, ' ')
      case None => (states[param := ONESHOT], Quiet)
      case Some((key, toState)) =>
        if ' ' in toState then (states, Raised(ValueError))
        else (states[key := toState], Quiet)
  }

  /** The periodic `disp(key, ...)`: an unseen key is registered as off; the values are
      printed (true) unless the key is off, and a oneshot key is switched off after
      printing once. */
  function DispStep(states: map<string, string>, key: string): (map<string, string>, bool) {
    var st := if key in states then states else states[key := OFF];
    if st[key] == OFF then (st, false)
    else if st[key] == ONESHOT then (st[key := OFF], true)
    else (st, true)
  }

  /** An unseen key is registered as off and prints nothing. */
  lemma DispUnseen(states: map<string, string>, key: string)
    requires key !in states
    ensures DispStep(states, key) == (states[key := OFF], false)
  {
  }

  /** `disp key` makes the next `disp` print once and the one after it print nothing. */
  lemma DispOneshot(states: map<string, string>, key: string)
    requires key != "" && ' ' !in key
    ensures var s1 := CmdDispStep(states, key).0;
      var (s2, first) := DispStep(s1, key);
      var (s3, second) := DispStep(s2, key);
      first && !second && s2 == s3 && s2[key] == OFF
  {
    assert SplitOnce(key, ' ') == None;
  }

  /** `disp key state` with a state other than off and oneshot makes every later `disp`
      print; `disp key off` silences it. */
  lemma DispOnOff(states: map<string, string>, key: string, state: string)
    requires ' ' !in key && ' ' !in state
    ensures var s1 := CmdDispStep(states, key + " " + state).0;
      && s1 == states[key := state]
      && (state != OFF && state != ONESHOT ==> DispStep(s1, key) == (s1, true))
      && (state == OFF ==> DispStep(s1, key) == (s1, false))
  {
    SplitAtFirstSpace(key, state);
  }

  /** A parameter with two spaces is refused and changes nothing. */
  lemma DispThreeParts(states: map<string, string>, key: string, a: string, b: string)
    requires ' ' !in key
    ensures CmdDispStep(states, key + " " + a + " " + b) == (states, Raised(ValueError))
  {
    var rest := a + " " + b;
    assert key + " " + a + " " + b == key + " " + rest;
    SplitAtFirstSpace(key, rest);
    assert rest[|a|] == ' ';
  }

  lemma SplitAtFirstSpace(word: string, rest: string)
    requires ' ' !in word
    ensures word + " " + rest != ""
    ensures SplitOnce(word + " " + rest, ' ') == Some((word, rest))
  {
    FirstWord(word, rest);
    assert (word + " " + rest)[|word|] == ' ';
  }

  // ---------------------------------------------------------------------------
  // The line editor of listen

  const ESC: char := '\U{1B}'
  const CTRL_C: char := '\U{03}'
  const CTRL_Z: char := '\U{1A}'
  const BACKSPACE: char := '\U{08}'
  const DEL: char := '\U{7F}'

  /** The locals of `listen` and the line buffer. */
  datatype Editor = Editor(escape: nat, historyState: int, line: string, history: seq<string>)

  /** What a keystroke leads to besides the new editor state. */
  datatype KeyEvent = Continue | Execute(command: string) | Interrupted | Exited

  /** How a run of keystrokes ended: still listening, after Ctrl-C (KeyboardInterrupt,
      which stops the controller), after Ctrl-Z (SystemExit), or after an exception
      that `_execCommand(command)` raised and `listen` does not catch. */
  datatype Ending = Listening | Interrupt | Exit | Escaped(command: string)

  /** Python's `history[k]` does not raise. */
  predicate InRange(history: seq<string>, k: int) {
    -|history| <= k < |history|
  }

  /** `history[k]`, negative k counting from the end. */
  function At(history: seq<string>, k: int): string
    requires InRange(history, k)
  {
    if k >= 0 then history[k] else history[|history| + k]
  }

  /** `line[:-1]` */
  function DropLast(line: string): (r: string)
    ensures |line| > 0 ==> line == r + [line[|line| - 1]]
    ensures |line| == 0 ==> r == ""
  {
    if |line| == 0 then "" else line[..|line| - 1]
  }

  /** A keystroke that is neither a control key nor part of an escape sequence. */
  predicate Plain(c: char) {
    c != ESC && c != CTRL_C && c != CTRL_Z && c != BACKSPACE && c != DEL && c != '\r' && c != '\n'
  }

  /** One pass of the inner loop of `listen`, with Enter also doing what follows the
      loop: the line is taken and cleared and, if not empty, recorded and executed. */
  function KeyStep(e: Editor, c: char): (Editor, KeyEvent) {
    if c == ESC then (e.(escape := if e.escape > 0 then 0 else 1), Continue)
    else if e.escape == 2 then
      var next :=
        if c == 'A' then e.historyState - 1
        else if c == 'B' && e.historyState < -1 then e.historyState + 1
        else e.historyState;
      if InRange(e.history, next) then (e.(escape := 0, historyState := next, line := At(e.history, next)), Continue)
      else (e.(escape := 0), Continue)
    else if e.escape == 1 then (e.(escape := if c == '[' then 2 else 0), Continue)
    else if c == CTRL_C then (e, Interrupted)
    else if c == CTRL_Z then (e, Exited)
    else if c == BACKSPACE || c == DEL then (e.(line := DropLast(e.line)), Continue)
    else if c == '\r' || c == '\n' then
      if e.line == "" then (e.(historyState := 0), Continue)
      else (e.(historyState := 0, line := "", history := e.history + [e.line]), Execute(e.line))
    else (e.(line := e.line + [c]), Continue)
  }

  /** The keystrokes from e on, with the commands executed so far in acc. `raises`
      tells which lines `_execCommand` raises on (for the modelled commands, those
      whose ExecStep reply is Raised); such a line ends the run. */
  function Run(e: Editor, keys: seq<char>, acc: seq<string>, raises: string -> bool): (Editor, seq<string>, Ending)
    decreases |keys|
  {
    if |keys| == 0 then (e, acc, Listening)
    else
      var (e', event) := KeyStep(e, keys[0]);
      match event
      case Continue => Run(e', keys[1..], acc, raises)
      case Execute(command) =>
        if raises(command) then (e', acc + [command], Escaped(command))
        else Run(e', keys[1..], acc + [command], raises)
      case Interrupted => (e', acc, Interrupt)
      case Exited => (e', acc, Exit)
  }

  /** Running two pieces of input is running the first, then, if still listening, the second. */
  lemma {:induction false} RunAppend(e: Editor, a: seq<char>, b: seq<char>, acc: seq<string>, raises: string -> bool)
    ensures Run(e, a + b, acc, raises) ==
      var (e1, acc1, ending) := Run(e, a, acc, raises);
      if ending == Listening then Run(e1, b, acc1, raises) else (e1, acc1, ending)
    decreases |a|
  {
    if |a| > 0 {
      assert (a + b)[0] == a[0] && (a + b)[1..] == a[1..] + b;
      var (e', event) := KeyStep(e, a[0]);
      match event
      case Continue => RunAppend(e', a[1..], b, acc, raises);
      case Execute(command) =>
        if !raises(command) {
          RunAppend(e', a[1..], b, acc + [command], raises);
        }
      case Interrupted =>
      case Exited =>
    } else {
      assert a + b == b;
    }
  }

  /** Plain keystrokes outside an escape sequence are appended to the line. */
  lemma {:induction false} TypingAppends(e: Editor, text: string, acc: seq<string>, raises: string -> bool)
    requires e.escape == 0
    requires forall i :: 0 <= i < |text| ==> Plain(text[i])
    ensures Run(e, text, acc, raises) == (e.(line := e.line + text), acc, Listening)
    decreases |text|
  {
    if |text| > 0 {
      var e' := e.(line := e.line + [text[0]]);
      assert KeyStep(e, text[0]) == (e', Continue);
      TypingAppends(e', text[1..], acc, raises);
      assert e.line + [text[0]] + text[1..] == e.line + text;
    } else {
      assert e.line + text == e.line;
    }
  }

  /** Typing a line and pressing Enter executes exactly that line and records it in the
      history, and the run goes on unless the line raises; an empty line executes nothing. */
  lemma EnterSubmits(e: Editor, text: string, acc: seq<string>, raises: string -> bool)
    requires e.escape == 0 && e.line == ""
    requires forall i :: 0 <= i < |text| ==> Plain(text[i])
    ensures text != "" ==>
      Run(e, text + "\r", acc, raises) ==
        (e.(historyState := 0, history := e.history + [text]), acc + [text],
         if raises(text) then Escaped(text) else Listening)
    ensures text == "" ==> Run(e, text + "\r", acc, raises) == (e.(historyState := 0), acc, Listening)
  {
    RunAppend(e, text, "\r", acc, raises);
    TypingAppends(e, text, acc, raises);
    assert e.line + text == text;
  }

  /** A line that raises ends `listen`: whatever is typed after it is never read and
      no later line is executed. */
  lemma RaisingLineEndsListen(e: Editor, text: string, rest: seq<char>, acc: seq<string>, raises: string -> bool)
    requires e.escape == 0 && e.line == ""
    requires forall i :: 0 <= i < |text| ==> Plain(text[i])
    requires text != "" && raises(text)
    ensures Run(e, text + "\r" + rest, acc, raises) ==
      (e.(historyState := 0, history := e.history + [text]), acc + [text], Escaped(text))
  {
    EnterSubmits(e, text, acc, raises);
    RunAppend(e, text + "\r", rest, acc, raises);
  }

  /** A run ends with an escaped exception only on the last line it executed, and only
      a line that raises. */
  lemma {:induction false} EscapedIsLast(e: Editor, keys: seq<char>, acc: seq<string>, raises: string -> bool)
    ensures var (_, cmds, ending) := Run(e, keys, acc, raises);
      ending.Escaped? ==> |cmds| > 0 && cmds[|cmds| - 1] == ending.command && raises(ending.command)
    decreases |keys|
  {
    if |keys| > 0 {
      var (e', event) := KeyStep(e, keys[0]);
      match event
      case Continue => EscapedIsLast(e', keys[1..], acc, raises);
      case Execute(command) =>
        if !raises(command) {
          EscapedIsLast(e', keys[1..], acc + [command], raises);
        }
      case Interrupted =>
      case Exited =>
    }
  }

  /** A plain keystroke followed by Backspace (or Del) leaves the editor as it was. */
  lemma TypeThenErase(e: Editor, c: char, erase: char, acc: seq<string>, raises: string -> bool)
    requires e.escape == 0 && Plain(c)
    requires erase == BACKSPACE || erase == DEL
    ensures Run(e, [c, erase], acc, raises) == (e, acc, Listening)
  {
    var e1 := e.(line := e.line + [c]);
    assert KeyStep(e, c) == (e1, Continue);
    assert DropLast(e1.line) == e.line;
    assert KeyStep(e1, erase) == (e, Continue);
    assert [c, erase][1..] == [erase] && [erase][1..] == [];
    assert Run(e, [], acc, raises) == (e, acc, Listening);
    assert Run(e1, [erase], acc, raises) == Run(e, [], acc, raises);
    assert Run(e, [c, erase], acc, raises) == Run(e1, [erase], acc, raises);
  }

  /** Up arrow (ESC [ A) steps one entry back in the history, from the newest entry on;
      past the oldest one the line and the position stay. */
  lemma HistoryUp(e: Editor, acc: seq<string>, raises: string -> bool)
    requires e.escape == 0
    ensures var k := e.historyState - 1;
      Run(e, [ESC, '[', 'A'], acc, raises) ==
        if InRange(e.history, k) then (e.(historyState := k, line := At(e.history, k)), acc, Listening)
        else (e, acc, Listening)
  {
    assert [ESC, '[', 'A'][1..] == ['[', 'A'] && ['[', 'A'][1..] == ['A'];
  }

  /** Down arrow (ESC [ B) steps one entry forward while that stays below the newest
      entry; otherwise it reloads the entry at the current position, which right after
      Enter (position 0) is the oldest entry. */
  lemma HistoryDown(e: Editor, acc: seq<string>, raises: string -> bool)
    requires e.escape == 0
    ensures var k := if e.historyState < -1 then e.historyState + 1 else e.historyState;
      Run(e, [ESC, '[', 'B'], acc, raises) ==
        if InRange(e.history, k) then (e.(historyState := k, line := At(e.history, k)), acc, Listening)
        else (e, acc, Listening)
  {
    assert [ESC, '[', 'B'][1..] == ['[', 'B'] && ['[', 'B'][1..] == ['B'];
  }

  /** The editor's own invariant: a known escape stage, a history position that is 0 or
      a valid negative index, and only non-empty lines in the history. */
  predicate EditorValid(e: Editor) {
    && e.escape <= 2
    && -|e.history| <= e.historyState <= 0
    && forall i :: 0 <= i < |e.history| ==> e.history[i] != ""
  }

  lemma KeyStepValid(e: Editor, c: char)
    requires EditorValid(e)
    ensures EditorValid(KeyStep(e, c).0)
    ensures KeyStep(e, c).1.Execute? ==> KeyStep(e, c).1.command != ""
  {
  }

  /** Every keystroke sequence keeps the invariant and executes only non-empty lines. */
  lemma {:induction false} RunValid(e: Editor, keys: seq<char>, acc: seq<string>, raises: string -> bool)
    requires EditorValid(e)
    requires forall i :: 0 <= i < |acc| ==> acc[i] != ""
    ensures EditorValid(Run(e, keys, acc, raises).0)
    ensures forall i :: 0 <= i < |Run(e, keys, acc, raises).1| ==> Run(e, keys, acc, raises).1[i] != ""
    decreases |keys|
  {
    if |keys| > 0 {
      KeyStepValid(e, keys[0]);
      var (e', event) := KeyStep(e, keys[0]);
      match event
      case Continue => RunValid(e', keys[1..], acc, raises);
      case Execute(command) =>
        if !raises(command) {
          RunValid(e', keys[1..], acc + [command], raises);
        }
      case Interrupted =>
      case Exited =>
    }
  }

  // ---------------------------------------------------------------------------
  // _execCommand

  /** `_execCommand(val)` on the controller and the display switches. */
  function ExecStep(s: Pid.PidState, states: map<string, string>, val: string, toFloat: string -> Option<real>):
    (Pid.PidState, map<string, string>, Reply)
    requires s.Valid()
  {
    var (cmd, param) := Parse(val);
    DispatchStep(s, states, cmd, param, toFloat)
  }

  /** The command method `_execCommand` found, called with the parameter. */
  function DispatchStep(s: Pid.PidState, states: map<string, string>, cmd: Command, param: string, toFloat: string -> Option<real>):
    (Pid.PidState, map<string, string>, Reply)
    requires s.Valid()
  {
    if PropOf(cmd).Some? then
      var (t, r) := PidParamStep(s, PropOf(cmd).value, param, toFloat); (t, states, r)
    else if cmd.Pidm? then
      var (t, r) := PidmStep(s, param); (t, states, r)
    else if cmd.Pwr? then
      var (t, r) := PwrStep(s, param, toFloat); (t, states, r)
    else if cmd.Disp? then
      var (d, r) := CmdDispStep(states, param); (s, d, r)
    else if cmd.NotFound? then (s, states, Message("Command not found"))
    else (s, states, Forwarded(cmd, param))
  }

  /** The Pid property behind each of the `_pidparam` commands. */
  function PropOf(cmd: Command): Option<PidProp> {
    match cmd
    case Kp => Some(KpProp)
    case Ki => Some(KiProp)
    case Kd => Some(KdProp)
    case Spt => Some(SetPointProp)
    case In => Some(InputProp)
    case Out => Some(OutputProp)
    case _ => None
  }

  /** An unknown command changes nothing and answers "Command not found". */
  lemma ExecUnknown(s: Pid.PidState, states: map<string, string>, word: string, param: string, toFloat: string -> Option<real>)
    requires s.Valid()
    requires ' ' !in word
    requires Lookup(ToLower(Strip(word))) == NotFound
    ensures ExecStep(s, states, word + " " + param, toFloat) == (s, states, Message("Command not found"))
  {
    UnknownCommand(word, param);
  }

  /** `kp v` (and likewise ki, kd, spt) followed by `kp` shows v. */
  lemma ExecSetThenShow(s: Pid.PidState, states: map<string, string>, c: Command, param: string, toFloat: string -> Option<real>)
    requires s.Valid()
    requires c == Kp || c == Ki || c == Kd || c == Spt
    requires Strip(param) != "" && toFloat(Strip(param)).Some?
    ensures var (t, d, r) := ExecStep(s, states, NameOf(c) + " " + param, toFloat);
      && r == Quiet && d == states && t.Valid()
      && ExecStep(t, d, NameOf(c), toFloat) == (t, d, Shown(toFloat(Strip(param)).value))
  {
    ParseCommandLine(c, param);
    var prop := PropOf(c).value;
    PidParamEffect(s, prop, Strip(param), toFloat);
    var t := PidParamStep(s, prop, Strip(param), toFloat).0;
    PidParamEffect(t, prop, "", toFloat);
  }

  // ---------------------------------------------------------------------------
  // The console object

  /** Uif with the controller's PID object, the display switches and the line buffer. */
  class Uif {
    const pid: Pid.Pid
    var dispState: map<string, string>
    var lineBuffer: string

    constructor(pid: Pid.Pid)
      ensures this.pid == pid && dispState == map[] && lineBuffer == ""
    {
      this.pid := pid;
      dispState := map[];
      lineBuffer := "";
    }

    /** `_pidparam` */
    method PidParam(prop: PidProp, param: string, toFloat: string -> Option<real>) returns (reply: Reply)
      requires pid.Valid()
      modifies pid
      ensures pid.Valid()
      ensures (pid.State(), reply) == PidParamStep(old(pid.State()), prop, param, toFloat)
    {
      if param == "" {
        reply := Shown(Get(pid.State(), prop));
        return;
      }
      var v := toFloat(param);
      if v.None? {
        reply := Failed(ValueError);
        return;
      }
      match prop {
        case KpProp => pid.SetKp(v.value);
        case KiProp => pid.SetKi(v.value);
        case KdProp => pid.SetKd(v.value);
        case SetPointProp => pid.SetSetPoint(v.value);
        case InputProp => pid.SetInput(v.value);
        case OutputProp => pid.SetOutput(v.value);
      }
      reply := Quiet;
    }

    /** `_cmd_pidm` */
    method CmdPidm(param: string) returns (reply: Reply)
      modifies pid
      ensures (pid.State(), reply) == PidmStep(old(pid.State()), param)
    {
      if param == "" {
        var state := FormatMode(pid.cntrlMode);
        reply := Message(state);
      } else {
        var mode := ParseMode(param);
        pid.SetCntrlMode(mode);
        reply := Quiet;
      }
    }

    /** `_cmd_pwr` */
    method CmdPwr(param: string, toFloat: string -> Option<real>) returns (reply: Reply)
      requires pid.Valid()
      modifies pid
      ensures pid.Valid()
      ensures (pid.State(), reply) == PwrStep(old(pid.State()), param, toFloat)
    {
      if param == "" {
        if pid.outMax == 0.0 {
          reply := Raised(ZeroDivisionError);
        } else {
          reply := Shown(pid.output * 100.0 / pid.outMax);
        }
        return;
      }
      var v := toFloat(param);
      if v.None? {
        reply := Raised(ValueError);
        return;
      }
      var out := Percent(v.value, pid.outMax);
      pid.SetOutput(out);
      reply := Quiet;
    }

    /** `_cmd_disp` */
    method CmdDisp(param: string) returns (reply: Reply)
      modifies this`dispState
      ensures (dispState, reply) == CmdDispStep(old(dispState), param)
    {
      if param == "" {
        reply := DispKeys(dispState.Keys);
        return;
      }
      var key, toState := param, ONESHOT;
      if ' ' in param {
        var (k, rest) := SplitOnce(param, ' ').value;
        if ' ' in rest {
          reply := Raised(ValueError);
          return;
        }
        key, toState := k, rest;
      }
      dispState := dispState[key := toState];
      reply := Quiet;
    }

    /** `disp(key, ...)`: the result says whether the values are printed. */
    method Disp(key: string) returns (printed: bool)
      modifies this`dispState
      ensures (dispState, printed) == DispStep(old(dispState), key)
    {
      if key !in dispState {
        dispState := dispState[key := OFF];
      }
      printed := dispState[key] != OFF;
      if printed && dispState[key] == ONESHOT {
        dispState := dispState[key := OFF];
      }
    }

    /** `_execCommand` */
    method ExecCommand(val: string, toFloat: string -> Option<real>) returns (reply: Reply)
      requires pid.Valid()
      modifies this, pid
      ensures pid.Valid() && lineBuffer == old(lineBuffer)
      ensures (pid.State(), dispState, reply) == ExecStep(old(pid.State()), old(dispState), val, toFloat)
    {
      var parts := SplitCommand(val);
      var cmd := Lookup(ToLower(Strip(parts.0)));
      var param := Strip(parts.1);
      reply := Dispatch(cmd, param, toFloat);
    }

    /** The call of the command method on the parameter. */
    method Dispatch(cmd: Command, param: string, toFloat: string -> Option<real>) returns (reply: Reply)
      requires pid.Valid()
      modifies this, pid
      ensures pid.Valid() && lineBuffer == old(lineBuffer)
      ensures (pid.State(), dispState, reply) == DispatchStep(old(pid.State()), old(dispState), cmd, param, toFloat)
    {
      var prop := PropOf(cmd);
      if prop.Some? {
        reply := PidParam(prop.value, param, toFloat);
      } else if cmd.Pidm? {
        reply := CmdPidm(param);
      } else if cmd.Pwr? {
        reply := CmdPwr(param, toFloat);
      } else if cmd.Disp? {
        reply := CmdDisp(param);
      } else if cmd.NotFound? {
        reply := Message("Command not found");
      } else {
        reply := Forwarded(cmd, param);
      }
    }

    /** `listen` fed with the given keystrokes: the line editor runs on the locals
        escapeState, historyState and history and on the line buffer, and the result
        lists the lines handed to `_execCommand`, in order, and how the run ended;
        `raises` tells which lines `_execCommand` raises on, which ends the loop. */
    method Listen(keys: seq<char>, raises: string -> bool) returns (commands: seq<string>, ending: Ending)
      modifies this`lineBuffer
      ensures var (e, cmds, end) := Run(Editor(0, 0, old(lineBuffer), []), keys, [], raises);
        lineBuffer == e.line && commands == cmds && ending == end
    {
      var escapeState: nat := 0;
      var historyState := 0;
      var history: seq<string> := [];
      commands := [];
      var i := 0;
      while i < |keys|
        invariant 0 <= i <= |keys|
        invariant Run(Editor(escapeState, historyState, lineBuffer, history), keys[i..], commands, raises)
               == Run(Editor(0, 0, old(lineBuffer), []), keys, [], raises)
      {
        var c := keys[i];
        assert keys[i..][0] == c && keys[i..][1..] == keys[i + 1..];
        if c == ESC {
          if escapeState > 0 {
            escapeState := 0;
          } else {
            escapeState := 1;
          }
        } else if escapeState == 2 {
          escapeState := 0;
          var lastHistoryState := historyState;
          if c == 'A' {
            historyState := historyState - 1;
          } else if c == 'B' {
            if historyState < -1 {
              historyState := historyState + 1;
            }
          }
          if InRange(history, historyState) {
            lineBuffer := At(history, historyState);
          } else {
            historyState := lastHistoryState;
          }
        } else if escapeState == 1 {
          if c == '[' {
            escapeState := 2;
          } else {
            escapeState := 0;
          }
        } else if c == CTRL_C {
          return commands, Interrupt;
        } else if c == CTRL_Z {
          return commands, Exit;
        } else if c == BACKSPACE || c == DEL {
          lineBuffer := DropLast(lineBuffer);
        } else if c == '\r' || c == '\n' {
          historyState := 0;
          var val := lineBuffer;
          lineBuffer := "";
          if val != "" {
            history := history + [val];
            commands := commands + [val];
            if raises(val) {
              return commands, Escaped(val);
            }
          }
        } else {
          lineBuffer := lineBuffer + [c];
        }
        i := i + 1;
      }
      assert keys[i..] == [];
      return commands, Listening;
    }
  }
}
