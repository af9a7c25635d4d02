/** The PID controller of the reflow oven client (client/pid.py).

    The controller's data is the value type PidState; every setter, `initialize`,
    `compute` and one tick of the update loop is a transition on it (the functions
    After..., Initialized, Computed, Ticked), and class Pid keeps the same data in
    fields that its methods update one by one, each method proved to perform exactly
    its transition. The control law is stated over `real`. */
module Pid {
  import opened Common

  /** The enable-mode mask: any subset of the three automatic flags. */
  type Mode = bv3

  const AUTO_READ: Mode := 1
  const AUTO_CALC: Mode := 2
  const AUTO_OUT: Mode := 4
  const AUTO_FULL: Mode := 7
  const MANUAL: Mode := 0

  const DIRECT: int := 0
  const REVERSE: int := 1

  predicate HasFlag(mode: Mode, flag: Mode) {
    mode & flag != 0
  }

  /** Pid._clamp: val limited to [low, high]. */
  function Clamp(val: real, low: real, high: real): (r: real)
    ensures r == val || r == low || r == high
    ensures low <= val <= high ==> r == val
    ensures low <= high ==> low <= r <= high
  {
    if val > high then high else if val < low then low else val
  }

  /** All the data of a Pid object, field for field. */
  datatype PidState = PidState(
    kp: real,          // _kp, also what the `kp` getter returns
    ki: real,          // _ki: the integral gain scaled by the sample time and signed by the direction
    kd: real,          // _kd: the derivative gain divided by the sample time and signed by the direction
    rawKi: real,       // _oki: the integral gain as last set, what the `ki` getter returns
    rawKd: real,       // _okd: the derivative gain as last set, what the `kd` getter returns
    sampleTime: real,
    cntrlDir: int,
    cntrlMode: Mode,
    input: real,
    output: real,
    setpoint: real,
    iterm: real,
    lastInput: real,
    outMin: real,
    outMax: real)
  {
    /** The sample time is never zero: it starts at 1 and the setter refuses 0. */
    predicate Valid() { sampleTime != 0.0 }
  }

  /** Pid.__init__ with coeffs (kp, ki, kd). */
  function Initial(kp: real, ki: real, kd: real): (s: PidState)
    ensures s.Valid()
  {
    PidState(kp, ki, kd, ki, kd, 1.0, DIRECT, AUTO_FULL,
             0.0, 0.0, 0.0, 0.0, 0.0, 0.0, 255.0)
  }

  function Sign(dir: int): real {
    if dir == REVERSE then -1.0 else 1.0
  }

  function AfterKp(s: PidState, val: real): PidState {
    s.(kp := val)
  }

  function AfterKi(s: PidState, val: real): PidState {
    s.(rawKi := val, ki := Sign(s.cntrlDir) * val * s.sampleTime)
  }

  function AfterKd(s: PidState, val: real): PidState
    requires s.Valid()
  {
    s.(rawKd := val, kd := Sign(s.cntrlDir) * val / s.sampleTime)
  }

  /** The sampleTime setter. `_ki *= ratio` runs before `_kd /= ratio`, so a zero
      sample time zeroes _ki and then raises ZeroDivisionError, leaving the rest. */
  function AfterSampleTime(s: PidState, val: real): (PidState, Outcome)
    requires s.Valid()
  {
    var ratio := val / s.sampleTime;
    if ratio == 0.0 then (s.(ki := s.ki * ratio), Fail(ZeroDivisionError))
    else (s.(ki := s.ki * ratio, kd := s.kd / ratio, sampleTime := val), Pass)
  }

  function AfterCntrlDir(s: PidState, val: int): PidState {
    if val != s.cntrlDir then s.(kp := -s.kp, ki := -s.ki, kd := -s.kd, cntrlDir := val)
    else s.(cntrlDir := val)
  }

  function Initialized(s: PidState): PidState {
    s.(lastInput := s.input, iterm := Clamp(s.output, s.outMin, s.outMax))
  }

  function AfterCntrlMode(s: PidState, val: Mode): PidState {
    var t := if s.cntrlMode ^ val != 0 then Initialized(s) else s;
    t.(cntrlMode := val)
  }

  /** The maxOut setter, as written: output and iterm are clamped to [outMin, outMin]. */
  function AfterMaxOut(s: PidState, val: real): PidState {
    s.(outMax := val,
       output := Clamp(s.output, s.outMin, s.outMin),
       iterm := Clamp(s.iterm, s.outMin, s.outMin))
  }

  /** The minOut setter, as written: output and iterm are clamped to [val, val]. */
  function AfterMinOut(s: PidState, val: real): PidState {
    s.(outMin := val,
       output := Clamp(s.output, val, val),
       iterm := Clamp(s.iterm, val, val))
  }

  function AfterInput(s: PidState, val: real): PidState {
    if !HasFlag(s.cntrlMode, AUTO_READ) then s.(input := val) else s
  }

  function AfterOutput(s: PidState, val: real): PidState {
    if !HasFlag(s.cntrlMode, AUTO_CALC) then s.(output := val) else s
  }

  function AfterSetPoint(s: PidState, val: real): PidState {
    s.(setpoint := val)
  }

  /** compute's integral term, `ki * error`, before clamping. */
  function IntegralTerm(ki: real, error: real): real {
    ki * error
  }

  /** compute's `pidResult`: the proportional term, the integral term and the derivative
      term, which the source weights by kd*kd. */
  function PidResult(kp: real, error: real, iterm: real, kd: real, dInput: real): real {
    kp * error + iterm - kd * kd * dInput
  }

  /** Pid.compute: the non-accumulating integral term and the kd*kd derivative term. */
  function Computed(s: PidState): PidState {
    var error := s.setpoint - s.input;
    var iterm := Clamp(IntegralTerm(s.ki, error), s.outMin, s.outMax);
    var dInput := s.input - s.lastInput;
    s.(iterm := iterm,
       output := Clamp(PidResult(s.kp, error, iterm, s.kd, dInput), s.outMin, s.outMax),
       lastInput := s.input)
  }

  /** What one pass of the body of Pid._update does and pushes. */
  datatype TickResult = TickResult(state: PidState, pushed: Option<real>, lastOutput: real)

  /** One pass of the _update loop. `pulled` is what the update callback returns
      (None: there is no update callback), `hasPush` says whether an output-changed
      callback exists, and `lastOutput` is the output seen by the previous pass. */
  function Ticked(s: PidState, lastOutput: real, pulled: Option<real>, hasPush: bool): TickResult {
    var s1 := if HasFlag(s.cntrlMode, AUTO_READ) && pulled.Some? then s.(input := pulled.value) else s;
    var s2 := if HasFlag(s.cntrlMode, AUTO_CALC) then Computed(s1) else s1;
    var push := HasFlag(s2.cntrlMode, AUTO_OUT) && hasPush && s2.output != lastOutput;
    TickResult(s2, if push then Some(s2.output) else None, s2.output)
  }

  /** `~self._output`, which seeds lastOutput before the first pass. Python's `~` is
      defined on ints only: on a float it raises TypeError, which ends the update
      thread before its first pass. On an int the seed always differs from it. */
  function LastOutputSeed(output: Num): (r: Result<real>)
    ensures r.Err? <==> output.Float?
    ensures r.Err? ==> r.error == TypeError
    ensures r.Ok? ==> r.value != output.Value() && r.value + output.Value() == -1.0
  {
    match output
    case Int(i) => Ok((-i - 1) as real)
    case Float(_) => Err(TypeError)
  }

  // ---------------------------------------------------------------------------
  // Properties of the control law

  /** compute keeps iterm and output within the output limits and records the input. */
  lemma ComputeBounded(s: PidState)
    requires s.outMin <= s.outMax
    ensures var t := Computed(s);
      s.outMin <= t.iterm <= s.outMax && s.outMin <= t.output <= s.outMax && t.lastInput == s.input
  {
  }

  /** The integral term does not accumulate: the old iterm and output do not influence compute. */
  lemma ComputeForgetsIterm(s: PidState, iterm: real, output: real)
    ensures Computed(s.(iterm := iterm, output := output)) == Computed(s)
  {
  }

  /** compute changes iterm, output and lastInput and nothing else. */
  lemma ComputeKeepsRest(s: PidState)
    ensures Computed(s).(iterm := s.iterm, output := s.output, lastInput := s.lastInput) == s
  {
  }

  /** With no integral and no derivative gain the controller is purely proportional. */
  lemma ProportionalOnly(s: PidState)
    requires s.ki == 0.0 && s.kd == 0.0
    requires s.outMin <= 0.0 <= s.outMax
    ensures Computed(s).output == Clamp(s.kp * (s.setpoint - s.input), s.outMin, s.outMax)
    ensures Computed(s).iterm == 0.0
  {
    var e := s.setpoint - s.input;
    assert IntegralTerm(s.ki, e) == 0.0;
    assert PidResult(s.kp, e, 0.0, s.kd, s.input - s.lastInput) == s.kp * e;
  }

  /** With all gains zero and non-negative limits, compute drives the output to outMin. */
  lemma ZeroGainsGiveOutMin(s: PidState)
    requires s.kp == 0.0 && s.ki == 0.0 && s.kd == 0.0
    requires 0.0 <= s.outMin <= s.outMax
    ensures Computed(Initialized(s)).output == s.outMin
  {
  }

  // ---------------------------------------------------------------------------
  // Gains, sample time and direction

  /** The internal gains agree with the raw ones under the current sample time and direction. */
  predicate GainsConsistent(s: PidState)
    requires s.Valid()
  {
    && (s.cntrlDir == DIRECT || s.cntrlDir == REVERSE)
    && s.ki == Sign(s.cntrlDir) * s.rawKi * s.sampleTime
    && s.kd == Sign(s.cntrlDir) * s.rawKd / s.sampleTime
  }

  lemma InitialGainsConsistent(kp: real, ki: real, kd: real)
    ensures GainsConsistent(Initial(kp, ki, kd))
  {
  }

  /** The ki and kd setters store the raw value, which the getters return, and scale the
      internal gain by the sample time, negated only in REVERSE direction. */
  lemma GainSetters(s: PidState, val: real)
    requires s.Valid()
    ensures AfterKi(s, val).rawKi == val && AfterKd(s, val).rawKd == val
    ensures s.cntrlDir == REVERSE ==> AfterKi(s, val).ki == -val * s.sampleTime
    ensures s.cntrlDir != REVERSE ==> AfterKi(s, val).ki == val * s.sampleTime
    ensures s.cntrlDir == REVERSE ==> AfterKd(s, val).kd == -val / s.sampleTime
    ensures s.cntrlDir != REVERSE ==> AfterKd(s, val).kd == val / s.sampleTime
  {
  }

  lemma SettersKeepGainsConsistent(s: PidState, val: real)
    requires s.Valid() && GainsConsistent(s)
    ensures GainsConsistent(AfterKi(s, val)) && GainsConsistent(AfterKd(s, val))
    ensures AfterKi(s, val).Valid() && AfterKd(s, val).Valid()
  {
  }

  /** Changing the sample time rescales the internal ki by new/old and kd by old/new
      and leaves the raw gains alone; so it keeps the gains consistent. */
  lemma SampleTimeRescales(s: PidState, val: real)
    requires s.Valid() && val != 0.0
    ensures var (t, out) := AfterSampleTime(s, val);
      && out == Pass && t.Valid() && t.sampleTime == val
      && t.ki == s.ki * (val / s.sampleTime) && t.kd == s.kd * (s.sampleTime / val)
      && t.rawKi == s.rawKi && t.rawKd == s.rawKd
  {
    RatioFacts(s.kd, s.sampleTime, val);
  }

  lemma SampleTimeKeepsGainsConsistent(s: PidState, val: real)
    requires s.Valid() && val != 0.0 && GainsConsistent(s)
    ensures AfterSampleTime(s, val).0.Valid() && GainsConsistent(AfterSampleTime(s, val).0)
  {
    var T := s.sampleTime;
    var g := Sign(s.cntrlDir);
    RatioFacts(s.kd, T, val);
    RescaleKi(g * s.rawKi, T, val);
    RescaleKd(g * s.rawKd, T, val);
  }

  /** The ratio new/old of two non-zero sample times is non-zero, and dividing by it
      is multiplying by old/new. */
  lemma RatioFacts(x: real, T: real, val: real)
    requires T != 0.0 && val != 0.0
    ensures val / T != 0.0 && x / (val / T) == x * (T / val)
  {
    assert (val / T) * (T / val) == 1.0;
  }

  lemma RescaleKi(gk: real, T: real, val: real)
    requires T != 0.0
    ensures gk * T * (val / T) == gk * val
  {
    assert T * (val / T) == val;
  }

  lemma RescaleKd(gk: real, T: real, val: real)
    requires T != 0.0 && val != 0.0
    ensures gk / T * (T / val) == gk / val
  {
    assert (1.0 / T) * (T / val) == 1.0 / val;
  }

  /** Setting the sample time to zero zeroes _ki and raises, changing nothing else. */
  lemma SampleTimeZeroFails(s: PidState)
    requires s.Valid()
    ensures AfterSampleTime(s, 0.0) == (s.(ki := 0.0), Fail(ZeroDivisionError))
  {
  }

  /** With only a proportional gain, a change of sample time does not change what compute yields. */
  lemma SampleTimeKeepsProportionalOutput(s: PidState, val: real)
    requires s.Valid() && val != 0.0
    requires s.ki == 0.0 && s.kd == 0.0
    ensures Computed(AfterSampleTime(s, val).0).output == Computed(s).output
  {
  }

  /** A direction change negates kp, ki and kd; setting the same direction changes nothing. */
  lemma DirectionFlip(s: PidState, val: int)
    ensures val != s.cntrlDir ==> var t := AfterCntrlDir(s, val);
      t.kp == -s.kp && t.ki == -s.ki && t.kd == -s.kd && t.rawKi == s.rawKi && t.rawKd == s.rawKd
    ensures val == s.cntrlDir ==> AfterCntrlDir(s, val) == s
  {
  }

  /** Flipping the direction and flipping it back restores every gain. */
  lemma DirectionFlipTwice(s: PidState, val: int)
    ensures AfterCntrlDir(AfterCntrlDir(s, val), s.cntrlDir) == s
  {
  }

  /** Between DIRECT and REVERSE a direction change keeps the gains consistent. */
  lemma DirectionKeepsGainsConsistent(s: PidState, val: int)
    requires s.Valid() && GainsConsistent(s)
    requires val == DIRECT || val == REVERSE
    ensures AfterCntrlDir(s, val).Valid() && GainsConsistent(AfterCntrlDir(s, val))
  {
  }

  // ---------------------------------------------------------------------------
  // Mode, limits and guarded setters

  /** A new mode mask first re-initialises the controller; the same mask changes nothing. */
  lemma ModeChange(s: PidState, val: Mode)
    ensures val != s.cntrlMode ==> var t := AfterCntrlMode(s, val);
      t.cntrlMode == val && t.lastInput == s.input &&
      t.iterm == Clamp(s.output, s.outMin, s.outMax) &&
      t.(cntrlMode := s.cntrlMode, lastInput := s.lastInput, iterm := s.iterm) == s
    ensures val == s.cntrlMode ==> AfterCntrlMode(s, val) == s
  {
  }

  /** Setting either limit forces output and iterm to outMin, as written. */
  lemma LimitSettersForceOutMin(s: PidState, val: real)
    ensures var t := AfterMaxOut(s, val);
      t.outMax == val && t.output == s.outMin && t.iterm == s.outMin
    ensures var t := AfterMinOut(s, val);
      t.outMin == val && t.output == val && t.iterm == val
  {
  }

  /** inputx reads back as the value set exactly when AUTO_READ is clear (or the input
      already held it), and it changes no other field. */
  lemma InputSetterGuard(s: PidState, val: real)
    ensures AfterInput(s, val).input == val <==> !HasFlag(s.cntrlMode, AUTO_READ) || s.input == val
    ensures AfterInput(s, val).(input := s.input) == s
  {
  }

  /** output reads back as the value set exactly when AUTO_CALC is clear (or the output
      already held it), and it changes no other field. */
  lemma OutputSetterGuard(s: PidState, val: real)
    ensures AfterOutput(s, val).output == val <==> !HasFlag(s.cntrlMode, AUTO_CALC) || s.output == val
    ensures AfterOutput(s, val).(output := s.output) == s
  {
  }

  /** With AUTO_READ clear and AUTO_CALC set, the next tick computes from the input
      set by hand, whatever the update callback would return. */
  lemma ManualInputIsComputed(s: PidState, val: real, lastOutput: real, pulled: Option<real>, hasPush: bool)
    requires !HasFlag(s.cntrlMode, AUTO_READ) && HasFlag(s.cntrlMode, AUTO_CALC)
    ensures Ticked(AfterInput(s, val), lastOutput, pulled, hasPush).state == Computed(s.(input := val))
  {
  }

  /** With AUTO_CALC clear and AUTO_OUT set, an output set by hand survives the next
      tick and is pushed to the output callback when it differs from the last output. */
  lemma ManualOutputIsPushed(s: PidState, val: real, lastOutput: real, pulled: Option<real>)
    requires !HasFlag(s.cntrlMode, AUTO_CALC) && HasFlag(s.cntrlMode, AUTO_OUT)
    requires val != lastOutput
    ensures Ticked(AfterOutput(s, val), lastOutput, pulled, true).pushed == Some(val)
  {
  }

  // ---------------------------------------------------------------------------
  // The update tick

  /** Under AUTO_CALC with ordered limits, a value a tick pushes lies within them. */
  lemma TickPushBounded(s: PidState, lastOutput: real, pulled: Option<real>, hasPush: bool)
    requires HasFlag(s.cntrlMode, AUTO_CALC) && s.outMin <= s.outMax
    ensures var r := Ticked(s, lastOutput, pulled, hasPush);
      r.pushed.Some? ==> s.outMin <= r.pushed.value <= s.outMax
  {
    var pre := if HasFlag(s.cntrlMode, AUTO_READ) && pulled.Some? then s.(input := pulled.value) else s;
    ComputeBounded(pre);
  }

  /** A tick changes the input only by pulling (AUTO_READ and a callback), pushes
      nothing without AUTO_OUT or a callback, pushes only a changed output, remembers
      the output it ends with, keeps output and iterm without AUTO_CALC, and leaves
      gains, mode, limits and setpoint alone. */
  lemma TickEffects(s: PidState, lastOutput: real, pulled: Option<real>, hasPush: bool)
    ensures var r := Ticked(s, lastOutput, pulled, hasPush);
      && r.state.input == (if HasFlag(s.cntrlMode, AUTO_READ) && pulled.Some? then pulled.value else s.input)
      && (!HasFlag(s.cntrlMode, AUTO_OUT) || !hasPush ==> r.pushed == None)
      && (r.pushed.Some? ==> r.pushed.value == r.state.output && r.state.output != lastOutput)
      && r.lastOutput == r.state.output
      && (!HasFlag(s.cntrlMode, AUTO_CALC) ==> r.state.output == s.output && r.state.iterm == s.iterm)
      && r.state.(input := s.input, iterm := s.iterm, output := s.output, lastInput := s.lastInput) == s
  {
  }

  /** Without AUTO_CALC, a tick that pulls nothing pushes nothing after a tick: the same
      output is pushed at most once. */
  lemma TickPushesOnce(s: PidState, lastOutput: real, pulled: Option<real>, hasPush: bool)
    requires !HasFlag(s.cntrlMode, AUTO_CALC)
    ensures var r := Ticked(s, lastOutput, pulled, hasPush);
      Ticked(r.state, r.lastOutput, None, hasPush).pushed == None
  {
  }

  /** A tick in manual mode changes nothing and pushes nothing. */
  lemma ManualTickIsIdle(s: PidState, lastOutput: real, pulled: Option<real>, hasPush: bool)
    requires s.cntrlMode == MANUAL
    ensures Ticked(s, lastOutput, pulled, hasPush) == TickResult(s, None, s.output)
  {
  }

  /** Seeding lastOutput with ~output makes the first tick push, whenever pushing is
      enabled and the output starts at a non-negative int within non-negative limits;
      a float output makes the seed raise TypeError before any tick. */
  lemma FirstTickPushes(s: PidState, out0: Num, pulled: Option<real>)
    requires s.output == out0.Value() && 0.0 <= out0.Value()
    requires 0.0 <= s.outMin <= s.outMax
    requires HasFlag(s.cntrlMode, AUTO_OUT)
    ensures out0.Float? ==> LastOutputSeed(out0) == Err(TypeError)
    ensures out0.Int? ==> Ticked(s, LastOutputSeed(out0).value, pulled, true).pushed.Some?
  {
    if out0.Int? && HasFlag(s.cntrlMode, AUTO_CALC) {
      var pre := if HasFlag(s.cntrlMode, AUTO_READ) && pulled.Some? then s.(input := pulled.value) else s;
      ComputeBounded(pre);
    }
  }

  // ---------------------------------------------------------------------------

  /** The controller object. The update and output-changed callbacks are not stored:
      Tick receives what the update callback returns and whether an output callback
      exists, and reports the value it would push. */
  class Pid {
    var kp: real
    var ki: real
    var kd: real
    var oki: real
    var okd: real
    var sampleTime: real
    var cntrlDir: int
    var cntrlMode: Mode
    var input: real
    var output: real
    var setpoint: real
    var iterm: real
    var lastInput: real
    var outMin: real
    var outMax: real

    function State(): PidState
      reads this
    {
      PidState(kp, ki, kd, oki, okd, sampleTime, cntrlDir, cntrlMode,
               input, output, setpoint, iterm, lastInput, outMin, outMax)
    }

    predicate Valid()
      reads this
    {
      State().Valid()
    }

    constructor (kp0: real, ki0: real, kd0: real)
      ensures Valid() && State() == Initial(kp0, ki0, kd0)
    {
      kp, ki, kd := kp0, ki0, kd0;
      oki, okd := ki0, kd0;
      sampleTime := 1.0;
      cntrlDir := DIRECT;
      cntrlMode := AUTO_FULL;
      input, output, setpoint := 0.0, 0.0, 0.0;
      iterm, lastInput := 0.0, 0.0;
      outMin, outMax := 0.0, 255.0;
    }

    /** The `kp`, `ki`, `kd` getters: kp is the internal gain, ki and kd the raw ones. */
    function GetKp(): real reads this { kp }
    function GetKi(): real reads this { oki }
    function GetKd(): real reads this { okd }

    method SetKp(val: real)
      modifies this
      ensures State() == AfterKp(old(State()), val)
    {
      kp := val;
    }

    method SetKi(val: real)
      modifies this
      ensures State() == AfterKi(old(State()), val)
    {
      oki := val;
      var v := val;
      if cntrlDir == REVERSE {
        v := v * -1.0;
      }
      ki := v * sampleTime;
    }

    method SetKd(val: real)
      requires Valid()
      modifies this
      ensures Valid() && State() == AfterKd(old(State()), val)
    {
      okd := val;
      var v := val;
      if cntrlDir == REVERSE {
        v := v * -1.0;
      }
      kd := v / sampleTime;
    }

    method SetSampleTime(val: real) returns (out: Outcome)
      requires Valid()
      modifies this
      ensures Valid()
      ensures State() == AfterSampleTime(old(State()), val).0
      ensures out == AfterSampleTime(old(State()), val).1
    {
      ghost var s := State();
      var ratio := val / sampleTime;
      ki := ki * ratio;
      if ratio == 0.0 {
        out := Fail(ZeroDivisionError);
      } else {
        assert ratio * sampleTime == val;
        kd := kd / ratio;
        sampleTime := val;
        out := Pass;
      }
      assert State() == AfterSampleTime(s, val).0;
    }

    method SetCntrlDir(val: int)
      modifies this
      ensures State() == AfterCntrlDir(old(State()), val)
    {
      if val != cntrlDir {
        kp := kp * -1.0;
        ki := ki * -1.0;
        kd := kd * -1.0;
      }
      cntrlDir := val;
    }

    method Initialize()
      modifies this
      ensures State() == Initialized(old(State()))
    {
      lastInput := input;
      iterm := Clamp(output, outMin, outMax);
    }

    method SetCntrlMode(val: Mode)
      modifies this
      ensures State() == AfterCntrlMode(old(State()), val)
    {
      if cntrlMode ^ val != 0 {
        Initialize();
      }
      cntrlMode := val;
    }

    method SetMaxOut(val: real)
      modifies this
      ensures State() == AfterMaxOut(old(State()), val)
    {
      outMax := val;
      output := Clamp(output, outMin, outMin);
      iterm := Clamp(iterm, outMin, outMin);
    }

    method SetMinOut(val: real)
      modifies this
      ensures State() == AfterMinOut(old(State()), val)
    {
      outMin := val;
      output := Clamp(output, outMin, outMin);
      iterm := Clamp(iterm, outMin, outMin);
    }

    method SetInput(val: real)
      modifies this
      ensures State() == AfterInput(old(State()), val)
    {
      if cntrlMode & AUTO_READ == 0 {
        input := val;
      }
    }

    method SetOutput(val: real)
      modifies this
      ensures State() == AfterOutput(old(State()), val)
    {
      if cntrlMode & AUTO_CALC == 0 {
        output := val;
      }
    }

    method SetSetPoint(val: real)
      modifies this
      ensures State() == AfterSetPoint(old(State()), val)
    {
      setpoint := val;
    }

    method Compute()
      modifies this
      ensures State() == Computed(old(State()))
    {
      ghost var s := State();
      var error := setpoint - input;
      iterm := Clamp(IntegralTerm(ki, error), outMin, outMax);
      var dInput := input - lastInput;
      var pidResult := PidResult(kp, error, iterm, kd, dInput);
      output := Clamp(pidResult, outMin, outMax);
      lastInput := input;
      assert iterm == Computed(s).iterm && output == Computed(s).output;
    }

    /** One pass of the _update loop body (without its sleep). */
    method Tick(lastOutput: real, pulled: Option<real>, hasPush: bool)
      returns (pushed: Option<real>, newLastOutput: real)
      modifies this
      ensures Ticked(old(State()), lastOutput, pulled, hasPush) == TickResult(State(), pushed, newLastOutput)
    {
      if cntrlMode & AUTO_READ != 0 && pulled.Some? {
        input := pulled.value;
      }
      if cntrlMode & AUTO_CALC != 0 {
        Compute();
      }
      pushed := None;
      if cntrlMode & AUTO_OUT != 0 && hasPush && output != lastOutput {
        pushed := Some(output);
      }
      newLastOutput := output;
    }
  }
}
