/** The reflow controller helpers of client/reflowcntrl.py: the profile-to-trajectory
    generator, the 3-byte serial frame decoder, the bake sequencer that feeds the
    trajectory into the PID setpoint, and the bounded display buffer. */
module ReflowCntrl {
  import opened Common
  import Pid

  // ---------------------------------------------------------------------------
  // Python 2 numbers (Num itself is in Common)

  /** Python's `//` on ints: the quotient rounded towards minus infinity. */
  function FloorDiv(a: int, b: int): (q: int)
    requires b != 0
    ensures b > 0 ==> q * b <= a < q * b + b
    ensures b < 0 ==> q * b >= a > q * b + b
  {
    if b > 0 then a / b else (-a) / (-b)
  }

  function Sub(a: Num, b: Num): (r: Num)
    ensures r.Value() == a.Value() - b.Value()
  {
    if a.Int? && b.Int? then Int(a.i - b.i) else Float(a.Value() - b.Value())
  }

  function Mul(a: Num, b: Num): (r: Num)
    ensures r.Value() == a.Value() * b.Value()
  {
    if a.Int? && b.Int? then Int(a.i * b.i) else Float(a.Value() * b.Value())
  }

  /** Python 2 `a / b`: ZeroDivisionError on a zero divisor, floor division on two
      ints, true division otherwise. */
  function Div(a: Num, b: Num): (r: Result<Num>)
    ensures r.Err? <==> b.Value() == 0.0
    ensures r.Err? ==> r.error == ZeroDivisionError
    ensures r.Ok? && !(a.Int? && b.Int?) ==> r.value.Value() == a.Value() / b.Value()
    ensures r.Ok? && a.Int? && b.Int? ==> r.value == Int(FloorDiv(a.i, b.i))
  {
    if b.Value() == 0.0 then Err(ZeroDivisionError)
    else if a.Int? && b.Int? then Ok(Int(FloorDiv(a.i, b.i)))
    else Ok(Float(a.Value() / b.Value()))
  }

  /** Python 2 `round(x)`: to the nearest integer, halves away from zero. */
  function Round(x: real): (r: int)
    ensures x - 0.5 <= r as real <= x + 0.5
    ensures r as real - x == 0.5 ==> x > 0.0
    ensures x - r as real == 0.5 ==> x < 0.0
  {
    if x >= 0.0 then (x + 0.5).Floor else -((-x + 0.5).Floor)
  }

  // ---------------------------------------------------------------------------
  // Trajectory generator

  /** The step count of a phase: `int(round(duration / timebase))`, and 1 instead of 0. */
  function StepCount(q: real): (n: int)
    ensures n != 0
    ensures -0.5 < q < 0.5 ==> n == 1
    ensures !(-0.5 < q < 0.5) ==> q - 0.5 <= n as real <= q + 0.5
  {
    var n := Round(q);
    if n == 0 then 1 else n
  }

  /** The list comprehension `[begin + i * width for i in range(n)]`. */
  function Ramp(begin: real, width: real, n: nat): (r: seq<real>)
    ensures |r| == n
    ensures forall i :: 0 <= i < n ==> r[i] == begin + i as real * width
  {
    if n == 0 then [] else Ramp(begin, width, n - 1) + [begin + (n - 1) as real * width]
  }

  /** The phase length that _convertToSteps produces for a duration and a timebase,
      None when the division raises. */
  function PhaseLength(duration: Num, timebase: Num): Option<int> {
    match Div(duration, timebase)
    case Ok(q) => Some(StepCount(q.Value()))
    case Err(_) => None
  }

  /** The body of _convertToSteps once the step count n is known: n points
      begin + i*(end-begin)/n, the last one replaced by end. A negative n leaves the
      list empty, so the assignment to its last element raises IndexError. */
  function Steps(begin: real, end: real, n: int): (r: Result<seq<real>>)
    requires n != 0
    ensures r.Err? <==> n < 0
    ensures r.Err? ==> r.error == IndexError
    ensures r.Ok? ==> |r.value| == n && r.value[n - 1] == end
    ensures r.Ok? && n >= 2 ==> r.value[0] == begin
  {
    var width := (end - begin) / n as real;
    if n < 0 then Err(IndexError)
    else
      var steps := Ramp(begin, width, n);
      Ok(steps[..n - 1] + [end])
  }

  /** Every point but the last is begin + i*(end-begin)/n. */
  lemma StepsInterpolate(begin: real, end: real, n: int, i: nat)
    requires n != 0 && Steps(begin, end, n).Ok?
    requires i + 1 < n
    ensures Steps(begin, end, n).value[i] == begin + i as real * ((end - begin) / n as real)
  {
  }

  /** Monotonicity of the interpolation b + k*w in k, in whichever direction w points. */
  lemma InterpolationOrder(b: real, w: real, i: real, j: real)
    requires i <= j
    ensures w >= 0.0 ==> b + i * w <= b + j * w
    ensures w <= 0.0 ==> b + j * w <= b + i * w
  {
    assert (j - i) * w == j * w - i * w;
    if w >= 0.0 {
      assert (j - i) * w >= 0.0;
    } else {
      assert (j - i) * w <= 0.0;
    }
  }

  lemma StepWidth(b: real, e: real, n: nat)
    requires n >= 1
    ensures var w := (e - b) / n as real;
      b + n as real * w == e && (b <= e ==> w >= 0.0) && (e <= b ==> w <= 0.0)
  {
    var w := (e - b) / n as real;
    assert n as real * w == e - b;
  }

  /** Every point lies between begin and end, and the points never move away from end. */
  lemma StepsBetween(b: real, e: real, n: int, i: nat, j: nat)
    requires n != 0 && Steps(b, e, n).Ok?
    requires i <= j < n
    ensures var steps := Steps(b, e, n).value;
      && (b <= e ==> b <= steps[i] <= steps[j] <= e)
      && (e <= b ==> e <= steps[j] <= steps[i] <= b)
  {
    PointBetween(b, e, n, i);
    PointBetween(b, e, n, j);
    PointsOrdered(b, e, n, i, j);
  }

  lemma PointBetween(b: real, e: real, n: int, i: nat)
    requires n != 0 && Steps(b, e, n).Ok?
    requires i < n
    ensures var steps := Steps(b, e, n).value;
      && (b <= e ==> b <= steps[i] <= e)
      && (e <= b ==> e <= steps[i] <= b)
  {
    var w := (e - b) / n as real;
    StepWidth(b, e, n);
    if i < n - 1 {
      StepsInterpolate(b, e, n, i);
      InterpolationOrder(b, w, 0.0, i as real);
      InterpolationOrder(b, w, i as real, n as real);
    }
  }

  lemma PointsOrdered(b: real, e: real, n: int, i: nat, j: nat)
    requires n != 0 && Steps(b, e, n).Ok?
    requires i <= j < n
    ensures var steps := Steps(b, e, n).value;
      && (b <= e ==> steps[i] <= steps[j])
      && (e <= b ==> steps[j] <= steps[i])
  {
    if i < j {
      var w := (e - b) / n as real;
      StepWidth(b, e, n);
      StepsInterpolate(b, e, n, i);
      if j < n - 1 {
        StepsInterpolate(b, e, n, j);
        InterpolationOrder(b, w, i as real, j as real);
      } else {
        PointBetween(b, e, n, i);
      }
    }
  }

  /** A phase that is non-empty, ends exactly on target.1 and, when it has more than
      one point, starts on target.0. */
  predicate PhaseEnds(ph: seq<real>, target: (real, real)) {
    |ph| >= 1 && ph[|ph| - 1] == target.1 && (|ph| >= 2 ==> ph[0] == target.0)
  }

  /** ReflowControl._convertToSteps: `int(round(duration / timebase))` points, 1 instead
      of 0, interpolated from begin to end by Steps. */
  function ConvertToSteps(begin: Num, end: Num, duration: Num, timebase: Num): (r: Result<seq<real>>)
    ensures r.Err? <==> timebase.Value() == 0.0 || PhaseLength(duration, timebase).value < 0
    ensures r.Err? ==> r.error == (if timebase.Value() == 0.0 then ZeroDivisionError else IndexError)
    ensures r.Ok? ==> |r.value| == PhaseLength(duration, timebase).value >= 1
    ensures r.Ok? ==> r.value == Steps(begin.Value(), end.Value(), |r.value|).value
    ensures r.Ok? ==> PhaseEnds(r.value, (begin.Value(), end.Value()))
  {
    var q :- Div(duration, timebase);
    Steps(begin.Value(), end.Value(), StepCount(q.Value()))
  }

  /** A phase from a temperature to itself holds that temperature throughout. */
  lemma ConstantPhase(t: real, n: int)
    requires n != 0 && Steps(t, t, n).Ok?
    ensures forall k :: 0 <= k < n ==> Steps(t, t, n).value[k] == t
  {
    forall k | 0 <= k < n - 1 {
      StepsInterpolate(t, t, n, k);
    }
  }

  /** A thermal profile, with the keys and Python types the dictionary holds. */
  datatype Profile = Profile(
    rampup: Num, ts: Num, Tsmin: Num, Tsmax: Num, tl: Num, Tl: Num, tp: Num, Tp: Num, rampdown: Num)

  /** The profile ReflowControl.__init__ falls back on: all of its values are ints. */
  const DefaultProfile := Profile(Int(2), Int(120), Int(155), Int(185), Int(100), Int(215), Int(30), Int(240), Int(6))

  const Ambient := Int(25)

  /** Where each of the seven phases starts and where it must end:
      25 -> Tsmin -> Tsmax -> Tl -> Tp -> Tp -> Tl -> 25. */
  function PhaseTargets(p: Profile): seq<(real, real)> {
    [(Ambient.Value(), p.Tsmin.Value()), (p.Tsmin.Value(), p.Tsmax.Value()),
     (p.Tsmax.Value(), p.Tl.Value()), (p.Tl.Value(), p.Tp.Value()),
     (p.Tp.Value(), p.Tp.Value()), (p.Tp.Value(), p.Tl.Value()),
     (p.Tl.Value(), Ambient.Value())]
  }

  /** "Ambient to preheat" and "Preheat": phases 1 and 2. */
  function PreheatPhases(p: Profile, timebase: Num): (r: Result<seq<seq<real>>>)
    ensures r.Ok? ==> |r.value| == 2 && forall k :: 0 <= k < 2 ==> PhaseEnds(r.value[k], PhaseTargets(p)[k])
  {
    var rampupTime :- Div(Sub(p.Tsmin, Ambient), p.rampup);
    var ph1 :- ConvertToSteps(Ambient, p.Tsmin, rampupTime, timebase);
    var ph2 :- ConvertToSteps(p.Tsmin, p.Tsmax, p.ts, timebase);
    Ok([ph1, ph2])
  }

  /** "Preheat to Liquidous", "Liquidous to Peak", "Reflow" and "Back to Liquidous":
      phases 3 to 6, whose durations derive from half of tl - tp. */
  function ReflowPhases(p: Profile, timebase: Num): (r: Result<seq<seq<real>>>)
    ensures r.Ok? ==> |r.value| == 4 && forall k :: 0 <= k < 4 ==> PhaseEnds(r.value[k], PhaseTargets(p)[k + 2])
  {
    var tlTotpTime :- Div(Sub(p.tl, p.tp), Float(2.0));
    var deltaTsTl := Sub(p.Tl, p.Tsmax);
    var slopeTsTl :- Div(deltaTsTl, Float(tlTotpTime.Value()));
    var durTsmaxTl := Mul(slopeTsTl, deltaTsTl);
    var ph3 :- ConvertToSteps(p.Tsmax, p.Tl, durTsmaxTl, timebase);
    var ph4 :- ConvertToSteps(p.Tl, p.Tp, tlTotpTime, timebase);
    var ph5 :- ConvertToSteps(p.Tp, p.Tp, p.tp, timebase);
    // ph4 succeeded with the same duration and timebase, so this phase cannot fail
    var ph6 := ConvertToSteps(p.Tp, p.Tl, tlTotpTime, timebase).value;
    Ok([ph3, ph4, ph5, ph6])
  }

  /** "Cool down": phase 7. */
  function CooldownPhase(p: Profile, timebase: Num): (r: Result<seq<real>>)
    ensures r.Ok? ==> PhaseEnds(r.value, PhaseTargets(p)[6])
  {
    var coolDownTime :- Div(Sub(p.Tl, Ambient), p.rampdown);
    ConvertToSteps(p.Tl, Ambient, coolDownTime, timebase)
  }

  /** The seven phases _profileToTt extends its list with, in the source's order (so the
      first phase that raises decides the error), each ending on its target. */
  function Phases(p: Profile, timebase: Num): (r: Result<seq<seq<real>>>)
    ensures r.Ok? ==> |r.value| == 7 && forall k :: 0 <= k < 7 ==> PhaseEnds(r.value[k], PhaseTargets(p)[k])
  {
    var pre :- PreheatPhases(p, timebase);
    var reflow :- ReflowPhases(p, timebase);
    var cool :- CooldownPhase(p, timebase);
    Ok(pre + reflow + [cool])
  }

  /** The combined length of the phases. */
  function TotalLength(parts: seq<seq<real>>): nat {
    if |parts| == 0 then 0 else TotalLength(parts[..|parts| - 1]) + |parts[|parts| - 1]|
  }

  lemma TotalLengthSeven(parts: seq<seq<real>>)
    requires |parts| == 7
    ensures TotalLength(parts) == |parts[0]| + |parts[1]| + |parts[2]| + |parts[3]| +
      |parts[4]| + |parts[5]| + |parts[6]|
  {
    assert parts[..1][..0] == [];
    assert TotalLength(parts[..1]) == |parts[0]|;
    assert TotalLength(parts[..2]) == TotalLength(parts[..1]) + |parts[1]| by { assert parts[..2][..1] == parts[..1]; }
    assert TotalLength(parts[..3]) == TotalLength(parts[..2]) + |parts[2]| by { assert parts[..3][..2] == parts[..2]; }
    assert TotalLength(parts[..4]) == TotalLength(parts[..3]) + |parts[3]| by { assert parts[..4][..3] == parts[..3]; }
    assert TotalLength(parts[..5]) == TotalLength(parts[..4]) + |parts[4]| by { assert parts[..5][..4] == parts[..4]; }
    assert TotalLength(parts[..6]) == TotalLength(parts[..5]) + |parts[5]| by { assert parts[..6][..5] == parts[..5]; }
    assert TotalLength(parts) == TotalLength(parts[..6]) + |parts[6]| by { assert parts[..7] == parts; }
  }

  /** The concatenation of the phases, as repeated `list.extend` builds it. */
  function Concat(parts: seq<seq<real>>): (r: seq<real>)
    ensures |r| == TotalLength(parts)
    ensures |parts| > 0 && |parts[|parts| - 1]| > 0 ==> |r| > 0 && r[|r| - 1] == parts[|parts| - 1][|parts[|parts| - 1]| - 1]
  {
    if |parts| == 0 then [] else Concat(parts[..|parts| - 1]) + parts[|parts| - 1]
  }

  /** ReflowControl._profileToTt: the temperature trajectory of a profile, which always
      ends back at the 25 degree ambient. */
  function ProfileToTt(p: Profile, timebase: Num): (r: Result<seq<real>>)
    ensures r.Ok? ==> |r.value| > 0 && r.value[|r.value| - 1] == 25.0
  {
    var phases :- Phases(p, timebase);
    assert PhaseEnds(phases[6], PhaseTargets(p)[6]);
    Ok(Concat(phases))
  }

  /** The default preheat: (155 - 25) / 2 floors to 65 s, so 130 points, then 240. */
  lemma DefaultPreheat()
    ensures PreheatPhases(DefaultProfile, Float(0.5)).Ok?
    ensures var pre := PreheatPhases(DefaultProfile, Float(0.5)).value;
      |pre[0]| == 130 && |pre[1]| == 240
  {
    var d, tb := DefaultProfile, Float(0.5);
    assert Div(Sub(d.Tsmin, Ambient), d.rampup) == Ok(Int(65));
    assert PhaseLength(Int(65), tb) == Some(130);
    assert PhaseLength(d.ts, tb) == Some(240);
  }

  /** The default reflow: tl - tp = 70 gives 35 s either side of the peak. */
  lemma DefaultReflow()
    ensures ReflowPhases(DefaultProfile, Float(0.5)).Ok?
    ensures var reflow := ReflowPhases(DefaultProfile, Float(0.5)).value;
      |reflow[0]| == 51 && |reflow[1]| == 70 && |reflow[2]| == 60 && |reflow[3]| == 70 &&
      forall k :: 0 <= k < 60 ==> reflow[2][k] == 240.0
  {
    var d, tb := DefaultProfile, Float(0.5);
    assert Div(Sub(d.tl, d.tp), Float(2.0)) == Ok(Float(35.0));
    assert Div(Sub(d.Tl, d.Tsmax), Float(35.0)) == Ok(Float(30.0 / 35.0));
    var dur := Mul(Float(30.0 / 35.0), Int(30));
    assert PhaseLength(dur, tb) == Some(51) by {
      assert dur.Value() == 900.0 / 35.0;
      assert Div(dur, tb).value.Value() == 1800.0 / 35.0;
      assert Round(1800.0 / 35.0) == 51;
    }
    assert PhaseLength(Float(35.0), tb) == Some(70);
    assert PhaseLength(d.tp, tb) == Some(60);
    ConstantPhase(240.0, 60);
  }

  /** The default cool down: (215 - 25) / 6 floors to 31 s, so 62 points. */
  lemma DefaultCooldown()
    ensures CooldownPhase(DefaultProfile, Float(0.5)).Ok?
    ensures |CooldownPhase(DefaultProfile, Float(0.5)).value| == 62
  {
    var d, tb := DefaultProfile, Float(0.5);
    assert Div(Sub(d.Tl, Ambient), d.rampdown) == Ok(Int(31));
    assert PhaseLength(Int(31), tb) == Some(62);
  }

  /** With the default profile and the default 0.5 s timebase none of the phases raises,
      they have 130, 240, 51, 70, 60, 70 and 62 points, and the reflow phase stays at
      240 degrees throughout. */
  lemma DefaultPhases()
    ensures Phases(DefaultProfile, Float(0.5)).Ok?
    ensures var phases := Phases(DefaultProfile, Float(0.5)).value;
      |phases[0]| == 130 && |phases[1]| == 240 && |phases[2]| == 51 && |phases[3]| == 70 &&
      |phases[4]| == 60 && |phases[5]| == 70 && |phases[6]| == 62
    ensures forall k :: 0 <= k < 60 ==> Phases(DefaultProfile, Float(0.5)).value[4][k] == 240.0
  {
    DefaultPreheat();
    DefaultReflow();
    DefaultCooldown();
    var pre := PreheatPhases(DefaultProfile, Float(0.5)).value;
    var reflow := ReflowPhases(DefaultProfile, Float(0.5)).value;
    var cool := CooldownPhase(DefaultProfile, Float(0.5)).value;
    assert Phases(DefaultProfile, Float(0.5)) == Ok(pre + reflow + [cool]);
  }

  /** The default trajectory has 130 + 240 + 51 + 70 + 60 + 70 + 62 = 683 points. */
  lemma DefaultTrajectory()
    ensures ProfileToTt(DefaultProfile, Float(0.5)).Ok?
    ensures |ProfileToTt(DefaultProfile, Float(0.5)).value| == 683
  {
    DefaultPhases();
    var phases := Phases(DefaultProfile, Float(0.5)).value;
    TotalLengthSeven(phases);
    assert ProfileToTt(DefaultProfile, Float(0.5)) == Ok(Concat(phases));
  }

  // ---------------------------------------------------------------------------
  // Serial frame decoder

  /** A byte off the serial line, as `ord` of a one-character string sees it. */
  newtype byte = x: int | 0 <= x < 256

  /** `b & 0xF0 == 0`: none of the upper four bits of b is set. */
  predicate HighNibbleClear(b: byte) {
    b < 16
  }

  /** A frame starts at j: the 0xFF marker, then the low byte, then a high byte whose
      upper nibble is zero. */
  predicate IsFrameAt(s: seq<byte>, j: int) {
    0 <= j && j + 3 <= |s| && s[j] == 0xFF && HighNibbleClear(s[j + 2])
  }

  /** `ord(hi) << 8` plus `ord(lo)`. */
  function FrameValue(lo: byte, hi: byte): int {
    hi as int * 256 + lo as int
  }

  /** A decoded ADC value and how many bytes of the stream were read to get it. */
  datatype Frame = Frame(value: int, consumed: nat)

  /** The first frame at offset j or later: what the resynchronising loop of
      ReflowControl._readAdc finds when it starts with its window at j. */
  function FirstFrameFrom(s: seq<byte>, j: nat): (r: Option<Frame>)
    requires j <= |s|
    ensures r.Some? ==> j + 3 <= r.value.consumed <= |s| && IsFrameAt(s, r.value.consumed - 3)
    ensures r.Some? ==> r.value.value == FrameValue(s[r.value.consumed - 2], s[r.value.consumed - 1])
    ensures r.Some? ==> forall k :: j <= k < r.value.consumed - 3 ==> !IsFrameAt(s, k)
    ensures r.None? ==> forall k :: j <= k ==> !IsFrameAt(s, k)
    decreases |s| - j
  {
    if j + 3 > |s| then None
    else if IsFrameAt(s, j) then Some(Frame(FrameValue(s[j + 1], s[j + 2]), j + 3))
    else FirstFrameFrom(s, j + 1)
  }

  /** The frame the decoder obtains from a byte stream, None when the stream ends first. */
  function FirstFrame(s: seq<byte>): Option<Frame> {
    FirstFrameFrom(s, 0)
  }

  /** A frame never carries more than twelve bits. */
  lemma FrameValueBound(s: seq<byte>)
    requires FirstFrame(s).Some?
    ensures 0 <= FirstFrame(s).value.value <= 4095
  {
  }

  /** Bytes that hold no frame before a stream delay its frame by exactly their number,
      provided they cannot combine with its first bytes into a frame. */
  lemma {:induction false} GarbagePrefix(g: seq<byte>, s: seq<byte>)
    requires forall k :: 0 <= k < |g| ==> !IsFrameAt(g + s, k)
    ensures FirstFrame(g + s) ==
      match FirstFrame(s)
      case None => None
      case Some(f) => Some(Frame(f.value, f.consumed + |g|))
  {
    var t := g + s;
    match FirstFrame(s)
    case None =>
      forall k | |g| <= k
        ensures !IsFrameAt(t, k)
      {
        if k + 3 <= |t| {
          assert t[k] == s[k - |g|] && t[k + 2] == s[k - |g| + 2];
          assert !IsFrameAt(s, k - |g|);
        }
      }
    case Some(f) =>
      var j := f.consumed - 3 + |g|;
      assert t[j] == s[j - |g|] && t[j + 1] == s[j - |g| + 1] && t[j + 2] == s[j - |g| + 2];
      forall k | |g| <= k < j
        ensures !IsFrameAt(t, k)
      {
        assert t[k] == s[k - |g|] && t[k + 2] == s[k - |g| + 2];
        assert !IsFrameAt(s, k - |g|);
      }
      FirstFrameAt(t, j);
  }

  /** When the first frame of s sits at j, the decoder stops there. */
  lemma {:induction false} FirstFrameAt(s: seq<byte>, j: nat)
    requires IsFrameAt(s, j)
    requires forall k :: 0 <= k < j ==> !IsFrameAt(s, k)
    ensures FirstFrame(s) == Some(Frame(FrameValue(s[j + 1], s[j + 2]), j + 3))
  {
  }

  /** The frame-decoding loop of ReflowControl._readAdc over the bytes the port yields:
      read three bytes, then slide the window one byte at a time until it holds the
      marker and a valid high byte. On a stream that ends first the port would block;
      the model then reports None. */
  method DecodeFrame(stream: seq<byte>) returns (frame: Option<Frame>, window: seq<byte>)
    ensures frame == FirstFrame(stream)
    ensures frame.Some? ==> window == stream[frame.value.consumed - 3..frame.value.consumed]
  {
    if |stream| < 3 {
      return None, stream;
    }
    window := stream[..3];
    var pos := 3;
    while window[0] != 0xFF || !HighNibbleClear(window[2])
      invariant 3 <= pos <= |stream|
      invariant window == stream[pos - 3..pos]
      invariant FirstFrameFrom(stream, pos - 3) == FirstFrame(stream)
      decreases |stream| - pos
    {
      if pos == |stream| {
        return None, window;
      }
      window := window[1..] + [stream[pos]];
      pos := pos + 1;
    }
    var adcValue := (window[2] as int) * 256;
    adcValue := adcValue + window[1] as int;
    frame := Some(Frame(adcValue, pos));
  }

  // ---------------------------------------------------------------------------
  // Display buffer

  /** `_visuBuff` after one call of gen with `len(_refData) == refLen` and the current
      temperature t: one old reading is dropped when the buffer already holds refLen of
      them (`[][1:]` is the empty list), then t is appended. */
  function GenNext(buf: seq<real>, refLen: nat, t: real): seq<real> {
    (if |buf| > refLen - 1 then (if |buf| == 0 then [] else buf[1..]) else buf) + [t]
  }

  /** gen keeps the buffer within max(len(_refData), 1) readings once it is there, the
      newest reading last and the older ones in their order. */
  lemma GenBounded(buf: seq<real>, refLen: nat, t: real)
    requires |buf| <= if refLen == 0 then 1 else refLen
    ensures var b := GenNext(buf, refLen, t);
      && |b| <= (if refLen == 0 then 1 else refLen)
      && b[|b| - 1] == t
      && b[..|b| - 1] == buf[|buf| - (|b| - 1)..]
      && (|buf| < refLen ==> b == buf + [t])
  {
  }

  // ---------------------------------------------------------------------------
  // The controller

  /** What remains of ReflowControl once the threads, the serial port and the
      visualiser are taken away: the PID, the trajectory, the display buffer, the last
      temperature, the last frame and ADC reading, and the stop request of the bake. */
  class ReflowControl {
    var pid: Pid.Pid
    var profile: Profile
    var refData: seq<real>
    var visuBuff: seq<real>
    var ktyTemp: real
    var serialBuffer: seq<byte>
    var adcValue: int
    var isNew: bool
    var stopBakeReq: bool

    /** ReflowControl.__init__: None for pidCoeffs or profile selects the defaults,
        (30.0, 2.0, 7.0) and DefaultProfile. */
    constructor (pidCoeffs: Option<(real, real, real)>, profile: Option<Profile>)
      ensures fresh(pid)
      ensures var (kp, ki, kd) := if pidCoeffs.Some? then pidCoeffs.value else (30.0, 2.0, 7.0);
        pid.State() == Pid.Initial(kp, ki, kd)
      ensures this.profile == (if profile.Some? then profile.value else DefaultProfile)
      ensures refData == [] && visuBuff == []
      ensures ktyTemp == 23.0 && serialBuffer == [] && adcValue == 350
      ensures !isNew && !stopBakeReq
    {
      var (kp, ki, kd) := if pidCoeffs.Some? then pidCoeffs.value else (30.0, 2.0, 7.0);
      pid := new Pid.Pid(kp, ki, kd);
      this.profile := if profile.Some? then profile.value else DefaultProfile;
      refData, visuBuff := [], [];
      ktyTemp := 23.0;
      serialBuffer := [];
      adcValue := 350;
      isNew, stopBakeReq := false, false;
    }

    /** The trajectory computation of ReflowControl.start. */
    method LoadTrajectory() returns (out: Outcome)
      modifies this
      ensures out.Pass? <==> ProfileToTt(old(profile), Float(0.5)).Ok?
      ensures out.Pass? ==> refData == ProfileToTt(old(profile), Float(0.5)).value
      ensures out.Fail? ==> refData == old(refData) && out.error == ProfileToTt(old(profile), Float(0.5)).error
      ensures pid == old(pid) && profile == old(profile) && visuBuff == old(visuBuff) && ktyTemp == old(ktyTemp)
      ensures serialBuffer == old(serialBuffer) && adcValue == old(adcValue)
      ensures isNew == old(isNew) && stopBakeReq == old(stopBakeReq)
    {
      var tt := ProfileToTt(profile, Float(0.5));
      if tt.Ok? {
        refData := tt.value;
        out := Pass;
      } else {
        out := Fail(tt.error);
      }
    }

    /** One pass of the outer loop of ReflowControl._readAdc after the flush: decode a
      frame from the bytes the port yields and record it as the new ADC value. */
    method ReadAdc(stream: seq<byte>) returns (frame: Option<Frame>)
      modifies this
      ensures frame == FirstFrame(stream)
      ensures frame.Some? ==>
        adcValue == frame.value.value && isNew &&
        serialBuffer == stream[frame.value.consumed - 3..frame.value.consumed]
      ensures frame.None? ==> adcValue == old(adcValue) && isNew == old(isNew)
      ensures pid == old(pid) && profile == old(profile) && refData == old(refData)
      ensures visuBuff == old(visuBuff) && ktyTemp == old(ktyTemp) && stopBakeReq == old(stopBakeReq)
    {
      var window;
      frame, window := DecodeFrame(stream);
      serialBuffer := window;
      if frame.Some? {
        adcValue := frame.value.value;
        isNew := true;
      }
    }

    /** ReflowControl._bakingProcess. The stop request comes from another thread; here
      it is seen from the check before pass number `stopAfter` on (at once if it is
      already set). Each pass writes the next point of refData to the PID setpoint. */
    method BakingProcess(stopAfter: nat) returns (written: seq<real>)
      modifies pid
      ensures var n := if stopBakeReq then 0 else if stopAfter < |refData| then stopAfter else |refData|;
        written == refData[..n]
      ensures pid.State() == if written == [] then old(pid.State())
        else Pid.AfterSetPoint(old(pid.State()), written[|written| - 1])
    {
      var i := 0;
      var refLen := |refData|;
      var stopSeen := stopBakeReq || stopAfter == 0;
      written := [];
      while !stopSeen && i < refLen
        invariant 0 <= i <= refLen
        invariant written == refData[..i]
        invariant stopSeen == (stopBakeReq || i >= stopAfter)
        invariant stopBakeReq ==> i == 0
        invariant i <= stopAfter
        invariant pid.State() == if i == 0 then old(pid.State())
          else Pid.AfterSetPoint(old(pid.State()), refData[i - 1])
        decreases refLen - i
      {
        pid.SetSetPoint(refData[i]);
        written := written + [refData[i]];
        i := i + 1;
        stopSeen := stopBakeReq || i >= stopAfter;
      }
    }

    /** ReflowControl.gen */
    method Gen() returns (buf: seq<real>)
      modifies this`visuBuff
      ensures visuBuff == GenNext(old(visuBuff), |refData|, ktyTemp)
      ensures buf == visuBuff
    {
      if |visuBuff| > |refData| - 1 {
        visuBuff := if |visuBuff| == 0 then [] else visuBuff[1..];
      }
      visuBuff := visuBuff + [ktyTemp];
      buf := visuBuff;
    }

    /** ReflowControl._stopBake: request the stop, then zero the setpoint. */
    method StopBake()
      modifies pid, this`stopBakeReq
      ensures stopBakeReq
      ensures pid.State() == Pid.AfterSetPoint(old(pid.State()), 0.0)
    {
      stopBakeReq := true;
      pid.SetSetPoint(0.0);
    }
  }
}
