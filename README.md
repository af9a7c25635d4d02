# Reflow oven client, modelled in Dafny

The client drives a hobby reflow oven over a serial line. It has five parts:

- a PID controller (`Pid`) reads the oven temperature and sets the heater's PWM;
- `ReflowControl` turns a solder profile into a trajectory of set points and feeds them to the PID one by one;
- a decoder reads three-byte ADC frames from the serial port. `FakeSerial` is a fake port that produces such frames;
- a `Storage` object reads and rewrites the `key value` settings file, and a `Logger` writes a `;`-separated log;
- `Uif` is the console that reads commands keystroke by keystroke.

The project models these parts one module per source file:

| module | file | source |
|---|---|---|
| `Common` | common.dfy | Python building blocks: `Option`, `Result` carrying the Python exception, and `str` operations (strip, lower, split, join, startswith, substring test) |
| `Pid` | pid.dfy | client/pid.py |
| `ReflowCntrl` | reflowcntrl.dfy | client/reflowcntrl.py |
| `Emulator` | emulator.dfy | client/emulator.py |
| `Storage` | storage.dfy | client/storage.py |
| `Log` | log.dfy | client/log.py |
| `Uif` | uif.dfy | client/uif.py |

Where the source changes state field by field, the model is a class whose methods do the same, and each method is proved to perform a transition given by a pure function. This covers the PID object, the controller, the fake port, the settings store, the logger and the console. The properties are lemmas about those functions. Pure code (trajectory, frame format, parsers) is modelled as functions with lemmas. Loops in the source are loops in the model, each proved against its specification function.

Numbers follow Python 2:

- the profile values are Python `int`s or `float`s (`Num`), and `/` floors on two ints (`Div`, `FloorDiv`);
- `round` rounds halves away from zero (`Round`);
- negative list indices count from the end (`Steps` for `steps[-1]`, `Uif.At` for `history[k]`).

PID arithmetic is over `real`, so floating-point rounding is not modelled. Bytes are integers 0..255. `float()` on a string stays abstract: a parameter `toFloat: string -> Option<real>`, where `None` stands for the ValueError.

## Model

| member | source | states |
|---|---|---|
| Pid.Clamp | client/pid.py:157-162 | the result is val, low or high; it is val inside the bounds and lies in [low, high] when low <= high |
| Pid.Initial | client/pid.py:19-37 | the state `__init__` sets up has a non-zero sample time, which every later setter relies on |
| Pid.AfterKp | client/pid.py:48-50 | the kp setter's transition, specified as a function of the old state; Pid.Pid.SetKp performs it |
| Pid.AfterKi | client/pid.py:56-61 | the ki setter's transition; GainSetters and SettersKeepGainsConsistent state its effect |
| Pid.AfterKd | client/pid.py:67-72 | the kd setter's transition; GainSetters and SettersKeepGainsConsistent state its effect |
| Pid.AfterSampleTime | client/pid.py:78-83 | the sampleTime setter's transition with its outcome; SampleTimeRescales and SampleTimeZeroFails state its effect |
| Pid.AfterCntrlDir | client/pid.py:89-95 | the cntrlDir setter's transition; DirectionFlip and DirectionFlipTwice state its effect |
| Pid.Initialized | client/pid.py:164-166 | initialize's transition; ModeChange and ZeroGainsGiveOutMin use it |
| Pid.AfterCntrlMode | client/pid.py:101-105 | the cntrlMode setter's transition; ModeChange states its effect |
| Pid.AfterMaxOut | client/pid.py:111-115 | the maxOut setter's transition, as written; LimitSettersForceOutMin states its effect |
| Pid.AfterMinOut | client/pid.py:121-125 | the minOut setter's transition, as written; LimitSettersForceOutMin states its effect |
| Pid.AfterInput | client/pid.py:131-134 | the inputx setter's guarded transition; InputSetterGuard states its effect |
| Pid.AfterOutput | client/pid.py:140-143 | the output setter's guarded transition; OutputSetterGuard states its effect |
| Pid.AfterSetPoint | client/pid.py:149-151 | the setPoint setter's transition |
| Pid.Computed | client/pid.py:168-174 | compute's transition; ComputeBounded, ComputeForgetsIterm, ComputeKeepsRest and ProportionalOnly state its effect |
| Pid.Ticked | client/pid.py:180-189 | one pass of the update loop; TickEffects, TickPushBounded, TickPushesOnce and ManualTickIsIdle state its effect |
| Pid.LastOutputSeed | client/pid.py:178 | `~output` raises TypeError exactly when the output is a float; on an int it gives a seed that differs from the output (their sum is -1) |
| Pid.Pid.constructor | client/pid.py:19-37 | the new object holds the gains (kp, ki, kd), raw and internal alike, sample time 1, DIRECT, AUTO_FULL, limits 0 and 255, and zero input, output, setpoint, iterm and lastInput |
| Pid.Pid.GetKp | client/pid.py:44-46 | the kp getter: the internal kp field |
| Pid.Pid.GetKi | client/pid.py:52-54 | the ki getter: the raw ki as last set |
| Pid.Pid.GetKd | client/pid.py:63-65 | the kd getter: the raw kd as last set |
| Pid.ComputeBounded | client/pid.py:168-174 | when outMin <= outMax, compute leaves iterm and output within [outMin, outMax] and sets lastInput to input |
| Pid.ComputeForgetsIterm | client/pid.py:168-171 | the integral term does not accumulate: the previous iterm and output have no influence on compute |
| Pid.ComputeKeepsRest | client/pid.py:168-174 | compute changes iterm, output and lastInput and no other field |
| Pid.ProportionalOnly | client/pid.py:168-173 | with zero internal ki and kd and outMin <= 0 <= outMax, compute yields clamp(kp*(setpoint-input)) and iterm 0 |
| Pid.ZeroGainsGiveOutMin | client/pid.py:164-174 | with all gains zero and limits 0 <= outMin <= outMax, initialize then compute gives output outMin |
| Pid.InitialGainsConsistent | client/pid.py:19-28 | the new controller's internal gains agree with the raw ones |
| Pid.GainSetters | client/pid.py:52-72 | the ki/kd setters store the raw value (returned by the getters) and set the internal gain to ±val*sampleTime and ±val/sampleTime, negated only in REVERSE |
| Pid.SettersKeepGainsConsistent | client/pid.py:56-72 | the ki and kd setters keep the internal gains consistent with the raw ones |
| Pid.SampleTimeRescales | client/pid.py:78-83 | a non-zero new sample time multiplies the internal ki by new/old and the internal kd by old/new and keeps the raw gains |
| Pid.SampleTimeKeepsGainsConsistent | client/pid.py:78-83 | a non-zero new sample time keeps the internal gains consistent with the raw ones |
| Pid.SampleTimeZeroFails | client/pid.py:78-83 | sample time 0 zeroes the internal ki and then raises ZeroDivisionError, leaving the sample time |
| Pid.SampleTimeKeepsProportionalOutput | client/pid.py:78-83 | with only a proportional gain, a new sample time does not change what compute yields |
| Pid.DirectionFlip | client/pid.py:89-95 | a different direction negates kp, ki and kd and keeps the raw gains; the same direction changes nothing |
| Pid.DirectionFlipTwice | client/pid.py:89-95 | flipping the direction and flipping it back restores every field |
| Pid.DirectionKeepsGainsConsistent | client/pid.py:89-95 | switching between DIRECT and REVERSE keeps the gains consistent |
| Pid.ModeChange | client/pid.py:101-105 | a different mask runs initialize (lastInput := input, iterm := clamp(output)) and stores the mask; the same mask changes nothing |
| Pid.LimitSettersForceOutMin | client/pid.py:111-125 | setting maxOut or minOut stores the limit and forces output and iterm to outMin, since both clamp to [outMin, outMin] |
| Pid.InputSetterGuard | client/pid.py:131-134 | inputx reads back as the value set exactly when AUTO_READ is clear or the input already held it, and no other field changes |
| Pid.OutputSetterGuard | client/pid.py:140-143 | output reads back as the value set exactly when AUTO_CALC is clear or the output already held it, and no other field changes |
| Pid.ManualInputIsComputed | client/pid.py:131-184 | with AUTO_READ clear and AUTO_CALC set, the next tick computes from the input set by hand, whatever the update callback returns |
| Pid.ManualOutputIsPushed | client/pid.py:140-188 | with AUTO_CALC clear and AUTO_OUT set, an output set by hand survives the next tick and is pushed when it differs from the last output |
| Pid.TickPushBounded | client/pid.py:183-188 | under AUTO_CALC with outMin <= outMax, any value a tick pushes lies within the limits |
| Pid.TickEffects | client/pid.py:180-189 | a tick changes the input only by pulling under AUTO_READ with a callback, pushes nothing without AUTO_OUT or a callback, pushes only a changed output, records the output it ends with, keeps output and iterm without AUTO_CALC, and changes no gain, mode, limit or setpoint |
| Pid.TickPushesOnce | client/pid.py:185-189 | without AUTO_CALC, a second tick that pulls nothing pushes nothing, so the same output is pushed at most once |
| Pid.ManualTickIsIdle | client/pid.py:180-189 | in MANUAL mode a tick changes nothing and pushes nothing |
| Pid.FirstTickPushes | client/pid.py:178-188 | seeding lastOutput with ~output makes the first tick push whenever pushing is enabled, for a non-negative int output within non-negative limits; a float output raises TypeError before any tick |
| Pid.Pid.SetKp | client/pid.py:48-50 | the kp setter's transition |
| Pid.Pid.SetKi | client/pid.py:56-61 | the ki setter's transition |
| Pid.Pid.SetKd | client/pid.py:67-72 | the kd setter's transition; the sample time stays non-zero |
| Pid.Pid.SetSampleTime | client/pid.py:78-83 | the sampleTime setter's transition and its ZeroDivisionError |
| Pid.Pid.SetCntrlDir | client/pid.py:89-95 | the cntrlDir setter's transition |
| Pid.Pid.Initialize | client/pid.py:164-166 | initialize's transition |
| Pid.Pid.SetCntrlMode | client/pid.py:101-105 | the cntrlMode setter's transition, with initialize on a change |
| Pid.Pid.SetMaxOut | client/pid.py:111-115 | the maxOut setter's transition |
| Pid.Pid.SetMinOut | client/pid.py:121-125 | the minOut setter's transition |
| Pid.Pid.SetInput | client/pid.py:131-134 | the inputx setter's guarded transition |
| Pid.Pid.SetOutput | client/pid.py:140-143 | the output setter's guarded transition |
| Pid.Pid.SetSetPoint | client/pid.py:149-151 | the setPoint setter's transition |
| Pid.Pid.Compute | client/pid.py:168-174 | compute's transition, performed field by field |
| Pid.Pid.Tick | client/pid.py:180-189 | one pass of the update loop, pushing and recording as Ticked says |
| ReflowCntrl.FloorDiv | client/reflowcntrl.py:71 | Python 2 int division: the quotient rounded towards minus infinity |
| ReflowCntrl.Div | client/reflowcntrl.py:60 | ZeroDivisionError exactly on a zero divisor; floor division for two ints, real division otherwise |
| ReflowCntrl.Round | client/reflowcntrl.py:60 | Python 2 round: within 0.5 of x, and halves go away from zero |
| ReflowCntrl.StepCount | client/reflowcntrl.py:60-61 | the step count is never 0: 1 for a quotient strictly within 0.5 of 0, otherwise within 0.5 of the quotient |
| ReflowCntrl.PhaseLength | client/reflowcntrl.py:60-61 | the step count _convertToSteps uses, None when the division raises; ConvertToSteps states its relation to the phase |
| ReflowCntrl.Ramp | client/reflowcntrl.py:63 | the comprehension has n points, point i being begin + i*width |
| ReflowCntrl.Steps | client/reflowcntrl.py:62-64 | n points ending exactly on end, the first equal to begin when n >= 2; IndexError exactly when n < 0 |
| ReflowCntrl.StepsInterpolate | client/reflowcntrl.py:62-63 | every point but the last is begin + i*(end-begin)/n |
| ReflowCntrl.StepsBetween | client/reflowcntrl.py:62-64 | every point lies between begin and end, and the points move monotonically towards end |
| ReflowCntrl.ConvertToSteps | client/reflowcntrl.py:58-65 | the phase has int(round(duration/timebase)) points, 1 instead of 0, ends exactly on end and starts on begin when longer than one; ZeroDivisionError on a zero timebase, IndexError on a negative count |
| ReflowCntrl.ConstantPhase | client/reflowcntrl.py:84 | a phase from a temperature to itself holds that temperature throughout |
| ReflowCntrl.PreheatPhases | client/reflowcntrl.py:70-74 | the two preheat phases go 25→Tsmin and Tsmin→Tsmax: each ends on its target and starts on its origin when longer than one point |
| ReflowCntrl.ReflowPhases | client/reflowcntrl.py:75-86 | the four reflow phases go Tsmax→Tl, Tl→Tp, Tp→Tp and Tp→Tl: each ends on its target and starts on its origin when longer than one point |
| ReflowCntrl.CooldownPhase | client/reflowcntrl.py:87-89 | the cool-down phase Tl→25 ends on 25 and starts on Tl when longer than one point |
| ReflowCntrl.Phases | client/reflowcntrl.py:67-89 | seven phases in the source's order, each ending on its target |
| ReflowCntrl.Concat | client/reflowcntrl.py:68-89 | the extended list is as long as the phases together and ends with the last phase's last point |
| ReflowCntrl.ProfileToTt | client/reflowcntrl.py:67-90 | a profile's trajectory, when it exists, ends exactly on the ambient 25 |
| ReflowCntrl.TotalLengthSeven | client/reflowcntrl.py:68-89 | the trajectory's length is the sum of the seven phase lengths |
| ReflowCntrl.DefaultPreheat | client/reflowcntrl.py:22 | for the default profile at timebase 0.5, the preheat phases have 130 and 240 points, because (155-25)/2 floors to 65 |
| ReflowCntrl.DefaultReflow | client/reflowcntrl.py:22 | for the default profile, the reflow phases have 51, 70, 60 and 70 points (35 s either side of the peak), and the hold phase is 60 points of 240 |
| ReflowCntrl.DefaultCooldown | client/reflowcntrl.py:22 | for the default profile, the cool-down has 62 points, because (215-25)/6 floors to 31 |
| ReflowCntrl.DefaultPhases | client/reflowcntrl.py:22 | for the default profile no phase raises, the seven phases have 130, 240, 51, 70, 60, 70 and 62 points, and the hold phase is 240 throughout |
| ReflowCntrl.DefaultTrajectory | client/reflowcntrl.py:22 | the default trajectory raises nothing and has 683 points |
| ReflowCntrl.FirstFrame | client/reflowcntrl.py:100-105 | the frame the decoder finds from the start of a stream; FirstFrameFrom, FrameValueBound and GarbagePrefix state its properties |
| ReflowCntrl.FirstFrameFrom | client/reflowcntrl.py:101-105 | the earliest offset from j holding 0xFF, a byte and a byte with a clear high nibble, its value hi*256+lo, and no frame before it |
| ReflowCntrl.FrameValueBound | client/reflowcntrl.py:101-105 | a decoded value is at most 4095 |
| ReflowCntrl.GarbagePrefix | client/reflowcntrl.py:101-102 | bytes without a frame in front of a stream delay its frame by exactly their number |
| ReflowCntrl.FirstFrameAt | client/reflowcntrl.py:101-105 | when the first frame sits at j, the decoder consumes j+3 bytes and yields its value |
| ReflowCntrl.GenNext | client/reflowcntrl.py:144-148 | gen's update of the display buffer; GenBounded states its bound and order |
| ReflowCntrl.DecodeFrame | client/reflowcntrl.py:100-105 | the sliding three-byte window loop yields exactly the first frame, and the window holds its three bytes |
| ReflowCntrl.GenBounded | client/reflowcntrl.py:144-148 | gen keeps the buffer within max(len(refData), 1) readings once it is there; the newest reading is the current temperature, the older ones are the most recent previous ones in order, and nothing is dropped while the buffer is short |
| ReflowCntrl.ReflowControl.constructor | client/reflowcntrl.py:15-43 | the given PID coefficients and profile, or (30, 2, 7) and the default profile for None; temperature 23, ADC value 350, empty buffers and no stop request |
| ReflowCntrl.ReflowControl.LoadTrajectory | client/reflowcntrl.py:138 | the reference data becomes the trajectory of the profile at timebase 0.5, or the exception is reported |
| ReflowCntrl.ReflowControl.ReadAdc | client/reflowcntrl.py:100-107 | one pass of the reading loop sets the ADC value to the first frame's value and flags it new |
| ReflowCntrl.ReflowControl.BakingProcess | client/reflowcntrl.py:118-125 | the set points written are refData[0], refData[1], … in order: at most len(refData), none after the stop request, and the PID ends at the last one |
| ReflowCntrl.ReflowControl.Gen | client/reflowcntrl.py:144-148 | gen's update of the display buffer |
| ReflowCntrl.ReflowControl.StopBake | client/reflowcntrl.py:127-130 | the stop request is set and the set point becomes 0 |
| Emulator.FrameBytes | client/emulator.py:13 | the frame is 0xFF, v & 0xFF, (v >> 8) & 0xFF |
| Emulator.FrameRoundTrip | client/emulator.py:11-13 | for every v in [0, 4095] (and so the generated 350..1023) the decoder reads the generated frame back as v |
| Emulator.WideValueRejected | client/emulator.py:13 | a v of 4096 or more makes a frame that the decoder's high-nibble check rejects |
| Emulator.FakeSerial.constructor | client/emulator.py:7-9 | a new port is open with nothing pending |
| Emulator.FakeSerial.GenFrame | client/emulator.py:11-13 | the buffer becomes the frame of the given value |
| Emulator.FakeSerial.CheckOpen | client/emulator.py:15-17 | passes exactly while the port is open, else SerialException("Bad file descriptor") |
| Emulator.FakeSerial.InWaiting | client/emulator.py:19-21 | the number of pending bytes, or the exception after close |
| Emulator.FakeSerial.Write | client/emulator.py:23-24 | write does nothing and never checks the open state |
| Emulator.FakeSerial.Read | client/emulator.py:26-34 | read first generates a frame when nothing is pending, then returns the first min(n, len) bytes and keeps the rest |
| Emulator.FakeSerial.Close | client/emulator.py:36-37 | the port is closed and the pending bytes stay |
| Emulator.ReadAdcPass | client/emulator.py:19-31 | the flush `read(inWaiting())` followed by `read(3)` on the fake port discards what was pending and decodes a freshly generated value unchanged, leaving nothing pending |
| Emulator.ClosedPort | client/emulator.py:15-37 | after close, inWaiting and read raise "Bad file descriptor" and write still passes |
| Storage.Classify | client/storage.py:22-26 | a line is skipped exactly when empty or a comment once stripped, malformed exactly when kept without a space, otherwise split at its first space with the key lowered |
| Storage.AddEntry | client/storage.py:27-30 | the value is appended to the key's list, which is created when missing; other keys stay |
| Storage.Filed | client/storage.py:27-30 | filing a line never leaves a key with an empty list |
| Storage.LoadStep | client/storage.py:23-30 | a skipped line leaves the rest of the load unchanged; a setting is filed before the remaining lines are read |
| Storage.LoadFrom | client/storage.py:21-30 | load's loop over the classified lines; LoadFails, LoadCollects, LoadKeys and LoadedEntries state its result |
| Storage.Loaded | client/storage.py:15-30 | what load makes of the whole file, from a cleared dictionary; LoadedEntries states which keys it holds |
| Storage.LoadFails | client/storage.py:21-30 | load raises exactly when some kept line has no space, and the error is ValueError |
| Storage.LoadCollects | client/storage.py:21-30 | after a load that succeeds, every key holds the values of its lines in file order |
| Storage.LoadKeys | client/storage.py:21-30 | load never creates an empty list and loses no key |
| Storage.LoadedEntries | client/storage.py:19-30 | starting from a cleared dictionary, a key is present exactly when some line files a value under it |
| Storage.SplitFields | client/storage.py:49-53 | None exactly when some value splits into other than n fields, otherwise the fields of every value in order |
| Storage.FieldsOf | client/storage.py:45-55 | _getVal is None for a missing key and the field split on the key's values otherwise |
| Storage.NumericOf | client/storage.py:35-43 | _getNumeric's result: None when _getVal is None or a field does not convert; ToNumbers and FieldsOf state its parts |
| Storage.ToNumbers | client/storage.py:38-43 | None exactly when some field does not convert, otherwise the converted rows in order |
| Storage.RowToNumbers | client/storage.py:40 | one row converted field by field, None when a field does not convert |
| Storage.SplitAtColon | client/storage.py:89-93 | split at the first colon, and ("", "") without a colon |
| Storage.AddField | client/storage.py:100-107 | one pass of the field loop of getProfiles; AddFieldKeys states which key it sets |
| Storage.ParseFieldsFrom | client/storage.py:99-107 | the field loop of getProfiles; ParsedKeys states which keys it sets |
| Storage.AddFieldKeys | client/storage.py:101-107 | one `key:value` field adds its key to the profile exactly when it sets it |
| Storage.ParsedKeys | client/storage.py:99-107 | a key ends up in the profile exactly when some field sets it: a profile key with a float value, or a name that is not a float |
| Storage.ClassifyRecord | client/storage.py:108-119 | an incomplete profile is dropped, a float name raises, a `_` name is stripped of it and sent to the front, any other profile goes to the back |
| Storage.Collect1 | client/storage.py:108-119 | one pass of the record loop of getProfiles; AddProfile performs it |
| Storage.CollectFrom | client/storage.py:98-119 | the record loop of getProfiles; CollectOrder states the order of its result |
| Storage.CollectOrder | client/storage.py:98-119 | getProfiles returns the `_` profiles in reverse file order, then the others in file order, or AttributeError when a complete profile has a float name |
| Storage.Replaced | client/storage.py:133-136 | the replacement rewrite keeps the line count and replaces exactly the lines starting with the key and a space |
| Storage.SaveReplaces | client/storage.py:132-138 | without append, the save loop is exactly the replacement rewrite |
| Storage.SaveAppendsInRun | client/storage.py:132-145 | with append, inside or after a run of matching lines, the loop inserts the new setting after each run |
| Storage.SaveAppends | client/storage.py:132-145 | with append, save keeps every line and inserts the new setting after the last line of every run of matching lines (also a run that ends the file), or appends it at the end when no line matches |
| Storage.Step | client/storage.py:133-143 | one pass of save's loop: the next stage and the lines emitted; SaveStep performs it |
| Storage.Continue | client/storage.py:132-145 | save's loop with its final append; SaveReplaces, SaveAppendsInRun and SaveAppends relate it to the independent references Replaced and AfterRuns |
| Storage.Storage.constructor | client/storage.py:9-11 | a new store holds the content and an empty dictionary |
| Storage.Storage.Load | client/storage.py:15-30 | load's result on the file content, with every list non-empty |
| Storage.FillEntries | client/storage.py:19-30 | load's loop over the lines, from a cleared dictionary, ends with the entries and the outcome that LoadFrom specifies, and every list is non-empty |
| Storage.LoadLine | client/storage.py:22-30 | one pass of load's loop fails exactly on a malformed line and otherwise leaves the dictionary as Filed says: a setting filed, a skipped line ignored |
| Storage.FileEntry | client/storage.py:27-30 | the value is appended to the key's list, or a new list is made on the KeyError, as AddEntry says |
| Storage.ParseLine | client/storage.py:22-26 | one pass of load's loop treats the line as Classify says: skipped, malformed, or a setting with its key lowered |
| Storage.Storage.GetVal | client/storage.py:45-55 | _getVal on the loaded dictionary |
| Storage.Storage.GetNumeric | client/storage.py:35-43 | _getNumeric on the loaded dictionary |
| Storage.Storage.GetCoeffs | client/storage.py:63-71 | getPidCoeffs / getShhCoeffs return the first entry's numbers, of the requested count |
| Storage.Storage.GetScalar | client/storage.py:73-86 | getUref / getIref / getAdcComp return the single number of the first entry |
| Storage.Storage.GetProfiles | client/storage.py:88-121 | None when `_getVal` finds no valid ten-field records or no profile survives, AttributeError when a complete profile has a float name, otherwise the collected profiles |
| Storage.Storage.Save | client/storage.py:123-148 | the file becomes the `\n`-joined stage loop's output for the lowered key and `key v1 … vn` |
| Storage.SaveLines | client/storage.py:128-145 | save's stage loop, with its final append, emits exactly what Continue specifies from stage 0 |
| Storage.SaveStep | client/storage.py:133-143 | one pass of save's loop moves to the stage and appends the lines that Step gives |
| Storage.SplitValues | client/storage.py:49-53 | _getVal's loop over a key's values gives exactly the SplitFields result |
| Storage.ConvertRows | client/storage.py:39-43 | _getNumeric's loop gives exactly the ToNumbers result |
| Storage.AddProfile | client/storage.py:108-119 | one pass of the record loop: drop, raise, insert at the front or append |
| Storage.IsComplete | client/storage.py:108-114 | the missing-key loop finds every profile key present exactly when the profile is complete |
| Storage.ParseProfile | client/storage.py:99-107 | the field loop builds the profile of the record |
| Storage.Open | client/storage.py:9-13 | a new store holds the content and its loaded entries |
| Log.Tail | client/log.py:23-24 | what readline then read leaves: everything after the first line |
| Log.HeaderLine | client/log.py:26 | the header keys joined by `;`; HeaderLineSplit states that it reads back as the header |
| Log.Cells | client/log.py:30-32 | one cell per header key, holding the entry's value under it or nothing |
| Log.RowOf | client/log.py:30-34 | a row as written, every cell followed by `;`; RowSplit states that it splits back into the cells |
| Log.Row | client/log.py:29-34 | the row of an entry under a header; RowColumns states its fields |
| Log.Appended | client/log.py:13-34 | what `_appendEntry` does to the header and the file; Logger.AppendEntry performs it |
| Log.RowSplit | client/log.py:29-34 | a row splits at `;` into its cells plus one empty field, as long as no cell holds `;` |
| Log.RowColumns | client/log.py:29-34 | each row has one field per header key, holding that key's value or nothing |
| Log.HeaderLineSplit | client/log.py:26 | the header line reads back as the header |
| Log.GrownChanged | client/log.py:16-21 | the header changes exactly when the entry has a key it lacked |
| Log.GrownAdds | client/log.py:17-20 | the keys appended to the header are exactly the entry's keys it lacked |
| Log.GrownDistinct | client/log.py:17-20 | a header without repeated keys keeps that property |
| Log.FormatRow | client/log.py:30-34 | the row loop writes every cell followed by `;` |
| Log.Logger.constructor | client/log.py:5-11 | an empty header and entry, logging enabled, an empty file |
| Log.Logger.AppendEntry | client/log.py:13-34 | disabled: nothing changes. Otherwise the header grows by the entry's new keys, the first line is rewritten when it changed, and the row is appended |
| Log.Logger.GrowHeader | client/log.py:16-20 | the header loop appends each new key once, keeps the old keys in place and reports a change |
| Log.Logger.New | client/log.py:36-40 | a non-empty entry is flushed and cleared, an empty one writes nothing, and the entry becomes the argument |
| Log.Logger.Extend | client/log.py:42-43 | a dictionary update: new values overwrite, other keys stay |
| Uif.Lookup | client/uif.py:265 | a command found by name has that name |
| Uif.LookupNameOf | client/uif.py:265 | every command is found under its name, and the empty name finds nothing |
| Uif.SplitCommand | client/uif.py:259-264 | split at the first space, the parameter empty without one |
| Uif.Parse | client/uif.py:258-265 | the command `_execCommand` looks up and the stripped parameter; ParseCommandLine and UnknownCommand state its result |
| Uif.ParseCommandLine | client/uif.py:258-266 | `name param` runs that command on the stripped parameter, and a bare name runs it with "" |
| Uif.UnknownCommand | client/uif.py:16-17 | a first word naming no command is not found, whatever follows |
| Uif.PidParamStep | client/uif.py:22-31 | `_pidparam`'s effect and reply; PidParamEffect states them |
| Uif.PidParamEffect | client/uif.py:22-31 | an empty parameter shows the property, a non-float reports failure, both without changes; a float is assigned and reads back, except `in`/`out` under AUTO_READ/AUTO_CALC |
| Uif.ModeOf | client/uif.py:97-104 | a flag is set exactly when "full" or its name occurs in the lowered parameter |
| Uif.FlagNames | client/uif.py:90-94 | the names of the set flags in read, calc, out order, each followed by a space; FlagsShown states which names occur |
| Uif.ModeText | client/uif.py:84-95 | the text `pidm` shows for a mask; ModeTexts, ModeTextsCombined and ModeTextRoundTrip state it |
| Uif.ModeTexts | client/uif.py:84-95 | the text shown for manual, for each single flag and for the full mask |
| Uif.ModeTextsCombined | client/uif.py:84-95 | the text shown for each mask with two flags, the names in read, calc, out order |
| Uif.FlagsShown | client/uif.py:90-94 | a flag name occurs in the shown text exactly when the flag is set, and "full" does not occur |
| Uif.ModeTextRoundTrip | client/uif.py:82-105 | parsing the text `pidm` shows gives back the mask |
| Uif.PidmStep | client/uif.py:82-105 | `_cmd_pidm`'s effect and reply; PidmShowSet states them |
| Uif.PidmShowSet | client/uif.py:84-105 | `pidm` shows the mask, and entering what it shows sets that mask |
| Uif.ParseMode | client/uif.py:97-104 | the OR loop computes the parsed mask |
| Uif.NamesOfAll | client/uif.py:92-94 | the loop over read, calc and out, in dictionary order, builds the names of exactly the set flags, each followed by a space |
| Uif.FormatMode | client/uif.py:85-94 | the display branch of pidm yields the shown text ModeText: manual, full, or the set flags' names |
| Uif.PwrStep | client/uif.py:107-117 | `_cmd_pwr`'s effect and reply: the percentage shown, or the output set through the guarded setter, with the ZeroDivisionError and ValueError that escape the command; PwrEffect states them |
| Uif.PwrEffect | client/uif.py:107-117 | showing and a non-float parameter change nothing (ZeroDivisionError exactly when maxOut is 0, ValueError for a non-float); a percentage is ignored under AUTO_CALC and otherwise sets only the output, which `pwr` then shows as that percentage when maxOut is not 0 |
| Uif.CmdDispStep | client/uif.py:126-142 | `_cmd_disp`'s effect and reply; DispOneshot, DispOnOff and DispThreeParts state them |
| Uif.DispStep | client/uif.py:217-231 | the periodic `disp`'s effect and whether it prints; DispUnseen, DispOneshot and DispOnOff state them |
| Uif.DispUnseen | client/uif.py:218-222 | an unseen key is registered as off and prints nothing |
| Uif.DispOneshot | client/uif.py:126-133 | `disp key` prints once, then goes back to off |
| Uif.DispOnOff | client/uif.py:126-133 | `disp key state` stores state; any state but off or oneshot prints on every call, and off prints nothing |
| Uif.DispThreeParts | client/uif.py:127-128 | a parameter with two spaces raises ValueError and changes nothing |
| Uif.DropLast | client/uif.py:309 | `line[:-1]` drops the last character, if there is one |
| Uif.KeyStep | client/uif.py:276-323 | one keystroke of the line editor; KeyStepValid, TypeThenErase, HistoryUp and HistoryDown state its effect |
| Uif.Run | client/uif.py:268-325 | `listen` over a keystroke sequence, ending at Ctrl-C, Ctrl-Z or a line that raises; RunAppend, RunValid and EscapedIsLast state its properties |
| Uif.RunAppend | client/uif.py:273-323 | running two pieces of input is running the first, then the second if still listening |
| Uif.TypingAppends | client/uif.py:315-318 | plain keys outside an escape sequence are appended to the line |
| Uif.EnterSubmits | client/uif.py:311-323 | a typed line followed by Enter is executed and recorded in history exactly when it is not empty |
| Uif.RaisingLineEndsListen | client/uif.py:268-325 | a line whose command raises is executed and recorded, and nothing typed after it is read or executed |
| Uif.EscapedIsLast | client/uif.py:319-325 | a run that ends with an escaped exception ends on the last line it executed, and that line raises |
| Uif.TypeThenErase | client/uif.py:306-318 | a plain key followed by Backspace or Del leaves the editor unchanged |
| Uif.HistoryUp | client/uif.py:277-296 | ESC [ A steps back one history entry, and out of range leaves the line and position unchanged |
| Uif.HistoryDown | client/uif.py:277-296 | ESC [ B steps forward only below -1 and otherwise reloads the current position, which after Enter is the oldest entry |
| Uif.KeyStepValid | client/uif.py:277-323 | a keystroke keeps the escape stage in 0..2, the history position 0 or a valid negative index, and the history free of empty lines |
| Uif.RunValid | client/uif.py:268-323 | every keystroke sequence keeps that invariant and executes only non-empty lines |
| Uif.ExecUnknown | client/uif.py:16-17 | an unknown command changes nothing and answers "Command not found" |
| Uif.ExecStep | client/uif.py:258-266 | `_execCommand`'s effect and reply; ExecUnknown and ExecSetThenShow state them |
| Uif.DispatchStep | client/uif.py:22-191 | the command method found, run on the parameter; the modelled commands act as their Step functions say |
| Uif.ExecSetThenShow | client/uif.py:22-55 | after `kp v` (or ki, kd, spt), `kp` shows v |
| Uif.Uif.constructor | client/uif.py:7-14 | an empty display-switch map and line buffer, on the controller's PID |
| Uif.Uif.PidParam | client/uif.py:22-31 | `_pidparam` on the controller's PID |
| Uif.Uif.CmdPidm | client/uif.py:82-105 | `_cmd_pidm` shows or sets the mask |
| Uif.Uif.CmdPwr | client/uif.py:107-117 | `_cmd_pwr` shows or sets the output, as PwrStep says |
| Uif.Uif.CmdDisp | client/uif.py:126-135 | `_cmd_disp` sets a display switch, lists the switches, or raises |
| Uif.Uif.Disp | client/uif.py:217-231 | `disp` registers, prints and reverts oneshot |
| Uif.Uif.ExecCommand | client/uif.py:258-266 | `_execCommand`: split, look up, run |
| Uif.Uif.Dispatch | client/uif.py:22-135 | the command methods that act on the PID (kp, ki, kd, spt, in, out, pidm, pwr) and the display switches run as DispatchStep says; the others are passed on |
| Uif.Uif.Listen | client/uif.py:268-325 | the keystroke loop, whose result is the lines handed to `_execCommand` in order and how the loop ended, including by an exception a line raises |
| Common.ContainsAt | client/uif.py:99-103 | the substring test (`count(x)` is true) holds exactly when t occurs at some offset |
| Common.Split | client/storage.py:50 | `split(c)` gives fields without c that join back to the string |
| Common.SplitJoin | client/log.py:26 | splitting a join of separator-free parts gives back the parts |

## Left out

- Threads, sleeps and lifecycle are not modelled: the update loop's sleep and `start`/`stop`/`join`/`isRunning`, `ReflowControl.start`/`stop`, `Uif.start`/`stop`, and the locks. The PID tick, the reading loop of `_readAdc`, the baking loop and the keystroke loop are modelled as steps or as finite runs.
- Terminal I/O is left out: `readchar.getch`, `msg`, `_removePrompt`, `_addPrompt`. `Uif.Uif.Listen` takes the keystrokes as a sequence and returns the lines it hands to `_execCommand`. The commands run separately in `Uif.Uif.ExecCommand`, and the stop request checked between lines is not modelled.
- Uif.Uif.Listen: which lines make `_execCommand` raise is a parameter `raises`, not derived from the commands' replies, because the controller state a line runs against evolves with the commands outside the modelled set. A KeyboardInterrupt raised inside a command, which `listen` catches, is not distinguished from other exceptions.
- Printing is not modelled. A command's output is a `Reply`: the text of `disp`'s values, the float formatting of `msg` and the `"Failed: %s"` wording are left out.
- These commands are outside the modelled command set and are passed on as `Forwarded`: `quit`, `bake`, `stop`, `load`, `save`, `tune`, `draw`, `man`. Their effects are not modelled, including what `load` and `save` without a parameter and `man` print.
- The list of display switches is returned as the set of keys, without the order or the text Python prints.
- Serial I/O is left out: opening the port, `_sflush`, `_setPwm`, and matching `"Bad file descriptor"` in the exception message of `_readAdc`. `ReflowCntrl.DecodeFrame` reads from a finite byte sequence, so a stream that ends before a frame gives None where the real port would block.
- `_updateTemp` and the Steinhart–Hart conversion (client/shh.py) need logarithms and are not modelled. client/shh.py, client/steinhaartcoeffs.py, client/visualizer.py, client/pidtuner.py and client/ppidbackend.py are not part of this model.
- The random ADC value of `_genFrame` is a parameter.
- Files are modelled as their content:
  - the settings file is a string;
  - the log file is a sequence of lines.

  `os.access`, `StorageException`, opening files, the clock-based log file name and `getSerial` (a filesystem check) are left out.
- `Storage.Storage.Save` takes the values already formatted as strings: Python's `"%s"` formatting of floats is not modelled.
- `float()` on a string is the abstract `toFloat`, so which strings parse and the exact value they give are not modelled.
- Pid.FirstTickPushes: the PID state holds its numbers as `real`, so whether the output is a Python int or float is given to the lemma as a `Num`; the state does not track it.
- Uif.PwrStep: `output * 100 / maxOut` is taken over reals. Python 2 floors it when both are ints, as they are before any assignment.
- Pid.Pid.SetSampleTime: the division at client/pid.py:80 is over reals. Python 2 would floor it when both sample times are ints (the initial one is the int 1). No modelled caller sets the sample time.
- Pid.Mode is a 3-bit mask, because every caller produces 0..7. Masks outside that range are not modelled.
- Log keys and values are modelled as the strings `str()` gives for them. A value holding `"\n"` would split a row over several lines of the real file; the model keeps each row one line.
- The `assert` at client/reflowcntrl.py:103 always holds for a three-byte window. Its removal under `python -O` is not modelled.
- Emulator.FakeSerial.Read takes a non-negative n only. Python's slicing with a negative n is not modelled.
