# FloatFX in Dafny

A Dafny model of the three sequential parts of the FloatFX audio plug-in
(a JUCE equaliser / distortion / delay plug-in steered by an accelerometer
over a serial link).

- **The ASCII telemetry decoder** of the serial thread. Bytes such as
  `G+042\r` become `Message{direction, verse, value}` records that are pushed
  onto a stack. There are two versions:
  - the current, flag-guarded one, `SerialDecoder` (Source/SerialDevice.cpp);
  - the earlier, unguarded one, `LegacySerial` (SerialDevice.cpp). The
    earlier file also has the small binary packet protocol
    (`'*' '~' command length payload…`), with its three builders and its
    handlers.

  Each decoder is a class whose `Step` method does one iteration of the parse
  loop and whose `Feed` method runs the loop over one chunk. Both are proved
  equal to a pure transition function, `Transition`, and its fold, `Decode`.
  The properties are proved about those functions.
- **The parameter-mapping runtime** of the editor. "MAP X" / "MAP Y" arm an
  axis, and a mapping button assigns its slider to the armed axis. A
  control-rate timer drains up to 50 messages from the stack, averages their
  signed values, and writes a target value to the slider on the axis of the
  last popped message. There are three versions:
  - the current editor (`ParameterMapping`, Source/PluginEditor.cpp);
  - the earlier editor (`LegacyMapping`, PluginEditor.cpp);
  - the label-based variant (`LabelMapping`, MappableLabel.h).

  `Controls` holds the sliders, the mapping buttons and the declared parameter
  ranges.
- **The distortion stage** (`DistortionEffect`, Distortion.h). `process`
  copies the dry signal and runs the input filters. It then distorts every
  sample (drive, one of four waveshapers, autogain, output gain) and mixes
  the dry signal back in. Every step works in place on a 2-D array of
  samples.

Samples and slider values are `real`. The C library's `log`, `atan`, `erf`
and `sqrt`, and JUCE's `Decibels::decibelsToGain`, are function-valued
parameters. Each lemma names, as a ghost predicate in its `requires`, the
property of those functions it relies on (a logarithm is increasing with
`ln(1) = 0`; `atan` and `erf` are odd and bounded; `sqrt` is positive on
positive numbers). The stack `std::stack<Message>` is a `seq<Message>` whose
last element is the top.

## Model

| member | source | states |
|---|---|---|
| Messages.DecimalValueBound | Source/SerialDevice.cpp:222-223 | a string of n accumulated digits is worth less than 10^n |
| Messages.Stoi | Source/SerialDevice.cpp:226-230 | std::stoi on a digit string is the digits' decimal value when that is at most INT_MAX; it fails with invalid_argument exactly on the empty string, and never fails on 1 to 9 digits |
| SerialDecoder.Complete | Source/SerialDevice.cpp:231-243 | closing a message pushes `m` with its value on top of the stack and keeps it as the current message, then clears the digits and the guard flag |
| SerialDecoder.Transition | Source/SerialDevice.cpp:212-244 | one byte pushes at most one message and never alters what is already on the stack; a push happens only for '\r' inside a message; after a throw nothing changes |
| SerialDecoder.Decode | Source/SerialDevice.cpp:199-248 | a chunk pushes at most one message per '\r' it holds and leaves the older stack contents in place |
| SerialDecoder.SerialDevice.constructor | Source/SerialDevice.cpp:119-126 | the parser starts with the uninitialised message, no digits, the flag clear and an empty stack |
| SerialDecoder.SerialDevice.Step | Source/SerialDevice.cpp:212-246 | the fields after one byte are `Transition` of the fields before |
| SerialDecoder.SerialDevice.Feed | Source/SerialDevice.cpp:199-248 | the fields after the loop are `Decode` of the fields before over the whole chunk |
| SerialDecoder.SerialDevice.ProcessSerialPort | Source/SerialDevice.cpp:168-250 | one pass of the serial processing loop marks the device connected and decodes the chunk it read |
| SerialDecoder.SerialDevice.PortOpened | Source/SerialDevice.cpp:140-143 | a successful reopen clears the guard flag and nothing else |
| SerialDecoder.DecodeAppend | Source/SerialDevice.cpp:117-248 | the parser state outlives each read: decoding `a` then `b` equals decoding `a + b` |
| SerialDecoder.DecodeCons | Source/SerialDevice.cpp:199-248 | decoding `c` followed by `rest` is one step on `c`, then `rest` |
| SerialDecoder.DecodeInThreeChunks | Source/SerialDevice.cpp:117-248 | any two chunk boundaries leave the result unchanged |
| SerialDecoder.OtherBytesIgnored | Source/SerialDevice.cpp:212-224 | a byte outside the alphabet changes no state |
| SerialDecoder.AxisByteOpensMessage | Source/SerialDevice.cpp:212-217 | 'G'/'B' sets the direction and opens a message, and keeps the digits already read |
| SerialDecoder.DigitAppendedOnlyInMessage | Source/SerialDevice.cpp:222-223 | a digit is appended exactly when a message is open |
| SerialDecoder.SignBytes | Source/SerialDevice.cpp:218-221 | by operator precedence '+' sets the sign even outside a message, while '-' sets it only inside one |
| SerialDecoder.StrayTerminatorIgnored | Source/SerialDevice.cpp:224 | '\r' outside a message changes nothing |
| SerialDecoder.TerminatorPushesMessage | Source/SerialDevice.cpp:224-243 | '\r' inside a message pushes exactly one message, valued at the digits or 0 if there are none, then clears the digits and the flag; the pushed message stays current, so its direction and sign carry over |
| SerialDecoder.OverflowHalts | Source/SerialDevice.cpp:229 | digits above INT_MAX make std::stoi throw, which ends the thread |
| SerialDecoder.HaltedStaysHalted | Source/SerialDevice.cpp:229 | once the thread has ended, no further bytes change anything |
| SerialDecoder.DecodeExample | Source/SerialDevice.cpp:212-243 | "G+042\r" yields exactly {G, '+', 42} |
| SerialDecoder.LoneTerminatorExample | Source/SerialDevice.cpp:224 | "\r" alone yields no message |
| SerialDecoder.AxisKeepsDigitsExample | Source/SerialDevice.cpp:212-223 | "G12B34\r" yields the single message {B, sign, 1234} |
| SerialDecoder.SecondAxisKeepsDigits | Source/SerialDevice.cpp:212-243 | "B34\r" after an open "12" pushes {B, sign, 1234} |
| SerialDecoder.SignInheritedExample | Source/SerialDevice.cpp:218-231 | sign and direction are never reset: "G-5\r" then "B7\r" yields {G,'-',5} and then {B,'-',7} |
| SerialDecoder.NegativeFive | Source/SerialDevice.cpp:212-243 | "G-5\r" on a fresh parser pushes {G, '-', 5} and leaves that message as the current one |
| SerialDecoder.UnsignedSeven | Source/SerialDevice.cpp:212-243 | after that, "B7\r" pushes {B, '-', 7} |
| SerialDecoder.OpenMessageExample | Source/SerialDevice.cpp:212-223 | "G12" leaves an open X message holding "12" and pushes nothing |
| SerialDecoder.ReopenKeepsDigitsExample | Source/SerialDevice.cpp:140-143 | a reopen keeps the digits: "G12", a reconnect, then "B3\r" yields {B, sign, 123} |
| LegacySerial.Transition | SerialDevice.cpp:320-341 | without the guard, a byte pushes exactly when it is '\r' and std::stoi succeeds on the digits; every digit and sign counts; the older stack is kept |
| LegacySerial.Decode | SerialDevice.cpp:282-344 | the loop over a chunk only ever adds to the top of the stack |
| LegacySerial.DecodeCons | SerialDevice.cpp:282-344 | decoding `c` followed by `rest` is one step on `c`, then `rest` |
| LegacySerial.DecodeAppend | SerialDevice.cpp:205-344 | this parser's state also outlives each read |
| LegacySerial.AxisByteSetsDirection | SerialDevice.cpp:320-323 | an axis byte always sets the direction and changes nothing else, with no message flag to open |
| LegacySerial.SignBytesAlwaysCount | SerialDevice.cpp:324-327 | '+' and '-' each always set the sign and change nothing else |
| LegacySerial.DigitAlwaysAppended | SerialDevice.cpp:328-329 | every digit is appended, whether or not an axis byte came before it, and nothing else changes |
| LegacySerial.TerminatorAlwaysPushes | SerialDevice.cpp:330-333 | every '\r' after digits gives exactly the next state: the current message takes their value, is pushed and stays current, the digits are cleared, and the thread goes on |
| LegacySerial.EmptyTerminatorHalts | SerialDevice.cpp:331 | '\r' with no digits makes std::stoi throw: nothing is pushed and the thread ends |
| LegacySerial.LoneTerminatorExample | SerialDevice.cpp:330-333 | "\r" alone ends the unguarded parser, while the guarded parser ignores it |
| LegacySerial.StaleAxisExample | SerialDevice.cpp:320-333 | "G+5\r-7\r" pushes a second message on the stale X axis, {G, '-', 7} |
| LegacySerial.GuardDropsStaleFragmentExample | Source/SerialDevice.cpp:212-243 | the guarded parser drops that fragment and pushes only {G, '+', 5} |
| LegacySerial.Payload | SerialDevice.cpp:76-77 | the payload of a framed packet is as long as its length byte says |
| LegacySerial.LittleEndian16 | SerialDevice.cpp:179 | the decoded colour's low and high bytes are the two payload bytes |
| LegacySerial.LittleEndian32 | SerialDevice.cpp:171 | the decoded 32-bit value is exactly b0 + b1·2^8 + b2·2^16 + b3·2^24, the value the cast to `uint32_t` yields; its lowest byte is the first payload byte and its highest byte the last |
| LegacySerial.PacketsWellFramed | SerialDevice.cpp:76-100 | every packet starts '*' '~', and its length byte equals its payload length (2, 4 and 2) |
| LegacySerial.LightColorRoundTrip | SerialDevice.cpp:175-180 | the light-colour handler decodes the payload of `setLightColor(c)` back to `c` |
| LegacySerial.TempoRoundTrip | SerialDevice.cpp:167-173 | the tempo handler decodes the four bytes of `setTempo` back to the same 32-bit integer |
| LegacySerial.FourBytes | SerialDevice.cpp:88-90 | a 32-bit number is the little-endian sum of the four bytes the builder extracts |
| LegacySerial.ChargingAlarmLevelRoundTrip | SerialDevice.cpp:99-100 | the alarm packet carries its command code and the payload [alarm index, level] in that order |
| LegacySerial.LegacySerialDevice.constructor | SerialDevice.h:52-54 | tempo starts at 60, light colour at 0, both alarm levels at 0; the stack is empty and nothing has been written |
| LegacySerial.LegacySerialDevice.Step | SerialDevice.cpp:320-341 | the parser fields after one byte are `Transition` of those before, and the packet fields are unchanged |
| LegacySerial.LegacySerialDevice.Feed | SerialDevice.cpp:282-344 | the parser fields after the loop are `Decode` of those before |
| LegacySerial.LegacySerialDevice.ProcessSerialPort | SerialDevice.cpp:254-345 | one pass of the serial processing loop marks the device connected and decodes a chunk of at most 256 bytes, leaving the tempo, the light colour and the output unchanged |
| LegacySerial.LegacySerialDevice.SetLightColor | SerialDevice.cpp:68-79 | writes exactly the light-colour packet, or nothing when there is no output stream |
| LegacySerial.LegacySerialDevice.SetTempo | SerialDevice.cpp:81-92 | writes exactly the tempo packet for the scaled integer, or nothing when there is no output stream |
| LegacySerial.LegacySerialDevice.SetChargingAlarmLevel | SerialDevice.cpp:94-102 | writes exactly the alarm packet, or nothing when there is no output stream |
| LegacySerial.LegacySerialDevice.HandleTempoCommand | SerialDevice.cpp:167-173 | with 4 payload bytes the tempo becomes their little-endian value / 10^4; any other size leaves it unchanged |
| LegacySerial.LegacySerialDevice.HandleLightColorCommand | SerialDevice.cpp:175-180 | with 2 payload bytes the colour becomes their little-endian value; any other size leaves it unchanged |
| LegacySerial.LegacySerialDevice.HandleChargingAlarmLevelCommand | SerialDevice.cpp:182-192 | with 2 bytes and an index below 2, only that slot takes the level; otherwise both slots are unchanged |
| LegacySerial.LegacySerialDevice.HandleCommand | SerialDevice.cpp:194-202 | codes 2, 1 and 3 go to the tempo, colour and alarm handlers; any other code changes no state |
| LegacySerial.Loopback | SerialDevice.cpp:194-202 | handing each built packet's command and payload to `handleCommand` stores exactly the values that were sent |
| Controls.SliderOf | Source/PluginEditor.h:109-119 | a mapping button gives a slider exactly when it is not null (then its attached slider) |
| Controls.AttachedSliderInjective | Source/PluginEditor.h:115-119 | no two mapping buttons share a slider |
| Controls.DeclaredRange | PluginProcessor.cpp:27-50 | each registered parameter's range has min < max; the two delay sliders have no range in these files |
| ParameterMapping.LogScale | Source/PluginEditor.cpp:526-528 | `log(1+20v)/log(21)` maps 0 to 0 and 1 to 1, is positive for positive v, and keeps [0, 1] inside [0, 1] |
| ParameterMapping.LinearTargetLandmarks | Source/PluginEditor.cpp:556-569 | the linear target is the midpoint for mean 0, max for +100 and min for -100 |
| ParameterMapping.LogTargetLandmarks | Source/PluginEditor.cpp:560-563 | the logarithmic target is the midpoint for mean 0 and min for mean ±100 |
| ParameterMapping.TargetInRange | Source/PluginEditor.cpp:555-588 | for \|mean\| <= 100, both target formulas stay inside [min, max] |
| ParameterMapping.CentredInRange | Source/PluginEditor.cpp:558-569 | `middle + (max - middle) * t` stays inside [min, max] for every t in [-1, 1] |
| ParameterMapping.CutoffTargetInRange | Source/PluginEditor.cpp:556-566 | on the cutoff slider's declared range, every target for \|mean\| <= 100 lies in [20, 20000] |
| ParameterMapping.BatchSize | Source/PluginEditor.cpp:536-538 | a tick pops min(stack size, 50) messages |
| ParameterMapping.Batch | Source/PluginEditor.cpp:536-540 | the popped messages are exactly the top of the stack, and the rest stays below them |
| ParameterMapping.Mean | Source/PluginEditor.cpp:547-553 | the signed mean is 0/0 (NaN) exactly when nothing was popped |
| ParameterMapping.TickWrite | Source/PluginEditor.cpp:555-588 | a write goes to param1 only for an X message and to param2 only for a Y message, and there is no write exactly when the axis of the last popped message is unmapped |
| ParameterMapping.SignedSumBound | Source/PluginEditor.cpp:547-551 | with values in [0, b], the signed sum of n messages lies in [-n·b, n·b] |
| ParameterMapping.MeanBound | Source/PluginEditor.cpp:547-553 | popped values of at most 100 give a mean in [-100, 100] |
| ParameterMapping.TickWriteInRange | Source/PluginEditor.cpp:530-590 | when every popped value is at most 100, every finite value a tick writes lies within the slider's range |
| ParameterMapping.FreshestPoppedFirst | Source/PluginEditor.cpp:539-540 | the message pushed last is popped first, and nothing below the batch moves |
| ParameterMapping.Editor.constructor | Source/PluginEditor.h:97-110 | no axis is armed, no button is chosen and no slider is mapped |
| ParameterMapping.Editor.ButtonClicked | Source/PluginEditor.cpp:436-452 | MAP X arms X and disarms Y, MAP Y does the reverse, a mapping button changes neither; every axis still drives its own button's slider |
| ParameterMapping.Editor.MapButtonClicked | Source/PluginEditor.cpp:464-524 | with X armed, X takes the button and its slider and Y is untouched; Y is symmetric; with neither armed, clicking X's button clears X and any other click clears Y; every axis still drives its own button's slider |
| ParameterMapping.Editor.TimerCallback | Source/PluginEditor.cpp:530-590 | when disconnected, nothing happens; when connected, the stack loses exactly its top batch and the write is `TickWrite` of the mapping, the last popped message and the batch's mean |
| ParameterMapping.BothAxesOnOneButton | Source/PluginEditor.cpp:464-510 | mapping X and then Y to the cutoff button makes both axes drive the cutoff |
| LegacyMapping.LegacyTargetOffset | PluginEditor.cpp:434-445 | the earlier target is the linear target shifted by -min·(1 - mean/100), so the two agree exactly when min = 0 or mean = 100 |
| LegacyMapping.LegacyCutoffOutOfRange | PluginEditor.cpp:437-438 | on [20, 20000], mean 0 gives 9990 instead of 10010, and mean -100 gives -20, below the minimum |
| LegacyMapping.LegacyTickWrite | PluginEditor.cpp:434-445 | the write goes to param1 only for X and to param2 only for Y, there is no write exactly when that axis is unmapped, and a finite mean writes the earlier target |
| LegacyMapping.LegacyEditor.constructor | Source/PluginEditor.h:97-106 | no axis is armed and nothing is mapped |
| LegacyMapping.LegacyEditor.ButtonClicked | PluginEditor.cpp:355-381 | the pressed axis is armed and the other axis keeps its flag |
| LegacyMapping.LegacyEditor.MapButtonClicked | PluginEditor.cpp:389-400 | every armed axis takes the clicked button's slider, both end disarmed, and an unarmed axis keeps its slider |
| LegacyMapping.LegacyEditor.TimerCallback | PluginEditor.cpp:402-447 | when disconnected, nothing happens; when connected, the stack loses its top batch and the write is `LegacyTickWrite` of the batch's mean |
| LegacyMapping.ArmBothThenMap | PluginEditor.cpp:365-399 | arming both axes and then clicking a mapping button maps both axes to its slider |
| LabelMapping.DoubleClickWithXArmed | MappableLabel.h:33-46 | with only X armed, X takes the slider and is disarmed, and Y loses the slider if it held it |
| LabelMapping.DoubleClickWithYArmed | MappableLabel.h:47-59 | with only Y armed, Y takes the slider and is disarmed, and X loses the slider if it held it |
| LabelMapping.DoubleClickWithBothArmed | MappableLabel.h:33-59 | with both armed, the end state is X unmapped, Y on the slider, both disarmed |
| LabelMapping.DoubleClickUnarmed | MappableLabel.h:31-32 | with neither armed, the mapping state is untouched |
| LabelMapping.DoubleClickKeepsSlidersApart | MappableLabel.h:39-53 | the clicked slider is never on both axes afterwards, and no slider becomes shared |
| LabelMapping.MappingTargets.constructor | Source/PluginEditor.h:97-106 | the shared mapping variables start disarmed and unmapped |
| LabelMapping.MappableLabel.constructor | MappableLabel.h:18-27 | the label keeps the shared targets and its attached component |
| LabelMapping.MappableLabel.MouseDoubleClick | MappableLabel.h:29-60 | a click with a slider attached applies both blocks in order (`DoubleClick`); without a click or a slider nothing is mapped; the colour turns white when nothing is armed and red when a mapping happens |
| LabelMapping.CutoffMovesFromXToY | MappableLabel.h:33-59 | mapping the cutoff label to X, then to Y, moves it from X to Y |
| DistortionEffect.AngerCoefficientBounds | Distortion.h:103-121 | for anger in [0, 1] the coefficients lie in [0.1, 1], [0.5, 3], [0.5, 3] and [0.5, 5], so all are positive |
| DistortionEffect.UnknownTypeUnchanged | Distortion.h:104-122 | a type outside 0..3 leaves the sample unchanged |
| DistortionEffect.InverseAbsoluteOddAndBounded | Distortion.h:106-108 | `x/(a+\|x\|)` is odd and lies strictly inside (-1, 1) |
| DistortionEffect.ArctangentOdd | Distortion.h:110-112 | the arctangent shaper is odd when `atan` is |
| DistortionEffect.ArctangentBounded | Distortion.h:110-112 | with \|atan\| < 1.5708, the arctangent shaper stays inside (-1.0001, 1.0001) |
| DistortionEffect.ErrorFunctionOdd | Distortion.h:114-116 | the erf shaper is odd when `erf` is |
| DistortionEffect.InverseSquareRootOdd | Distortion.h:118-120 | `x/sqrt(1/a + x²)` is odd |
| DistortionEffect.InverseSquareRootBounded | Distortion.h:118-120 | with a true square root, `x/sqrt(1/a + x²)` lies strictly inside (-1, 1) |
| DistortionEffect.DistortSampleOdd | Distortion.h:101-123 | every waveshaper maps -x to the negation of what it maps x to |
| DistortionEffect.DistortSampleBounded | Distortion.h:101-123 | types 0, 2 and 3 stay strictly inside (-1, 1), and type 1 stays inside (-1.0001, 1.0001) |
| DistortionEffect.AutoGainAngerFactor | Distortion.h:85-86 | the autogain factor `1 - 0.7·anger` lies in [0.3, 1] |
| DistortionEffect.SilenceStaysSilent | Distortion.h:91-96 | the wet path maps silence to silence |
| DistortionEffect.MixProperties | Distortion.h:131-133 | mix 1 is all wet, mix 0 all dry, and a mix in [0, 1] lies between the wet and dry samples |
| DistortionEffect.Distortion.constructor | Distortion.h:138-144 | the stage holds the given parameters and an empty region (the source leaves the sizes unset until `prepare`) |
| DistortionEffect.Distortion.SetParameters | Distortion.h:28-37 | the stage's parameters become those read from the tree |
| DistortionEffect.Distortion.Prepare | Distortion.h:39-45 | the region becomes output channels × maximum block size, and the dry buffer is a new buffer of exactly that shape |
| DistortionEffect.Distortion.CopyDry | Distortion.h:60-63 | every cell of the region in the dry buffer equals the block's cell |
| DistortionEffect.Distortion.ApplyInputFilters | Distortion.h:73-80 | the block becomes the filter chain's output |
| DistortionEffect.Distortion.ForEachSample | Distortion.h:87-98 | every cell of the region is replaced by its image under the per-sample function, and every other cell is unchanged |
| DistortionEffect.Distortion.DistortBuffer | Distortion.h:82-99 | every cell of the region becomes its wet sample (drive, shaper, autogain, volume in that order), and no other cell changes |
| DistortionEffect.Distortion.ApplyMix | Distortion.h:125-136 | every cell of the region becomes `wet·mix + dry·(1-mix)` with its dry copy, and no other cell changes |
| DistortionEffect.Distortion.Process | Distortion.h:56-68 | the dry buffer holds the incoming block; each cell of the region ends as the mix of its distorted filtered value with its incoming value; cells outside the region hold the filter output |

## Left out

- The serial-port lifecycle is not modelled: the open/close/retry task loop, the reconnect timer and `read_data`. These are I/O and wall-clock timing. Only a successful reopen (`PortOpened`) and one pass of the processing task (`ProcessSerialPort`) are modelled.
- The serial thread and the editor's timer share the `messages` stack and `isConnected` with no synchronisation. The model runs them one after the other, as plain fields.
- The binary `ParseState` machine that `run()` declares but never drives is not modelled.
- An uninitialised `Message m` is a parameter (`initial`, `uninitialised`): in the source its contents are indeterminate.
- The thread ending when std::stoi throws is modelled as a `halted` flag: after it, no byte changes anything.
- Float rounding is not modelled: all arithmetic on samples, means and targets is on reals. The one exception is the packet layer's integers, where the 16- and 32-bit widths and the wrap-around are written out.
- The float tempo is scaled by 10^4 in `setTempo`. Only the integer the scaling yields is modelled: `SetTempo` takes `tempoAsInt`.
- `Slider::setValue` clamps to the slider's range, which is JUCE code. The timer returns the value it passes instead (`SliderWrite`), and the range is a parameter.
- `abs(mean_value)` is taken to be the floating-point absolute value, not an integer `abs` on a truncated mean.
- LittleEndian32: the source adds the shifted bytes in a signed `int`, and `data[3] << 24` overflows it when the top byte is 128 or more (undefined behaviour before C++20). The model takes the value modulo 2^32 that the `uint32_t` cast yields in practice.
- CopyDry: requires a block with at least the prepared channels and samples. On a shorter block from the host, `copyFrom` reads past its end (Distortion.h:60-62), which the model does not capture.
- ForEachSample: requires a block at least as large as the prepared region. The source's loops (Distortion.h:87-96) would write past the end of a shorter block.
- DistortBuffer: requires a block at least as large as the prepared region, for the same reason as ForEachSample.
- ApplyMix: requires a block at least as large as the prepared region. The source's loops (Distortion.h:127-133) would access past the end of a shorter block.
- Process: requires a block at least as large as the prepared region. The host may pass a shorter one (PluginProcessor.cpp:167-186); the source then accesses out of bounds in all three loops, which the model does not capture.
- InverseAbsoluteOddAndBounded: `abs(sample)` in shaper type 0 (Distortion.h:108) is taken to be the floating-point absolute value. If overload resolution picked C's `int abs(int)`, the shaper would be `x/a` for \|x\| < 1, which is not bounded by 1, and this lemma would not hold.
- `Distortion.constructor` sets the channel count and block size to 0. In the source they stay uninitialised until `prepare` (Distortion.h:138-144).
- The earlier editor's header does not declare `mapParameter1/2` or `param1/2`. `LegacyEditor` gives them the defaults of Source/PluginEditor.h:97-106.
- The two delay sliders' parameter ranges are registered outside these files, so `DeclaredRange` has none for them.
- Equalizer.h and Source/Equalizer.h are not part of this model: they wrap JUCE IIR coefficient design and filtering, whose code is not available.
- The delay stage is not part of this model: it has no implementation in these files.
- The JUCE HPF/LPF filter chain is not modelled: `ApplyInputFilters` and `Process` take its output, `filtered`, as a parameter. The float-to-int truncation of the cutoffs is left out with it.
- `atan`, `erf`, `sqrt`, `log` and `decibelsToGain` are function parameters, and each lemma states the properties it uses.
- `DistortSample` and `WetSample` require anger in [0, 1], the range the processor registers for it. Outside it, a coefficient can be 0 and the source divides by it.
- `DistortBuffer` hands the per-sample formula to the traversal `ForEachSample` as a function. The source instead computes `outputGain` and `autoGain` once before its loops. Both give the same value per cell.
- The wet path's gains come from the opaque `decibelsToGain`. So no bound and no oddness is proved for `WetSample` as a whole: bounds are proved for the shapers, and `SilenceStaysSilent` for the wet path.
- The GUI's layout, painting, colours and toggle states are not modelled, except the text colour `mouseDoubleClick` sets on a label.
- `OscManager` and the `PluginProcessor` boilerplate are not modelled: the first is a network sender, and the second only wires the stages to JUCE.

## Findings

| source | as written | input that shows it | evidently intended | confidence | as-written member | corrected member |
|---|---|---|---|---|---|---|
| PluginEditor.cpp:437 | the earlier timer centres the target at `middle = (max - min) / 2` | cutoff slider [20, 20000]: mean 0 writes 9990, not the centre 10010, and mean -100 writes -20, below the minimum 20 | `middle = (max + min) / 2`, which keeps every target for \|mean\| <= 100 inside [min, max]; the current editor computes it this way at Source/PluginEditor.cpp:558 | not executed | LegacyMapping.LegacyCutoffOutOfRange | ParameterMapping.TargetInRange |
