# win-audio-capture, modelled in Dafny

This project models the logic of the `win-audio-capture` Node.js package that does not depend on ffmpeg
or a cloud SDK, and proves properties of that model:

- **The WAV codec** (`Wav`, over the little-endian helpers in `Bytes`). `samplesToBuffer` writes the
  44-byte RIFF/WAVE PCM header (mono, 44100 Hz, 16-bit) and then one clamped, rounded int16 per sample.
  `bufferToSamples` skips the header and reads the int16 values back, divided by 32768.
- **The sample transforms** (`Transforms`): `normalize`, `trim`, `fade`, `convert` and the sum, peak and
  duration parts of `analyze`. The transforms that work in place on the sample array (`normalize`, `fade`)
  are methods over `array<real>`, each proved equal to a specification function on sequences.
- **The processor registry** (`Pipeline`). The `AudioProcessor` class keeps an insertion-ordered map of named
  processors (`Map.set` replaces a value in its slot or appends a new key). `process` threads the buffer
  through every processor whose option is truthy, in registry order. `options[name]` also finds the
  properties every object inherits (`toString`, `valueOf`, ...), so a processor registered under such
  a name always runs.
- **Device discovery** (`DeviceDiscovery`). `getDevices` classifies each extracted device name and supplies
  two fallback devices when none was listed. `getRecommendedDevice` sorts the caller's array in place,
  stable and ascending by priority, then returns the first recommended device or else the first device.
- **Capture state** (`Capture`). The `AudioCapture` class holds the running flag, process and stream
  handles, and the list of received chunks. It is modelled with `calculateDuration` and the
  concatenation of the chunks.
- **The device record** (`AudioDeviceModel`): the `AudioDevice` class with its capability queries.
- **The release script** (`Versioning`): the `major.minor.patch` bump over `split('.').map(Number)`.
  NaN and `undefined` parts are modelled. So are the package object update and the command-line handling.

JavaScript semantics are written out where they matter:

- **Rounding and range errors.** `Math.round` is `floor(y + 1/2)`. `readInt16LE` past the end of an
  odd-length payload is a RangeError, and so is `writeUInt32LE` of a size field of 2^32 or more. Both
  are `Err` results, and `process` propagates them.
- **Trimming.** `Array.prototype.slice` normalises negative and out-of-range indices, so `trim` needs no
  precondition.
- **Fading.** A fade-in longer than the recording writes past the end of the array, which grows it, and
  the grown slots hold NaN. Clamping, `Math.round` and `writeInt16LE` turn NaN into the bytes `0, 0`,
  exactly as they do 0, so the model stores those samples as 0.0 (`Transforms.NotANumber`).

Two behaviours of the code are worth knowing when reading the proofs:

- **Round-trip error.** The encoder scales by 32767 and the decoder divides by 32768, so a sample comes
  back within 3/65536 of its clamped value, not within one step of 1/32767 (`Wav.RoundTripError`,
  `Wav.RoundTripErrorExceedsOneStep`).
- **Fade lengths.** `fade` accepts fade-in lengths above 1 and then grows the signal
  (`Transforms.FadeInOvershoot`).

## Model

| member | source | states |
|---|---|---|
| Bytes.UInt16LE | src/audio-processor.js:169-174 | `writeUInt16LE`: two bytes, low byte first, whose little-endian value is the argument |
| Bytes.UInt32LE | src/audio-processor.js:165-176 | `writeUInt32LE`: four bytes, low byte first, whose little-endian value is the argument |
| Bytes.Int16LE | src/audio-processor.js:181 | `writeInt16LE`: two bytes that `readInt16LE` reads back as the written value |
| Bytes.ReadInt16LE | src/audio-processor.js:149 | `readInt16LE` yields a value in [-32768, 32767] |
| Bytes.Ascii | src/audio-processor.js:164-175 | `buffer.write` of a tag: byte i is the code of character i |
| Wav.Clamp | src/audio-processor.js:180 | `max(-1, min(1, x))` lies in [-1, 1], is x inside that range and saturates outside it |
| Wav.Round | src/audio-processor.js:181 | `Math.round` gives the integer within half a step of its argument, halves rounding up |
| Wav.Quantize | src/audio-processor.js:180-181 | every written sample lies in [-32767, 32767], within 1/2 of clamp(x)·32767 |
| Wav.Encode | src/audio-processor.js:160-185 | `samplesToBuffer` fails (RangeError) at least when a size field does not fit in 32 bits; otherwise the buffer is 44 + 2N bytes |
| Wav.Decode | src/audio-processor.js:146-153 | `bufferToSamples` fails exactly when the payload has odd length; otherwise it yields (len − 44)/2 samples (none for 44 bytes or fewer), each in [-1, 32767/32768] |
| Wav.PayloadAt | src/audio-processor.js:179-182 | sample i occupies payload bytes 2i and 2i+1 as the int16 of its quantized value |
| Wav.HeaderLayout | src/audio-processor.js:164-176 | the header holds "RIFF", 36 + 2N, "WAVE", "fmt ", 16, 1, 1, 44100, 88200, 2, 16, "data", 2N at their offsets |
| Wav.EncodeLayout | src/audio-processor.js:161-182 | the encoded buffer is 44 + 2N bytes: the header, then sample i read back at byte 44 + 2i as round(clamp(s[i])·32767) |
| Wav.RoundTrip | src/audio-processor.js:146-153 | decoding an encoded signal yields N samples, sample i being round(clamp(s[i])·32767)/32768 |
| Wav.RoundTripError | src/audio-processor.js:148-150 | each decoded sample is within 3/65536 of the clamped input |
| Wav.RoundTripErrorExceedsOneStep | src/audio-processor.js:180-181 | for the input 0.99998 the round-trip error exceeds 1/32767 |
| Wav.Write | src/audio-processor.js:164-176 | a write into the allocated buffer puts the bytes at the offset and changes nothing else |
| Wav.WritePayload | src/audio-processor.js:179-182 | the payload loop keeps the header and fills the rest with the encoded samples |
| Wav.SamplesToBuffer | src/audio-processor.js:160-185 | the allocating, writing method computes `Wav.Encode` |
| Wav.BufferToSamples | src/audio-processor.js:146-153 | the pushing loop computes `Wav.Decode` |
| Transforms.PeakBounds | src/audio-processor.js:59-62 | the maximum amplitude bounds the magnitude of every sample |
| Transforms.PeakAttained | src/audio-processor.js:59-62 | a positive maximum amplitude is the magnitude of some sample |
| Transforms.PeakAtMost | src/audio-processor.js:59-62 | any bound on every sample's magnitude bounds the maximum amplitude |
| Transforms.SilentPeak | src/audio-processor.js:59-64 | an all-zero signal has maximum amplitude 0 |
| Transforms.MaxAmplitude | src/audio-processor.js:59-62 | the scanning loop computes the maximum amplitude |
| Transforms.ApplyGain | src/audio-processor.js:71-73 | the in-place loop turns every sample into clamp(sample · gain) |
| Transforms.Normalize | src/audio-processor.js:54-76 | `normalize` decodes, finds the peak, returns its input when silent, else scales and re-encodes |
| Transforms.NormalizeResult | src/audio-processor.js:54-76 | `normalize` throws the decoder's RangeError on an odd payload, succeeds whenever the decoded count is encodable, and returns a buffer as long as its input |
| Transforms.NormalizeSilent | src/audio-processor.js:64 | a silent buffer is returned unchanged |
| Transforms.NormalizeBounded | src/audio-processor.js:56-75 | the output decodes to as many samples as the input, all in [-1, 1] |
| Transforms.GainedWithin | src/audio-processor.js:67-72 | after the gain target/peak every sample is within the target, and a peak sample reaches it |
| Transforms.NormalizeReachesTarget | src/audio-processor.js:67-73 | before quantization the new peak is exactly the target amplitude |
| Transforms.RelativeIndex | src/audio-processor.js:91 | `slice` resolves an index into [0, len], leaving in-range indices unchanged |
| Transforms.Slice | src/audio-processor.js:91 | `slice(from, to)` is the subsequence `s[from..to]` whenever 0 ≤ from ≤ to ≤ len, and is never longer than s |
| Transforms.IndexAtInRange | src/audio-processor.js:88-89 | for 0 ≤ start ≤ end ≤ 1, 0 ≤ floor(start·N) ≤ floor(end·N) ≤ N |
| Transforms.Trim | src/audio-processor.js:84-93 | `trim` throws the decoder's RangeError on an odd payload, succeeds whenever the decoded count is encodable, and never returns more samples than it was given |
| Transforms.TrimSelects | src/audio-processor.js:84-93 | `trim` with 0 ≤ start ≤ end ≤ 1 re-encodes exactly `samples[floor(start·N)..floor(end·N))`, which decode back |
| Transforms.TrimDefaultsKeepAll | src/audio-processor.js:85-92 | with the default options `trim` re-encodes all N samples |
| Transforms.TrimQuarterToThreeQuarters | src/audio-processor.js:88-92 | start 0.25 and end 0.75 keep samples 25 to 74 of 100 |
| Transforms.FadeInLength | src/audio-processor.js:105-111 | the fade-in never shortens the signal, and keeps its length when fadeIn ≤ 1 |
| Transforms.Grow | src/audio-processor.js:109 | assigning past the end grows the array, the new slots holding NaN |
| Transforms.FadeInPlace | src/audio-processor.js:105-111 | the fade-in loop computes the faded-in signal, growing it if the fade is longer than the signal |
| Transforms.FadeOutPlace | src/audio-processor.js:113-122 | the fade-out loop computes the faded-out signal in place |
| Transforms.Fade | src/audio-processor.js:101-125 | `fade` decodes, fades in, fades out and re-encodes |
| Transforms.FadeResult | src/audio-processor.js:101-125 | `fade` throws the decoder's RangeError on an odd payload, never returns fewer samples than it was given, and with fadeIn ≤ 1 and an encodable count returns exactly as many |
| Transforms.FadeRegions | src/audio-processor.js:105-122 | the first k = floor(fadeIn·N) samples are scaled by i/k, the last m by (m−j)/m, both where the regions overlap, and all others are unchanged |
| Transforms.FadeInOvershoot | src/audio-processor.js:106-109 | when floor(fadeIn·N) > N the result has that many samples, the added ones NaN |
| Transforms.FadeKeepsCount | src/audio-processor.js:101-124 | the output decodes to the faded length, which is N whenever fadeIn ≤ 1 |
| Transforms.FadeInRamp | src/audio-processor.js:105-111 | on 100 ones, fadeIn 0.1 scales sample 0 to 0, sample 9 to 0.9, and leaves sample 10 at 1 |
| Transforms.Convert | src/audio-processor.js:133-139 | `convert` returns its input buffer untouched |
| Transforms.PrefixStep | src/audio-processor.js:199-203 | one iteration of the analysis loop adds the sample, its square and its magnitude to the running sum, squares and peak |
| Transforms.Accumulate | src/audio-processor.js:199-203 | the loop computes the sum, the sum of squares and the peak |
| Transforms.Analyze | src/audio-processor.js:192-215 | `analyze` returns the duration N/44100, the average and mean square (absent for no samples) and the peak |
| Transforms.AnalyzeResult | src/audio-processor.js:192-215 | `analyze` throws exactly when decoding does; the duration is the decoded count over 44100, the averages are absent exactly for a buffer of at most 44 bytes, and the peak is non-negative |
| Transforms.SumBounded | src/audio-processor.js:200 | a bound b on every magnitude bounds the sum by N·b |
| Transforms.SumOfSquaresBounded | src/audio-processor.js:201 | a bound b on every magnitude bounds the sum of squares by N·b² |
| Transforms.AverageBound | src/audio-processor.js:205 | the average's magnitude is at most the peak |
| Transforms.MeanSquareBound | src/audio-processor.js:206 | the mean square lies between 0 and the squared peak |
| Transforms.StatisticsBounds | src/audio-processor.js:205-212 | on samples in [-1, 1] the duration is N/44100, the peak lies in [0, 1] and bounds every sample and the average, and the mean square is at most the squared peak |
| Transforms.AnalyzeBounds | src/audio-processor.js:192-215 | every decodable buffer satisfies those bounds |
| Pipeline.Lookup | src/audio-processor.js:26-28 | the reference lookup under which the effect of `set` is stated: a name is found exactly when it is a key |
| Pipeline.Registered | src/audio-processor.js:26-28 | `Map.set` keeps the key order when the name is held and appends it otherwise |
| Pipeline.RegisteredLookup | src/audio-processor.js:26-28 | after `set`, the name maps to the new processor and every other name to its old one |
| Pipeline.RegisteredDistinct | src/audio-processor.js:26-28 | `set` keeps every key held once |
| Pipeline.RegisteredNew | src/audio-processor.js:26-28 | registering a new name appends it last |
| Pipeline.ReRegisterKeepsSlot | src/audio-processor.js:26-28 | re-registering a held name replaces its processor in its own slot and moves nothing |
| Pipeline.DefaultsFromEmpty | src/audio-processor.js:14-19 | registering the defaults into an empty map yields normalize, trim, fade, convert in that order |
| Pipeline.Run | src/audio-processor.js:36-46 | `process` throws only when some registered name's option is truthy, counting the properties every object inherits |
| Pipeline.RunPrefixErr | src/audio-processor.js:39-43 | once a processor throws, `process` throws that error |
| Pipeline.RunCons | src/audio-processor.js:39-43 | `process` runs the first entry and then the rest on its output |
| Pipeline.RunWithoutOptions | src/audio-processor.js:36-46 | with no truthy option for any registered name (neither an own option nor an inherited property), `process` returns its input |
| Pipeline.InheritedNameRuns | src/audio-processor.js:26-46 | a custom processor registered as "toString" runs even with no options, after the defaults have passed the buffer through |
| Pipeline.DefaultSteps | src/audio-processor.js:14-19 | each default entry runs its own transform on the settings under its own name; convert is the identity |
| Pipeline.DefaultOrder | src/audio-processor.js:36-46 | with every default enabled, `process` is normalize, then trim, then fade, each on the previous output, stopping at the first error |
| Pipeline.ConvertOnlyIsIdentity | src/audio-processor.js:133-139 | with only `convert` enabled, `process` returns any buffer unchanged |
| Pipeline.CustomRunsLast | src/audio-processor.js:26-46 | a new custom processor is registered fifth and runs on the output of the built-ins |
| Pipeline.AudioProcessor.constructor | src/audio-processor.js:6-9 | a new processor holds exactly the four defaults, in order |
| Pipeline.AudioProcessor.RegisterDefaultProcessors | src/audio-processor.js:14-19 | the registry becomes the old one with the four defaults set in order |
| Pipeline.AudioProcessor.RegisterProcessor | src/audio-processor.js:26-28 | the registry becomes `Map.set` of the old one, with every key still held once |
| Pipeline.AudioProcessor.Process | src/audio-processor.js:36-46 | the loop computes `Run` over the current registry |
| Pipeline.Invoke | src/audio-processor.js:41 | calling a registered processor runs the built-in method or the custom function |
| DeviceDiscovery.Classify | src/audio-capture.js:27-42 | only stereo mix is recommended and exactly it has priority 1; priorities lie in 0..3, and 0 is given exactly when no family matches |
| DeviceDiscovery.WithCapabilities | src/audio-capture.js:84-88 | the `forEach` fill-in gives every device all three lists and keeps its name, id, priority and recommendation |
| DeviceDiscovery.Discovered | src/audio-capture.js:17-88 | one device per extracted name, or two when none was found |
| DeviceDiscovery.DiscoveredShape | src/audio-capture.js:21-88 | each name gives a device of that name and id, classified by it; the fallbacks are `stereo_mix` and `default`, both default; every device has non-empty capability lists |
| DeviceDiscovery.GetDevices | src/audio-capture.js:17-88 | the push loop, fallback and fill-in compute `Discovered` |
| DeviceDiscovery.Contains | src/audio-capture.js:32-41 | `includes`: the empty string is in every name, and a match is never longer than the name |
| DeviceDiscovery.ContainsAt | src/audio-capture.js:32-41 | an occurrence of the tag at any position makes `includes` true |
| DeviceDiscovery.ContainsWitness | src/audio-capture.js:32-41 | when `includes` is true, the tag occurs at some position |
| DeviceDiscovery.ClassifyStereoMix | src/audio-capture.js:32-35 | a name with "立体声混音" or "Stereo Mix" anywhere in it is stereo mix, recommended, priority 1 |
| DeviceDiscovery.ClassifyMicrophone | src/audio-capture.js:36-38 | a name with "麦克风" or "Microphone" anywhere in it, and naming no stereo mix, is a microphone of priority 2 |
| DeviceDiscovery.ClassifyDefault | src/audio-capture.js:39-41 | a name with "default" or "Default" anywhere in it, and naming neither stereo mix nor a microphone, is the default input of priority 3 |
| DeviceDiscovery.ClassifyUnmatched | src/audio-capture.js:27-31 | a name matching no family keeps the initial values: microphone, not recommended, priority 0 |
| DeviceDiscovery.Describe | src/audio-capture.js:44-55 | the pushed device has the name as its name and id, is recommended and typed stereo mix exactly when its name names stereo mix, and has a priority in 0..3 |
| DeviceDiscovery.Fallback | src/audio-capture.js:63-80 | with no device found, two devices are supplied, `stereo_mix` then `default`, both default, neither with a priority or recommendation |
| DeviceDiscovery.SortByPriority | src/audio-capture.js:225 | the sorted array is as long as the input |
| DeviceDiscovery.SortByPriorityPermutation | src/audio-capture.js:225 | the sort is a permutation of its input |
| DeviceDiscovery.SortByPriorityOrdered | src/audio-capture.js:225 | the sort is ascending by priority |
| DeviceDiscovery.SortByPriorityStable | src/audio-capture.js:225 | the devices of each priority keep their input order |
| DeviceDiscovery.SortByPriorityMembers | src/audio-capture.js:225 | the sort holds exactly the devices of its input |
| DeviceDiscovery.SortByPriorityCorrect | src/audio-capture.js:225 | the sort orders by priority, is a permutation, and keeps equal priorities in their input order |
| DeviceDiscovery.SortInPlace | src/audio-capture.js:225 | sorting the caller's array in place leaves it as the stable sort of its old contents |
| DeviceDiscovery.Recommendation | src/audio-capture.js:219-233 | the result for a non-null list is absent exactly when the list is empty |
| DeviceDiscovery.FirstRecommended | src/audio-capture.js:228 | `find` returns the index of the first recommended device, or nothing when none is |
| DeviceDiscovery.RecommendationCorrect | src/audio-capture.js:219-233 | the result is an element of the input, absent only for an empty list; it is a recommended device of least priority if any device is recommended, else a device of least priority |
| DeviceDiscovery.GetRecommendedDevice | src/audio-capture.js:219-234 | null for a null or empty list; otherwise the recommendation, with the array left sorted |
| DeviceDiscovery.RecommendationPrefersRecommended | src/audio-capture.js:225-230 | [{priority 2}, {priority 1, recommended}] gives the priority-1 device |
| DeviceDiscovery.RecommendationOverridesPriority | src/audio-capture.js:228-230 | a recommended device wins over an unrecommended one of lower priority number |
| DeviceDiscovery.RecommendationFallsBackToPriority | src/audio-capture.js:228-233 | with nothing recommended, the lowest priority number wins |
| DeviceDiscovery.UncategorizedBeforeMicrophone | src/audio-capture.js:30 | a device that matched no family (priority 0) is chosen ahead of a microphone |
| Capture.Concat | src/audio-capture.js:182 | `Buffer.concat` of no chunks is empty, and of one chunk is that chunk |
| Capture.ConcatLength | src/audio-capture.js:179-189 | the concatenation is as long as the chunks together, and empty exactly when every chunk is |
| Capture.ConcatAt | src/audio-capture.js:182 | chunk i appears intact, in arrival order, after the chunks before it |
| Capture.CalculateDuration | src/audio-capture.js:211-216 | the duration is (len − 44)/176400 seconds after the header, and 0 exactly when len ≤ 44 |
| Capture.DurationOfEncoded | src/audio-capture.js:211-216 | for a buffer the codec wrote, the reported duration is half the real one (stereo assumed, mono written) |
| Capture.AudioCapture.constructor | src/audio-capture.js:6-11 | a new capture is idle, with no process, no stream and no chunks |
| Capture.AudioCapture.Start | src/audio-capture.js:95-123 | throws "already running" and changes nothing while capturing; otherwise marks capturing, empties the chunks and starts the process |
| Capture.AudioCapture.OnChunk | src/audio-capture.js:125-133 | appends the chunk and, when the output path is truthy (present and non-empty), writes it to the stream, opening it first; otherwise the stream is untouched |
| Capture.AudioCapture.Stop | src/audio-capture.js:157-173 | does nothing when idle; otherwise clears the flag, process and stream and keeps the chunks |
| Capture.AudioCapture.GetCapturedData | src/audio-capture.js:179-183 | the concatenation of all chunks, as long as they are together |
| Capture.AudioCapture.SaveToFile | src/audio-capture.js:185-189 | rejects with "No audio data captured" exactly when every chunk is empty |
| Capture.AudioCapture.GetAudioInfo | src/audio-capture.js:202-209 | size and duration of the captured data, format "WAV" |
| Capture.Session | src/audio-capture.js:95-183 | chunks arriving between `start` and `stop` are what `getCapturedData` returns, and a second `start` is refused |
| Capture.SessionWithEmptyPath | src/audio-capture.js:105-133 | with the empty string as output path, a chunk is captured but no stream is opened |
| AudioDeviceModel.Includes | src/audio-device.js:30 | `includes` is list membership |
| AudioDeviceModel.AudioDevice.constructor | src/audio-device.js:6-14 | a new device is not default and has the standard lists; `type` defaults to "audio" |
| AudioDeviceModel.AudioDevice.SetDefault | src/audio-device.js:20-22 | sets `isDefault` and changes no other field |
| AudioDeviceModel.AudioDevice.SupportsSampleRate | src/audio-device.js:29-31 | true exactly when the rate is in the list |
| AudioDeviceModel.AudioDevice.SupportsChannels | src/audio-device.js:38-40 | true exactly when the channel count is in the list |
| AudioDeviceModel.AudioDevice.SupportsBitDepth | src/audio-device.js:47-49 | true exactly when the bit depth is in the list |
| AudioDeviceModel.AudioDevice.GetInfo | src/audio-device.js:55-65 | each reported field equals the current one |
| AudioDeviceModel.AudioDevice.ToString | src/audio-device.js:71-73 | the name, then " (", then the id and ")" |
| AudioDeviceModel.NewDeviceCapabilities | src/audio-device.js:11-13 | a new device supports 48000 Hz, two channels and 24 bits, and not 22050 Hz, six channels or 32 bits |
| AudioDeviceModel.SetDefaultInfo | src/audio-device.js:20-22 | setting the default changes only the flag `getInfo` reports |
| Versioning.Number | scripts/version.js:18 | `Number` of a part is never undefined, is finite exactly for a string of digits, and is 0 for the empty string |
| Versioning.Split | scripts/version.js:18 | `split('.')` always yields at least one part |
| Versioning.SplitDotFree | scripts/version.js:18 | a string without a dot splits into itself alone |
| Versioning.SplitJoin | scripts/version.js:18 | a dot-free prefix followed by a dot splits off as the first part |
| Versioning.Part | scripts/version.js:17-18 | `versionParts[i]` is undefined exactly past the last part, so never for the major part |
| Versioning.NewVersion | scripts/version.js:21-32 | a major bump ends in ".0.0" and a minor bump in ".0", whatever the version text |
| Versioning.NumberOfNatToString | scripts/version.js:18 | `Number` of a printed natural number gives it back |
| Versioning.Bump | scripts/version.js:21-32 | major gives (M+1).0.0, minor M.(m+1).0, patch and every other type M.m.(p+1) |
| Versioning.BumpIncreases | scripts/version.js:21-32 | every bump moves the version strictly forward |
| Versioning.PartsOfFormat | scripts/version.js:17-18 | the parts of a well-formed `M.m.p` read back as M, m and p |
| Versioning.NewVersionOfFormat | scripts/version.js:17-32 | on a well-formed version the new text is the text of the bumped triple |
| Versioning.PatchOfShortVersion | scripts/version.js:18-30 | on "1", a patch bump gives "1.undefined.NaN" and a major bump "2.0.0" |
| Versioning.UpdatedPackage | scripts/version.js:17-34 | a TypeError exactly when `version` is missing or not a string; otherwise only `version` changes, to the new text |
| Versioning.Package.constructor | scripts/version.js:15 | the parsed object holds the given properties |
| Versioning.Package.UpdateVersion | scripts/version.js:17-34 | assigns the bumped `version` in place, or throws before any change |
| Versioning.TypeArgument | scripts/version.js:69 | the type is never empty: a missing or empty argument means "patch", and any other argument is kept |
| Versioning.RunScriptAsWritten | scripts/version.js:69-94 | as written: help exactly for the help flags, rejection exactly for a non-help type `VERSION_TYPES[type]` does not find (own or inherited), and a write only for a found type and a readable package |
| Versioning.RunScript | scripts/version.js:69-94 | corrected: help exactly for the help flags, rejection exactly for a non-help type other than patch, minor or major, and a write only for one of those three and a readable package |
| Versioning.InheritedNameAccepted | scripts/version.js:76-80 | as written, "toString" passes validation and bumps the patch; the corrected validation rejects it |
| Versioning.RunScriptOutcomes | scripts/version.js:69-94 | no argument means patch; help exits 0; a type other than patch, minor or major exits 1; a failed read exits 1 |
| Versioning.RunScriptBumps | scripts/version.js:82-83 | a valid type on a well-formed version writes the bumped version and exits 0 |

## Left out

- `Math.pow` in the normalize gain: the target amplitude is a setting, defaulting to the decimal value of 10^(−3/20).
- `Math.sqrt` and `Math.log10` in `analyze`: the model reports the mean square instead of `rms`, and omits `dynamicRange`.
- Floating point: samples are exact reals; the `real` value of a sample equals the double the code computes only up to rounding of the gain and fade factors.
- Transforms.TrimSelects, Transforms.FadeRegions: the index products `start * N`, `end * N`, `fadeIn * N` and `fadeOut * N` are exact reals before `Math.floor`, whereas the code floors a double product. On 100 samples with start 0.29, the code computes 28.999999999999996 and starts at sample 28, while the model starts at 29 (0.57 likewise gives 56 and 57). The sums of `analyze` are exact in the model too.
- The ffmpeg subprocess: `exec` of the device listing, the regular expression over its output and `spawn` of the capture. `DeviceDiscovery.GetDevices` takes the extracted device names, and `Capture.AudioCapture.OnChunk` stands for a `data` event.
- The ffmpeg arguments built from `device`, `sampleRate` and `channels`, and the `onData` callback.
- Timers, file streams, `fs.writeFile`, and the Promise wrappers of `start`, `stop`, `saveToFile` and `getDevices`.
- Capture.AudioCapture.Start: the spawn `error` path, which rejects while leaving `isCapturing` set, is not modelled.
- Capture.AudioCapture.Start: `start(null)` rejects with a TypeError when it destructures null (a default parameter applies only to `undefined`); `StartOptions` cannot express null.
- Capture.AudioCapture.Start: `start({sampleRate: null})` and `start({channels: null})` reject with a TypeError at `toString()` (src/audio-capture.js:116-117). This happens after `isCapturing` is set and the chunks are emptied, but before `spawn`, so the capture stays running with no process and refuses every later `start`. `StartOptions` carries no sample rate or channel count, so the model's `Start` always starts a process when idle and keeps `hasProcess == isCapturing`.
- Capture.AudioCapture.GetCapturedData: the `Buffer.isBuffer` filter is the identity, since only Buffers are appended.
- DeviceDiscovery.GetRecommendedDevice: requires that either every priority is a number or none is. A mix makes the comparator return NaN for some pairs, and the resulting order is left to the engine.
- DeviceDiscovery.SortInPlace: models the effect of `Array.prototype.sort` (a stable ascending sort) with an insertion sort, not the engine's algorithm.
- Pipeline.AudioProcessor.Process: an option's value matters only for being truthy; the transforms read the numeric settings of a truthy object, and non-object truthy values are not modelled.
- Pipeline.AudioProcessor.Process: `process(data, null)` throws a TypeError at the first `options[name]`; `Options` cannot express null.
- Pipeline.Invoke: a custom processor is a total function whose `None` result stands for a throw; processors with side effects are not modelled. A processor run under an inherited name receives the inherited function (or `Object.prototype` for `__proto__`); the model passes it settings without any field, which is what the built-in transforms read from such a value, and custom processors see the same settings.
- Pipeline.Run: an own falsy option that shadows an inherited name (`{toString: 0}`) cannot be expressed, since `Options` holds only truthy own options; the model treats every inherited name as truthy.
- AudioDeviceModel.AudioDevice.GetInfo: returns copies of the capability lists, whereas the code returns the device's own arrays, so pushing onto `getInfo().supportedSampleRates` changes what `supportsSampleRate` answers; this aliasing is not modelled.
- Wav.Encode: `Buffer.alloc` also throws a RangeError above the platform's `buffer.constants.MAX_LENGTH`; that platform limit is not modelled, so the model succeeds on some sizes the code rejects.
- Transforms.NotANumber: NaN samples are stored as 0.0, which the encoder treats identically; decoding never yields NaN.
- Versioning.Number: modelled for digit strings only. Whitespace, signs, decimal points, exponents, "Infinity" and the "0x", "0b" and "0o" prefixes, all of which the code parses to numbers, are NaN in the model, and integers beyond 2^53 are exact.
- The reading and writing of package.json and the console output of scripts/version.js; a read or parse failure is the `None` package.
- src/index.js (a delegating wrapper), examples/aliyun-asr-demo.js (a cloud speech client) and setup.js (shell commands) are not part of this model.

## Findings

| source | as written | input that shows it | evidently intended | confidence | as-written member | corrected member |
|---|---|---|---|---|---|---|
| scripts/version.js:76 | `VERSION_TYPES[type]` also finds the properties every object inherits, so "toString", "constructor", "valueOf", "__proto__" and the rest pass validation and bump the patch | `node scripts/version.js toString` on version 1.2.3 writes 1.2.4 (`Versioning.InheritedNameAccepted`) | only patch, minor and major are accepted; any other type exits 1 without writing (`Versioning.RunScriptOutcomes`) | not executed | Versioning.RunScriptAsWritten | Versioning.RunScript |
