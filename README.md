# recordmic sample accumulator, modelled in Dafny

recordmic records microphone input in the browser. The audio graph delivers one left and
one right block of `bufferSize` samples per processing tick. The recorder keeps copies of
these blocks in two per-channel lists, `leftData` and `rightData`, and counts the samples in
`recordingLength`. The getters flatten the lists into a fresh `Float32Array`: one channel
concatenated (`getMonoData`), or both channels interleaved, or one channel doubled
(`getStereoData`). The `mono` setting decides which lists exist. A `null` list means the
channel is not recorded. An empty list means it is recorded but holds nothing yet.

The project has six modules:

- `Wrappers` (wrappers.dfy) holds `Option`.
- `Settings` (settings.dfy) models the loosely typed JavaScript values the recorder takes
  (`JsValue`), their truthiness, and loose equality with `'left'` and `'right'`. It also
  holds the defaults the constructor fills in.
- `Samples` (samples.dfy) defines the reference layouts: `Flatten` (concatenation in append
  order), `Interleave`, `Duplicate`, and `Fit`. `Fit` is what a zero-initialised
  Float32Array of a given length holds after a sequence is written into it from index 0;
  writes past its end are dropped. The module also proves the index lemmas for these
  layouts.
- `Readout` (readout.dfy) gives channel selection, its three errors, and what each
  getter delivers. These are written as functions of the two lists, the counter and the
  block size. The module also holds the lemmas about their content.
- `Recordmic` (recorder.dfy) holds the class `Recorder`. Its fields stand for the
  object's `leftData`, `rightData` and `recordingLength`, and for its own copy of the
  settings `s.mono`, `s.volume` and `s.bufferSize`. In the source, `s` is the caller's
  settings object itself; the model holds an unshared copy (see Left out). One more field, `ticking`, says whether `recorder.onaudioprocess` is
  bound. The getters fill a fresh array in the same nested loops as the source, advancing
  a `writePos` cursor, and are proved equal to the `Readout` functions.
- `Scenarios` (scenarios.dfy) holds short client runs, proved from the class contracts
  alone. The runs reuse one buffer per channel, as the audio graph does. A stored block is
  the buffer's value at its tick (`left[..]`), so later fills leave it unchanged.

Samples are only copied, never computed on. So `Sample` is `int`, and `0` stands for the
`+0.0` a new Float32Array holds. Incoming blocks are arrays. A stored block is the array's
value at the time of the tick (`left[..]`), which is the `new Float32Array(left)` copy.

The object invariant `Valid()` says three things:
- every stored block has `bufferSize` samples;
- in stereo both lists hold the same number of blocks;
- the counter covers the stored samples.

`Consistent()` says the counter equals the samples each present list holds. It holds
after `clear`, `start` and `destroy`, and every tick preserves it. So after `start` and N
delivered ticks, each present list has N blocks and `recordingLength == N * bufferSize`.
`setMono` alone keeps the counter, so it can break `Consistent()`. The getters then
return trailing zeros.

The model follows the code as written, including where it differs from what the recorder is
documented or designed to do:
- `setMono` does not reset `recordingLength` (index.js:108-127).
- Any truthy `mono` other than `'left'` selects the right channel. That includes
  `'LEFT'` or any other string.
- `destroy` does not release the capture stream, and `start` works again after it
  (index.js:355-362).
- In the duplicating branch, `getStereoData` allocates only `recordingLength` slots. See
  Findings.
- An empty but present list is read without an error. The result is `recordingLength`
  zeros, or `2 * recordingLength` zeros from the interleaving branch of `getStereoData`,
  because the output array is sized from the counter (index.js:192, 254, 266). Right after
  `clear`/`start` that is an empty array.

Before the first `clear`/`start`, `recordingLength` is `undefined` in the source.
`new Float32Array(undefined)` and `new Float32Array(undefined * 2)` both have length 0, so
the model starts the counter at 0.

## Model

| member | source | states |
|---|---|---|
| Settings.Truthy | index.js:212-220 | JavaScript truthiness, as tested by `s.x \|\| d` (index.js:40-42), `else if( mono )` (116), `leftData \|\| rightData` and `!data` (214-216), `!mono && leftData && rightData` (252) and `if( this.leftData )` (405, 412). Over undefined/null, booleans, integers and strings, the falsy values are exactly `undefined`/`null`, `false`, `0` and `""`. |
| Settings.Is | index.js:194-203 | loose `mono == 'left'` / `mono == 'right'`, as at index.js:112, 194, 203, 268 and 277. Over undefined/null, booleans, integers and strings, only the string itself is loosely equal to the word, and such a value is truthy. |
| Settings.WithDefaults | index.js:39-42 | `volume`, `bufferSize` and `mono` are replaced by 1, 2048 and `false` exactly when they are falsy, and kept otherwise. The default `mono` selects the same channel layout as the value it replaces. |
| Settings.DefaultsIdempotent | index.js:39-42 | passing an already filled-in settings object through the defaults again changes nothing |
| Samples.Fit | index.js:192 | a fresh Float32Array of length `n` holds the written samples up to its length and zeros after them |
| Samples.FlattenAt | index.js:222-228 | the concatenation of blocks of `b` samples has `|blocks| * b` samples, and sample `j` of block `i` sits at offset `i * b + j` |
| Samples.InterleaveAt | index.js:256-263 | interleaving two equal-length channels gives twice their length, with `out[2k] == l[k]` and `out[2k+1] == r[k]` |
| Samples.DuplicateAt | index.js:296-303 | doubling a channel gives twice its length, with `out[2k] == out[2k+1] == x[k]` |
| Readout.Message | index.js:199-219 | the texts thrown at index.js:201, 210 and 218: all three begin with "There is nothing recorded", and only the no-data error is exactly that |
| Readout.Select | index.js:194-220 | `'left'` with no left list throws the left error, and `'right'` with no right list throws the right error. Any other selector takes the left list, falls back to the right one, and throws "There is nothing recorded" iff both are absent. Each error is stated in both directions, and the picked list is stated for every case. |
| Readout.MonoData | index.js:188-231 | `getMonoData` throws exactly when selection throws, with the same error, and otherwise returns `recordingLength` samples |
| Readout.StereoData | index.js:248-307 | with a falsy selector and both lists present, `getStereoData` never throws and returns `2 * recordingLength` samples. Otherwise it throws exactly as selection does and returns `recordingLength` samples. |
| Readout.IntendedStereoData | index.js:264-266 | the corrected getter: every result has `2 * recordingLength` samples, and the errors and the stereo branch agree with the getter as written |
| Readout.MonoDataAt | index.js:222-228 | slot `m` of `getMonoData` holds sample `m % b` of selected block `m / b` while there is data, and zero after it |
| Readout.MonoDataKeepsAll | index.js:192 | when the counter covers the stored samples, the whole concatenation is the prefix of the result, and no sample is dropped |
| Readout.MonoDataExact | index.js:192 | with a consistent counter, `getMonoData` is exactly the concatenation, without padding |
| Readout.StereoInterleavedAt | index.js:252-263 | in stereo, `out[2k]` is sample `k` of the left concatenation and `out[2k+1]` is sample `k` of the right one |
| Readout.StereoInterleavedTail | index.js:252-263 | in stereo, every slot from twice the left channel's sample count up to `2 * recordingLength` is zero, which happens after `setMono` keeps a counter and more ticks follow |
| Readout.StereoInterleavedExact | index.js:252-263 | in stereo with a consistent counter, both channels are `recordingLength` long and the result is exactly their interleaving |
| Readout.StereoDuplicatedAt | index.js:264-304 | outside the stereo branch, slot `m` holds sample `m / 2` of the selected concatenation while there is data, and zero after it |
| Readout.StereoDuplicatedTruncated | index.js:266 | outside the stereo branch with a consistent counter, the result is the first `recordingLength` samples of the doubled channel, which itself is `2 * recordingLength` long |
| Readout.DuplicationCounterexample | index.js:266 | mono-left, one block `[1, 2]`: the getter as written returns `[1, 1]`, the corrected one `[1, 1, 2, 2]` |
| Readout.IntendedStereoDuplicates | index.js:264-304 | with a consistent counter, the corrected getter returns every sample of the selected channel twice, in order |
| Readout.FallbackPicksLeft | index.js:212-220 | when the left list exists, a missing selector, or any selector other than `'left'`/`'right'`, reads the same data as `'left'` |
| Readout.EmptyRecordingReadsEmpty | index.js:192 | with a zero counter, whenever selection succeeds (any selector whose list is present), both getters return an empty array rather than throwing |
| Recordmic.Pushed | index.js:405-417 | a tick adds the copied block at the end of a present list, keeps the earlier blocks, and leaves an absent list absent |
| Recordmic.Recorder.constructor | index.js:39-44 | the stored settings are the defaulted ones. Then, as at index.js:383, `setMono(s.mono)` allocates the lists, the counter is 0, and no tick handler is bound. |
| Recordmic.Recorder.SetRecordVolume | index.js:80-87 | the stored volume becomes the argument, and nothing else changes |
| Recordmic.Recorder.GetRecordVolume | index.js:94-97 | returns the stored volume |
| Recordmic.Recorder.SetMono | index.js:108-127 | stores `mono`. `'left'` gives a left list `[]` and no right list. Any other truthy value gives a right list `[]` and no left list. A falsy value gives both lists `[]`. The counter and the tick state are not touched. |
| Recordmic.Recorder.GetMono | index.js:138-141 | returns the stored `mono` |
| Recordmic.Recorder.Clear | index.js:343-349 | the counter is 0, and the lists are reallocated empty for the unchanged stored `mono`, which makes the counter consistent |
| Recordmic.Recorder.Start | index.js:318-324 | the same fresh state as `clear`, with ticks delivered from now on |
| Recordmic.Recorder.Stop | index.js:331-336 | ticks are no longer delivered, and the recorded data stays |
| Recordmic.Recorder.Destroy | index.js:355-362 | ticks stop, the counter is 0 and both lists are absent |
| Recordmic.Recorder.OnAudioData | index.js:404-419 | each present list gets a copy of its channel's block appended, and an absent list stays absent. The counter grows by `bufferSize` exactly once, even with no list present. The invariant and a consistent counter are preserved. |
| Recordmic.Recorder.Tick | index.js:318-336 | while the handler is bound a tick does what `onAudioData` does; after `stop` it changes nothing |
| Recordmic.Recorder.GetMonoData | index.js:188-231 | throws exactly the error `MonoData` gives. Otherwise it returns a fresh array whose content is `MonoData`'s. It changes no field, so repeated calls return equal data. |
| Recordmic.Recorder.GetStereoData | index.js:248-307 | throws exactly the error `StereoData` gives. Otherwise it returns a fresh array whose content is `StereoData`'s, as written. It changes no field. |
| Recordmic.Recorder.SelectData | index.js:194-220 | the if-chain of the getters picks exactly the list `Select` picks, or raises its error |
| Recordmic.Concatenated | index.js:222-228 | the nested `writePos` loop leaves `Fit(Flatten(data), n)` in the fresh array |
| Recordmic.Interleaved | index.js:256-263 | the stereo loop leaves the interleaved concatenations, fitted to the array length |
| Recordmic.Duplicated | index.js:296-303 | the mono loop leaves the doubled concatenation, fitted to the array length, with writes past the end dropped |
| Scenarios.StereoExample | index.js:252-263 | left blocks `[[1,2],[3,4]]` and right blocks `[[5,6],[7,8]]` with a counter of 4 give `[1,5,2,6,3,7,4,8]` |
| Scenarios.StereoInterleaveRun | index.js:318-420 | start, then two ticks through reused buffers, then `getStereoData()` returns `[1,5,2,6,3,7,4,8]` |
| Scenarios.MonoDuplicationRun | index.js:264-304 | in mono-left mode, one tick, `stop`, then a tick that is ignored: `getStereoData()` returns `[1,1]`, and `getMonoData('right')` throws the right-channel error, whose message is the text at index.js:210 |
| Scenarios.ClearThenReadRun | index.js:343-349 | after a recording and `clear()`, two calls to `getMonoData()` both return an empty array |

## Left out

- Platform capture and graph wiring are left out. This covers `getUserMedia`,
  `AudioContext`, `isAvailable`, the permission callback and the node set-up in
  `onGetUserMedia`. They are browser I/O. The constructor models the successful path
  only.
- The constructor requires a positive defaulted `bufferSize`. The platform's
  `createScriptProcessor` accepts only 0 and the powers of two from 256 to 16384, so no
  recorder exists with a negative size. The model admits every positive size, a superset of
  what the platform allows; the client runs use a size of 2 to keep the data short.
- The settings object is assumed not to be written through the caller's reference
  after construction. In the source, `this.s` is the caller's `settings` object
  (index.js:39-44) and the defaults are written back into it. A later write such as
  `settings.bufferSize = 4096` would change what each tick adds to the counter and how far
  the getters read into each block. A write such as `settings.mono = 'left'` would change
  what `clear` allocates. The model takes the settings by value and keeps `bufferSize`
  constant, so neither that sharing nor the write-back is modelled.
- The gain-node write in `setRecordVolume` is left out: it is a value handed to the
  platform. Volume is stored as a `real`, because it is only stored and returned.
- The `onSampleData` callback is left out. It is foreign code, so a tick's input blocks
  stand for the buffers as that callback left them.
- The `window.recordmic_onaudioprocess` alias is left out. It is global platform state
  with no effect on the accumulator.
- `getChannelData` is left out. It calls `this.getData`, which the file does not define,
  so it throws whenever a list is present.
- Float32 precision is left out: samples are only copied.
- Recordmic.Recorder.constructor: starts the counter at 0, which is exact for the getters
  only. Before the first `clear`/`start` the source's counter is `undefined`, and the getters
  read it as length 0 (index.js:192, 254, 266). If the `onAudioData` handler were called by
  hand before the first `clear`/`start`, the source would compute `undefined + bufferSize`,
  which is NaN, and later reads would have length 0. The model counts `bufferSize` instead.
- The settings' `volume` and `bufferSize` are taken to be numbers, with `bufferSize` an
  integer. The source accepts any value there: a string `bufferSize` such as `"2048"` is
  truthy and kept (index.js:41), and `recordingLength += this.s.bufferSize` (index.js:419)
  would then join strings.
- `JsValue` covers `undefined`/`null`, booleans, integer numbers and strings. NaN,
  fractional numbers and objects are not modelled.
- The recorder's numbers are unbounded. JavaScript's 2^53 limit and Float32Array's
  maximum length are not modelled.
- `test/index.js` is not part of this model. It is a browser smoke test with no
  assertions.

## Findings

| source | as written | input that shows it | evidently intended | confidence | as-written member | corrected member |
|---|---|---|---|---|---|---|
| index.js:266 | the duplicating branch of `getStereoData` allocates `recordingLength` slots, then writes every sample twice, so writes past the midpoint are dropped and only the first half of the recording is returned | mono `'left'`, `bufferSize` 2, one block `[1, 2]`: `getStereoData()` gives `[1, 1]` | `recordingLength * 2` slots, as in the stereo branch and the documented `[left1, left1, left2, left2, ...]`, giving `[1, 1, 2, 2]` | not executed | Readout.DuplicationCounterexample | Readout.IntendedStereoDuplicates |

`Recorder.GetStereoData` keeps the code's behaviour, so that the class stays faithful to
index.js. The corrected definition `Readout.IntendedStereoData` is what the
properties of the intended design are proved about.
