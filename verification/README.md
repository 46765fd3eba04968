# vidtools, modelled in Dafny

vidtools is a command-line front end to ffmpeg. Its own logic turns options into
ffmpeg argument vectors, keeps a store of named presets, and converts batches of
files. This project models that logic and proves what it does:

- **Argument-vector builders of `main.py`** (modules `Commands`, `Concat`, `Rotate`):
  - `resize_video`, `convert_format`, `extract_audio`, `extract_frames`,
    `crop_video`, `rotate_video`, and the list file of `concatenate_videos`.
  - A builder returns `Some(argv)` where the source calls `run_ffmpeg_command(argv)`.
    It returns `None` where the source prints an error and returns.
  - `Argv` reads an argument vector back the way ffmpeg does. It reads options with
    their arguments, then the output file. The builders' contracts say which options
    ffmpeg is given (`Arg(argv, "-crf")`, ...), not only which strings are emitted.
  - `Rotate` gives each `transpose=<dir>` filter its meaning, a symmetry of the
    picture, so that a rotation command can be checked to turn the picture.
- **Preset commands of `main.py`** (module `PresetHandlers`):
  - `apply_preset`, `validate_preset_data`, and `save_preset_handler` (the
    definition at main.py:279, which replaces the earlier one at main.py:105).
  - The handler fills the preset record and the description parts step by step
    (`SavePresetHandler`, `ResizeFields`, `ConvertFields`). These methods are proved
    equal to the function `SaveHandlerSpec`. Lemmas then state what a saved preset
    holds, and what applying it later runs.
- **Preset store of `presets.py`** (module `Presets`):
  - `load_presets` merges the saved file over `DEFAULT_PRESETS`. A Python dict is
    an ordered `Dict` (keys in insertion order plus a map).
  - `PresetStore` is a class holding the `DEFAULT_PRESETS` object (`PresetDict`,
    updated in place) and the presets file. `LoadPresets` returns that very object
    when no file can be read, as the source does. A later save or delete then edits
    the defaults themselves.
  - Save, delete, the existence check of edit, and the listing are methods on the
    store. Each is proved against a function on values (`SaveSpec`, `DeleteSpec`,
    `Listing`).
- **`batch_convert`** (module `BatchConvert`):
  - The output path uses pathlib's rules for `name`, `stem`, `suffix`,
    `with_suffix` and `/` on POSIX paths.
  - The per-file loop issues one `vt convert <in> <out>` per matched file.

Python values are `Values.Value`: `Null` (None), `Str`, or `Num`. A `Num` carries
the text Python prints for the number. Truthiness follows Python: None, `""`, `0`
and `0.0` are false. `Text(v)` is `str(v)`. The tool applies `str()` to time values
and the frame rate, and f-strings apply it inside filters. The convert options, by
contrast, go into the command as they are. `run_ffmpeg_command` joins the command with
`" ".join` (utils.py:49), which raises on a number. So a conversion whose option value
is a number (possible in a preset read from JSON) runs nothing (`Commands.RawText`).

## Model

| member | source | states |
|---|---|---|
| Commands.ScaleFilter | main.py:139-149 | There is a scale filter, and so a command, exactly when a percentage, a width or a height is set. |
| Commands.ScaleFilterMeaning | main.py:139-146 | When no value holds a colon, ffmpeg reads the filter's arguments back as follows. A set percentage wins over width and height and scales both sides by it (`iw*p`, `ih*p`). Otherwise: width and height give `w:h`, width alone `w:-1`, height alone `-1:h`. The algorithm is always the `flags` option. |
| Commands.ResizeVideo | main.py:137-152 | No command without a percentage, width or height. Otherwise the command reads back as `-i <input> -vf <scale filter>` writing `<output>`. |
| Commands.TimeWindowArgs | main.py:157-159 | The time tokens appended one step at a time are those of `TimeRange`. |
| Commands.TimeRangeMeaning | main.py:157-159 | The time flags come in the order `-ss`, `-to`, `-t`. Each is present exactly when its value is set, with that value as text. No other option comes from the time window. |
| Commands.ConvertFormat | main.py:154-181 | The command built step by step (time flags, then the format branch, then the output) equals `ConvertArgs`. An unsupported format gives no command, and so does an option value placed as it is that is not a string. |
| Commands.ConvertArgs | main.py:161-178 | A command runs exactly for gif, mp3, webm, avi and mp4, and only when every option value the branch places as it is, is a string or unset. A number there makes the join raise, and nothing runs. |
| Commands.ConvertLayout | main.py:156-180 | No command for an unsupported format or a non-string option value. Otherwise the command is `ffmpeg -i <input>`, the time flags, the format's flags, then `<output>`, and ffmpeg reads it back that way. |
| Commands.ConvertArgLookup | main.py:156-180 | When the conversion runs, the value ffmpeg takes for any option comes from the format's flags first, then the time window, then the input. |
| Commands.FormatTokens | main.py:161-168 | The gif, mp3, webm and avi branches emit exactly the source's tokens, with their defaults. |
| Commands.ConvertGif | main.py:161-162 | gif: the palette filter graph, and no option beyond the input and the time window. |
| Commands.ConvertMp3 | main.py:163-164 | mp3, when it runs: `-vn`, `-ab` (default `128k`), `-ar 44100`, and nothing else. |
| Commands.ConvertWebm | main.py:165-166 | webm, when it runs: codec `libvpx-vp9`, crf `30`, video bitrate `0` and audio bitrate `128k` unless given, and nothing else. |
| Commands.ConvertAvi | main.py:167-168 | avi, when it runs: codec `libxvid`, qscale `5` and audio codec `libmp3lame` unless given, and nothing else. |
| Commands.Mp4Args | main.py:169-175 | The mp4 branch built step by step equals the tokens of `FormatFlags`. |
| Commands.Mp4Lookup | main.py:169-175 | Each mp4 flag is present exactly when its option is set. `-crf` requires a quality and codec libx264 or libx265. |
| Commands.ConvertMp4 | main.py:169-175 | When it runs, the mp4 command sets `-c:v`, `-c:a`, `-b:v` and `-b:a` exactly when given, and `-crf` exactly for a quality with libx264 or libx265. It sets no other option. |
| Commands.WindowedMeaning | main.py:185-189 | A command of the form input, time window, own flags reads back as itself. An option takes its value from the command's own flags, then the time window, then the input. |
| Commands.ExtractAudio | main.py:183-190 | The command built step by step is `-i <input>`, the time flags, `-vn -acodec <format>`, `<output>`. |
| Commands.ExtractAudioMeaning | main.py:183-190 | An audio extraction drops the video, uses the given codec, and keeps exactly the set time flags. It asks for nothing else. |
| Commands.ExtractFrames | main.py:192-199 | The command built step by step is `-i <input>`, the time flags, `-r <rate> -f <format>`, `<pattern>`. |
| Commands.ExtractFramesMeaning | main.py:192-199 | A frame extraction samples at the given rate into the given format, and keeps exactly the set time flags. It asks for nothing else. |
| Commands.CropVideo | main.py:216-220 | The crop command is always emitted and reads back as `-i <input> -vf crop=...` writing `<output>`. |
| Commands.CropFilterMeaning | main.py:218 | The crop filter hands ffmpeg the width, height, x and y, in that order. |
| Concat.WriteConcatList | main.py:205-207 | The loop writes `ConcatList`: one `file '<path>'` line per input, in input order. |
| Concat.ConcatenateVideos | main.py:201-209 | The list file's content, and a command that reads back as `-f concat -safe 0 -i concat_list.txt -c copy <output>`. |
| Concat.ConcatListLines | main.py:206-207 | The list file is the entries, each followed by a newline. |
| Concat.ConcatListRoundTrip | main.py:206-207 | Read back line by line, the list names exactly the inputs, in order, when no path holds a newline or a quote. |
| Concat.QuoteInPath | main.py:207 | Paths are written unescaped between single quotes. A path holding a quote ends its entry early, so the list no longer names that input. |
| Rotate.RotateVideoAsWritten | main.py:244-257 | A command is emitted exactly for "90", "180" and "270". Its `-vf` value is the table's code wrapped in double quotes. |
| Rotate.AsWrittenRotatesNothing | main.py:246-256 | None of the three emitted filter graphs is a transpose ffmpeg can run. |
| Rotate.Code270Flips | main.py:249 | Even with `transpose=` in front, code 3 for 270 turns the picture and flips it. |
| Rotate.RotateVideo | main.py:244-257 | Corrected builder: exactly the three angles give a command ("-90" and anything else do not), and it reads back with the angle's transpose chain as `-vf`. |
| Rotate.TransposesTurn | main.py:246-250 | Each corrected chain turns the picture clockwise by the angle's degrees / 90 quarter turns, without flipping. |
| Rotate.RotateVideoTurns | main.py:246-256 | The corrected command's filter is that chain. |
| Presets.MergeMeaning | presets.py:76 | `{**a, **b}` keeps every name of either side. A name in `b` gets b's entry; any other keeps a's. a's names come first in a's order, then b's new names in b's order. |
| Presets.LoadedMeaning | presets.py:67-84 | The loaded presets hold every default name, and a saved entry wins over the default. A missing or corrupt file gives the defaults. |
| Presets.PresetStore.LoadPresets | presets.py:67-84 | A readable file gives a fresh merged dict. Otherwise the result is the `DEFAULT_PRESETS` object itself. |
| Presets.ConfirmAnswer | presets.py:108-109 | The lower-cased answer is "y" exactly for "y" and "Y". |
| Presets.SaveNew | presets.py:104-117 | Saving a new name succeeds, writes the file, and adds exactly that entry, last. Every other entry is unchanged. |
| Presets.SaveExisting | presets.py:107-113 | Saving over an existing name succeeds exactly for "y" or "Y", and then replaces that entry in place. Otherwise neither the file nor the defaults change. |
| Presets.SavedThenLoaded | presets.py:113-114 | After a save goes ahead, every later load finds the saved record under its name. |
| Presets.PresetStore.SavePresetCommand | presets.py:104-117 | The result, the file and the defaults object after the call are those of `SaveSpec`. The store stays well-formed (`Valid`), so the lemmas about `SaveSpec` and `DeleteSpec` apply to the next command too. |
| Presets.Without | presets.py:127 | Removing a name keeps every other name, and no name twice. |
| Presets.DeleteAbsent | presets.py:122-125 | Deleting a missing name fails and changes nothing. |
| Presets.DeletePresent | presets.py:127-131 | Deleting a present name removes only it, keeps the others' order and records, and writes the result. |
| Presets.PresetStore.DeletePreset | presets.py:119-131 | The result, the file and the defaults object after the call are those of `DeleteSpec`, and the store stays well-formed. |
| Presets.DeletedDefaultReturns | presets.py:76-84 | A deleted default preset comes back, with its default record, on a load from the unchanged defaults. That is a later run, or the same process when the delete found a readable file. |
| Presets.DeletedDefaultGoneInProcess | presets.py:76-84 | With no readable file, the delete removes the name from the defaults themselves. A later load in the same process no longer finds it. |
| Presets.DeletedBuiltinReturns | presets.py:10-65 | The same for the seven built-in presets. |
| Presets.CommandsEditDefaults | presets.py:79-84 | With no readable file, a save or a delete edits the defaults themselves. With a saved file, the defaults stay as they were. |
| Presets.PresetStore.EditPresetCommand | presets.py:133-139 | The editor is launched exactly when the name is present. The command succeeds exactly when it is launched and opens. |
| Presets.ListingMeaning | presets.py:164-170 | The listing is a header, then one line per preset in dict order. The line shows the description, or "No description provided." when the record has none. |
| Presets.PresetStore.ListPresets | presets.py:164-170 | The lines printed by the loop are the listing of the loaded presets. |
| PresetHandlers.ApplyPresetDispatch | main.py:259-277 | An unknown name is an error. A set format converts (even when the record also resizes), with no time window. The conversion runs exactly when the format is supported and the record's option values are strings. Otherwise `resize_percentage` resizes by it with lanczos. Otherwise the preset is not recognised. |
| PresetHandlers.ValidatePresetData | main.py:397-425 | The verdict for each command, both ways. A description is always needed. resize needs `resize_percentage` or `width` and a known algorithm if one is given. convert needs a format and a non-empty `vcodec` if one is given. |
| PresetHandlers.ResizeFields | main.py:310-319 | The resize branch, filled step by step, gives the record and parts of `ResizeExtract`. |
| PresetHandlers.KeepIfSet | main.py:325-327 | One `if command_args.<key>:` stores the option and its part exactly when the option is set. |
| PresetHandlers.ConvertFields | main.py:322-339 | The convert branch, filled step by step, gives the record and parts of `ConvertExtract`. |
| PresetHandlers.SavePresetHandler | main.py:279-394 | The handler's outcome: no command, usage error, a propagating exit, a caught exception, no description, invalid, or the record to save. It is the outcome of `SaveHandlerSpec`. |
| PresetHandlers.FinishWithParts | main.py:374-387 | With description parts, the description is their join, and the record is saved exactly when it validates. |
| PresetHandlers.SavedDescription | main.py:374 | A saved description is the parts joined with ", ", or the preset name when there are no parts. |
| PresetHandlers.FixedDescriptionOverwritten | main.py:362-374 | A concatenate or subtitles preset gets the preset name as its description. The fixed text the branch stores is overwritten. |
| PresetHandlers.ResizeExtracted | main.py:310-319 | The record and parts of each resize case: percentage, width (height -1 when unset), neither. |
| PresetHandlers.WidthOnlySavesAutoHeight | main.py:314-317 | A width-only resize is saved with height -1 and the description "Resize to <w>xauto, Algorithm: <a>". |
| PresetHandlers.HeightOnlyNotSaved | main.py:406-409 | A height-only resize stores neither percentage nor width, so validation refuses it. |
| PresetHandlers.ConvertExtracted | main.py:322-339 | The convert record holds the format and each option exactly when it is set. |
| PresetHandlers.ConvertSaved | main.py:322-339 | A convert preset is saved exactly when the format is set. It keeps the format and each set option, and no unset one. |
| PresetHandlers.SaveApplyConvert | main.py:269-273 | A saved convert preset, applied, runs the conversion its command line asked for, over the whole input. |
| PresetHandlers.ConvertArgsKept | main.py:269-273 | Leaving unset options out of a preset does not change the conversion. |
| PresetHandlers.NumericQualityNotRun | main.py:269-273 | A preset edited to hold the number 23 as its mp4 quality runs no ffmpeg when applied. The same preset with the string "23" runs. |
| PresetHandlers.BuiltinPresetsRun | presets.py:10-65 | Applying any built-in preset runs a command: the conversions have supported formats and string options, and the resize has a percentage. |
| PresetHandlers.WidthPresetUnrecognised | main.py:274-277 | As written, a preset saved from `resize --width` is not recognised by `apply_preset`. |
| PresetHandlers.PercentagePresetApplied | main.py:274-275 | As written, a saved percentage preset is applied by that percentage with lanczos. |
| PresetHandlers.AlgorithmChangesCommand | main.py:139-140 | Resizes by the same percentage with different algorithms are different commands. |
| PresetHandlers.SavedAlgorithmIgnored | main.py:275 | As written, a percentage preset saved with another algorithm than lanczos runs a different command than its command line. |
| PresetHandlers.SaveApplyResize | main.py:310-319 | Corrected apply: a resize preset saved from a percentage or width command line runs exactly that command line's resize. |
| PresetHandlers.SaveLoadApplyResize | main.py:259-277 | Corrected apply: save, then a later load, then apply gives that command line's resize. |
| BatchConvert.OutputPathDefined | batch_convert.py:34-38 | The output path cannot be derived (pathlib raises) exactly when there is no output directory (or an empty one) and the format is empty, holds `/`, or the input has no name. |
| BatchConvert.OutputPathInDir | batch_convert.py:34-36 | With an output directory, the output is named `<stem>.<format>` inside that directory. |
| BatchConvert.OutputPathBeside | batch_convert.py:37-38 | Without one, the output is `<stem>.<format>` in the input's own directory. |
| BatchConvert.OutputPathRenames | batch_convert.py:34-38 | Either way, the output keeps the input's stem and has `.<format>` as its suffix. |
| BatchConvert.RunBatch | batch_convert.py:22-52 | One `vt convert <in> <out>` per matched file, in match order, with each result recorded whatever the others ended with. Nothing for no match. The batch stops only at a file whose output path raises. |
| BatchConvert.BatchConvert | batch_convert.py:13-54 | The same, with each output path derived by `OutputPath`. |
| BatchConvert.NeverAborts | batch_convert.py:34-38 | With an output directory, or a plain format and named inputs, every output path is derived, so every file is converted. |

## Left out

- Running ffmpeg, ffprobe and `vt`. `run_ffmpeg_command` and `subprocess.run` are
  not part of this model. A builder's result is the command it would run. In the
  batch loop, what each run ends with is the parameter `run`.
- Printing and logging. Error messages are outcomes (`None`, `NoSuchPreset`,
  `Invalid`, ...), not text.
- JSON. The presets file is an abstract value: absent, corrupt, or a saved dict.
  Creating the presets folder is left out, and so are write failures in
  `save_presets` (the source logs them and carries on).
- The overwrite prompt. `input()` is the parameter `answer`.
- Unicode. `.lower()` is modelled for ASCII letters only.
- `get_video_info` and `add_subtitles` are not part of this model (ffprobe I/O and
  a file-existence probe).
- The editor-launching branch of `edit_preset_command`. Whether the editor opened
  is the parameter `editorOpened`.
- Writing and removing `concat_list.txt` on disk. main.py calls `os.path.exists`
  and `os.remove` without importing `os`. The cleanup in the `finally` is not
  modelled.
- Commands.ConvertArgs: `None` does not tell an unsupported format apart from a
  non-string option value. The first prints an error and the program carries on.
  The second is a TypeError that nothing catches. Neither runs ffmpeg.
- Concat.ConcatListRoundTrip: only covers paths without a newline. A path with a
  newline splits its entry across lines.
- The re-parse in `save_preset_handler`. argparse is not modelled. The parser's
  answer for the current command line is the parameter `parsed`: a namespace, or
  an exit code. The handler reads `cli.arg_parser` outside its `try`. The cli.py
  files shown define no such attribute, so as shipped this line would raise. The
  model takes the parser to be there.
- Numbers as text. `command_args.percentage*100` is given by the parameter
  `percent`. Frame rates and time values are opaque text.
- pathlib normalisation. Repeated separators, `.` components and trailing slashes
  are not collapsed. Paths are POSIX strings.
- `glob`. The matched files are the parameter `matched`, in glob's order.
- `os.makedirs(output_dir)` in the batch loop. Its failures are not modelled.
- PresetHandlers.SaveApplyConvert: a preset keeps no time window. The convert
  preset drops `--start`, `--end` and `--duration`, as the source does.

## Findings

| source | as written | input that shows it | evidently intended | confidence | as-written member | corrected member |
|---|---|---|---|---|---|---|
| main.py:255 | the `-vf` value is the table code in double quotes, with no `transpose=` | `rotate` with rotation "90" gives `-vf "1"` (quotes included) | `-vf transpose=1` | not executed | Rotate.AsWrittenRotatesNothing | Rotate.RotateVideoTurns |
| main.py:249 | 270 maps to transpose code 3 (clockwise, then flipped) | rotation "270": `transpose=3` mirrors the picture | a counter-clockwise quarter turn, `transpose=2` | not executed | Rotate.Code270Flips | Rotate.TransposesTurn |
| main.py:274-277 | `apply_preset` recognises only `resize_percentage` | `resize -W 640`, saved with `save_preset`, then `apply_preset` reports it not recognised | resize to the saved width (and height) | not executed | PresetHandlers.WidthPresetUnrecognised | PresetHandlers.SaveApplyResize |
| main.py:275 | `apply_preset` resizes without the saved algorithm | `resize -p 0.5 -a bicubic`, saved, then applied with `flags=lanczos` | the saved algorithm | not executed | PresetHandlers.SavedAlgorithmIgnored | PresetHandlers.SaveApplyResize |
