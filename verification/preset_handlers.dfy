/** The preset commands of main.py: `apply_preset`, `validate_preset_data`
    and `save_preset_handler`, which turns the current command line into a
    preset record. */
module PresetHandlers {
  import opened Wrappers
  import opened Values
  import opened Strings
  import opened Argv
  import opened Commands
  import opened Presets

  // ----------------------------------------------------------------- apply

  /** What applying a preset leads to: an unknown name, a record that names
      neither a format nor a resize, or the builder's own result (which is
      `None` when that builder reports an error). */
  datatype Applied = NoSuchPreset | Unrecognised | Ran(command: Option<seq<string>>)

  /** The conversion options a preset record carries. */
  function PresetOptions(preset: Record): ConvertOptions {
    ConvertOptions(Get(preset, "format"), Get(preset, "vcodec"), Get(preset, "acodec"),
                   Get(preset, "vbitrate"), Get(preset, "abitrate"), Get(preset, "quality"))
  }

  /** `apply_preset` on the record found, as written: a format converts; a
      `resize_percentage` resizes with the default algorithm; anything else
      is not recognised. */
  function ApplyRecord(preset: Record, input: string, output: string): Applied {
    if Truthy(Get(preset, "format")) then Ran(ConvertArgs(input, output, PresetOptions(preset), NoWindow))
    else if "resize_percentage" in preset then
      Ran(ResizeVideo(input, output, preset["resize_percentage"], Null, Null, Str("lanczos")))
    else Unrecognised
  }

  /** `apply_preset`. */
  function ApplyPreset(presets: Dict, name: string, input: string, output: string): Applied {
    if name !in presets.entries then NoSuchPreset else ApplyRecord(presets.entries[name], input, output)
  }

  /** How `apply_preset` dispatches: an unknown name is an error; a set
      format wins and converts (even when the record also resizes), with no
      time window, and runs only when the format is supported and the
      record's options are strings; otherwise a `resize_percentage` resizes by it with the
      lanczos algorithm; otherwise the preset is not recognised. */
  lemma ApplyPresetDispatch(presets: Dict, name: string, input: string, output: string)
    ensures name !in presets.entries <==> ApplyPreset(presets, name, input, output) == NoSuchPreset
    ensures name in presets.entries ==>
      var preset := presets.entries[name];
      var r := ApplyPreset(presets, name, input, output);
      && (Truthy(Get(preset, "format")) ==>
            r == Ran(ConvertArgs(input, output, PresetOptions(preset), NoWindow))
            && (r.command.Some? <==> Supported(preset["format"]) && RawText(PresetOptions(preset)))
            && (r.command.Some? ==>
                  Parse(r.command.value) == Some(Invocation([Input(input)] + FormatFlags(PresetOptions(preset)).value, output))))
      && (!Truthy(Get(preset, "format")) && "resize_percentage" in preset ==>
            r.Ran? && (r.command.Some? <==> Truthy(preset["resize_percentage"]))
            && (r.command.Some? ==>
                  Arg(r.command.value, "-vf") == Some(ScaleFilter(preset["resize_percentage"], Null, Null, Str("lanczos")))))
      && (!Truthy(Get(preset, "format")) && "resize_percentage" !in preset ==> r == Unrecognised)
  {
    if name in presets.entries {
      var preset := presets.entries[name];
      if Truthy(Get(preset, "format")) {
        ConvertLayout(input, output, PresetOptions(preset), NoWindow);
        assert TimeRange(NoWindow) == [];
        assert [Input(input)] + TimeRange(NoWindow) == [Input(input)];
      } else if "resize_percentage" in preset {
        var p := preset["resize_percentage"];
        if Truthy(p) {
          var filter := ScaleFilter(p, Null, Null, Str("lanczos"));
          LookupLiteral(Input(input), Flag("-vf", filter), Input(input), Input(input), "-vf");
          LookupOne(Flag("-vf", filter), "-vf");
        }
      }
    }
  }

  /** A saved size of -1 means "keep the aspect ratio", i.e. not given. */
  function SavedSize(v: Value): Value {
    if v == Num("-1") then Null else v
  }

  /** `apply_preset` reading every resize a preset can hold: the percentage,
      or the width and height that `save_preset_handler` writes, each with
      the preset's own algorithm (lanczos when it has none). */
  function ApplyRecordCorrected(preset: Record, input: string, output: string): Applied {
    var algorithm := if "algorithm" in preset then preset["algorithm"] else Str("lanczos");
    if Truthy(Get(preset, "format")) then Ran(ConvertArgs(input, output, PresetOptions(preset), NoWindow))
    else if "resize_percentage" in preset then
      Ran(ResizeVideo(input, output, preset["resize_percentage"], Null, Null, algorithm))
    else if "width" in preset then
      Ran(ResizeVideo(input, output, Null, preset["width"], SavedSize(Get(preset, "height")), algorithm))
    else Unrecognised
  }

  function ApplyPresetCorrected(presets: Dict, name: string, input: string, output: string): Applied {
    if name !in presets.entries then NoSuchPreset else ApplyRecordCorrected(presets.entries[name], input, output)
  }

  /** A preset edited by hand to hold the number 23 as its quality (JSON
      `"quality": 23`) runs no ffmpeg when applied: the number reaches the
      command as it is, and joining the command raises. The same preset with
      the string "23" runs. */
  lemma NumericQualityNotRun(presets: Dict, name: string, input: string, output: string)
    requires name in presets.entries
    requires presets.entries[name] == map["format" := Str("mp4"), "vcodec" := Str("libx264"), "quality" := Num("23")]
    ensures ApplyPreset(presets, name, input, output) == Ran(None)
    ensures ApplyRecord(map["format" := Str("mp4"), "vcodec" := Str("libx264"), "quality" := Str("23")], input, output)
            .command.Some?
  {
  }

  /** A record that `apply_preset` runs: a conversion with a supported format
      and string options, or a resize by a set percentage. */
  predicate Runs(preset: Record) {
    if Truthy(Get(preset, "format")) then Supported(preset["format"]) && RawText(PresetOptions(preset))
    else "resize_percentage" in preset && Truthy(preset["resize_percentage"])
  }

  lemma RunsApplied(preset: Record, input: string, output: string)
    requires Runs(preset)
    ensures ApplyRecord(preset, input, output).Ran? && ApplyRecord(preset, input, output).command.Some?
  {
  }

  lemma BuiltinRuns(name: string)
    requires name in DefaultPresets.entries
    ensures Runs(DefaultPresets.entries[name])
  {
    if name == "compress_web" || name == "hq_h264_mp4" || name == "mobile_friendly_mp4" {
      BuiltinMp4Runs(name);
    } else if name == "audio_only_mp3" || name == "gif_optimized" {
      BuiltinAudioGifRuns(name);
    } else {
      BuiltinOtherRuns(name);
    }
  }

  lemma BuiltinMp4Runs(name: string)
    requires name == "compress_web" || name == "hq_h264_mp4" || name == "mobile_friendly_mp4"
    ensures name in DefaultPresets.entries && Runs(DefaultPresets.entries[name])
  {
    Mp4RecordRuns(DefaultPresets.entries[name]);
  }

  lemma Mp4RecordRuns(r: Record)
    requires Get(r, "format") == Str("mp4")
    requires Get(r, "vcodec").Str? && Get(r, "acodec").Str? && Get(r, "quality").Str?
    requires Get(r, "vbitrate") == Null && Get(r, "abitrate").Str?
    ensures Runs(r)
  {
  }

  lemma BuiltinAudioGifRuns(name: string)
    requires name == "audio_only_mp3" || name == "gif_optimized"
    ensures name in DefaultPresets.entries && Runs(DefaultPresets.entries[name])
  {
  }

  lemma BuiltinOtherRuns(name: string)
    requires name in DefaultPresets.entries
    requires name != "compress_web" && name != "hq_h264_mp4" && name != "mobile_friendly_mp4"
    requires name != "audio_only_mp3" && name != "gif_optimized"
    ensures Runs(DefaultPresets.entries[name])
  {
  }

  /** Every built-in preset applies: the conversions have supported formats
      and string options, and the one resize has a percentage. */
  lemma BuiltinPresetsRun(name: string, input: string, output: string)
    requires name in DefaultPresets.entries
    ensures ApplyPreset(DefaultPresets, name, input, output).Ran?
    ensures ApplyPreset(DefaultPresets, name, input, output).command.Some?
  {
    BuiltinRuns(name);
    RunsApplied(DefaultPresets.entries[name], input, output);
  }

  // -------------------------------------------------------------- validate

  const Algorithms: seq<string> :=
    ["neighbor", "fast_bilinear", "bilinear", "bicubic", "experimental", "area", "bicubiclina", "gauss", "sinc",
     "lanczos", "spline"]

  predicate KnownAlgorithm(v: Value) {
    v.Str? && v.s in Algorithms
  }

  /** `validate_preset_data`. */
  function ValidatePresetData(data: Record, command: string): (ok: bool)
    ensures ok ==> Truthy(Get(data, "description"))
    ensures command == "resize" ==>
      (ok <==> Truthy(Get(data, "description")) && ("resize_percentage" in data || "width" in data)
               && ("algorithm" in data ==> KnownAlgorithm(data["algorithm"])))
    ensures command == "convert" ==>
      (ok <==> Truthy(Get(data, "description")) && Truthy(Get(data, "format"))
               && ("vcodec" in data ==> Truthy(data["vcodec"])))
    ensures command != "resize" && command != "convert" ==> (ok <==> Truthy(Get(data, "description")))
  {
    if !Truthy(Get(data, "description")) then false
    else if command == "resize" then
      if !("resize_percentage" in data || "width" in data) then false
      else if "algorithm" in data && !KnownAlgorithm(data["algorithm"]) then false
      else true
    else if command == "convert" then
      if !Truthy(Get(data, "format")) then false
      else if "vcodec" in data && !Truthy(data["vcodec"]) then false
      else true
    else true
  }

  // ------------------------------------------------------------------- save

  /** The parser's answer for the current command line: the namespace, or
      the exit code argparse raised (2 for a usage error). */
  datatype ParseResult = Parsed(ns: Record) | Exited(code: int)

  /** How `save_preset_handler` ends: no command line; a usage error; another
      exit of the parser, which propagates; an exception it catches (a
      namespace without an attribute it reads); no description; a record
      that fails validation; or the record handed to `save_preset_command`. */
  datatype SaveOutcome = NoCommand | UsageError | Exits(code: int) | Failed | NoDescription | Invalid | Save(data: Record)

  /** The preset fields and description parts one command line gives. */
  datatype Extracted = Extracted(data: Record, parts: seq<string>)

  /** `m[key] = v` when `v` is truthy. */
  function WhenTruthy(m: Record, key: string, v: Value): Record {
    if Truthy(v) then m[key := v] else m
  }

  function PartWhen(caption: string, v: Value): seq<string> {
    if Truthy(v) then [caption + Text(v)] else []
  }

  /** `height or -1`: the height, or -1 for "keep the aspect ratio". */
  function AutoHeight(h: Value): Value {
    if Truthy(h) then h else Num("-1")
  }

  /** The resize branch; `percent(p)` is the text of `p*100`. */
  function ResizeExtract(ns: Record, percent: Value -> string): Option<Extracted> {
    if "percentage" !in ns || "algorithm" !in ns then None
    else
      var algorithm := ns["algorithm"];
      var algo := "Algorithm: " + Text(algorithm);
      if ns["percentage"] != Null then
        var p := ns["percentage"];
        Some(Extracted(map["resize_percentage" := p, "algorithm" := algorithm], ["Resize by " + percent(p) + "%", algo]))
      else if "width" !in ns then None
      else if ns["width"] == Null then Some(Extracted(map["algorithm" := algorithm], [algo]))
      else if "height" !in ns then None
      else
        var w, h := ns["width"], ns["height"];
        Some(Extracted(map["width" := w, "height" := AutoHeight(h), "algorithm" := algorithm],
                       ["Resize to " + Text(w) + "x" + (if Truthy(h) then Text(h) else "auto"), algo]))
  }

  function ConvertExtract(ns: Record): Option<Extracted> {
    if !("format" in ns && "vcodec" in ns && "acodec" in ns && "vbitrate" in ns && "abitrate" in ns && "quality" in ns)
    then None
    else
      var data := WhenTruthy(WhenTruthy(WhenTruthy(WhenTruthy(WhenTruthy(map["format" := ns["format"]],
                    "vcodec", ns["vcodec"]), "acodec", ns["acodec"]), "vbitrate", ns["vbitrate"]),
                    "abitrate", ns["abitrate"]), "quality", ns["quality"]);
      var parts := ["Convert to " + Text(ns["format"])] + PartWhen("Video Codec: ", ns["vcodec"])
                   + PartWhen("Audio Codec: ", ns["acodec"]) + PartWhen("Video Bitrate: ", ns["vbitrate"])
                   + PartWhen("Audio Bitrate: ", ns["abitrate"]) + PartWhen("Quality: ", ns["quality"]);
      Some(Extracted(data, parts))
  }

  /** Steps 4 of the handler: the fields and description parts of each command. */
  function Extract(command: string, ns: Record, percent: Value -> string): Option<Extracted> {
    if command == "resize" then ResizeExtract(ns, percent)
    else if command == "convert" then ConvertExtract(ns)
    else if command == "extract_audio" then
      if "aformat" !in ns then None
      else Some(Extracted(map["aformat" := ns["aformat"]], ["Extract Audio (Format: " + Text(ns["aformat"]) + ")"]))
    else if command == "extract_frames" then
      if "rate" !in ns || "iformat" !in ns then None
      else Some(Extracted(map["rate" := ns["rate"], "iformat" := ns["iformat"]],
                          ["Extract Frames (Rate: " + Text(ns["rate"]) + ", Format: " + Text(ns["iformat"]) + ")"]))
    else if command == "crop" then
      if !("width" in ns && "height" in ns && "x" in ns && "y" in ns) then None
      else Some(Extracted(map["width" := ns["width"], "height" := ns["height"], "x" := ns["x"], "y" := ns["y"]],
                          ["Crop to " + Text(ns["width"]) + "x" + Text(ns["height"]) + " at " + Text(ns["x"]) + ","
                           + Text(ns["y"])]))
    else if command == "rotate" then
      if "rotation" !in ns then None
      else Some(Extracted(map["rotation" := ns["rotation"]], ["Rotate " + Text(ns["rotation"]) + " degrees"]))
    else if command == "concatenate" then Some(Extracted(map["description" := Str("Concatenate Videos")], []))
    else if command == "subtitles" then Some(Extracted(map["description" := Str("Add Subtitles (burn-in)")], []))
    else Some(Extracted(map[], ["Preset for " + command + " (basic)"]))
  }

  /** `", ".join(parts) or name`. */
  function DescriptionOf(parts: seq<string>, name: string): string {
    var joined := Join(parts, ", ");
    if joined != "" then joined else name
  }

  /** Steps 4 to 6 once the command's fields are known: the description,
      then validation. */
  function Finish(name: string, command: string, e: Extracted): SaveOutcome {
    var description := DescriptionOf(e.parts, name);
    var data := e.data["description" := Str(description)];
    if description == "" then NoDescription
    else if ValidatePresetData(data, command) then Save(data)
    else Invalid
  }

  /** `save_preset_handler` for preset `name`, the command line `argv`
      (without the program name) and the parser's answer for it. */
  function SaveHandlerSpec(name: string, argv: seq<string>, parsed: ParseResult, percent: Value -> string): SaveOutcome {
    if |argv| == 0 then NoCommand
    else match parsed
      case Exited(code) => if code == 2 then UsageError else Exits(code)
      case Parsed(ns) =>
        match Extract(argv[0], ns, percent)
        case None => Failed
        case Some(e) => Finish(name, argv[0], e)
  }

  /** When the command gives description parts, they are the description. */
  lemma FinishWithParts(name: string, command: string, e: Extracted)
    requires |e.parts| > 0 && e.parts[0] != ""
    ensures var data := e.data["description" := Str(Join(e.parts, ", "))];
      Finish(name, command, e) == if ValidatePresetData(data, command) then Save(data) else Invalid
  {
    JoinNonEmpty(e.parts, ", ");
  }

  /** The resize branch of the handler, filling the record and the
      description parts one step at a time. */
  method ResizeFields(ns: Record, percent: Value -> string) returns (r: Option<Extracted>)
    ensures r == ResizeExtract(ns, percent)
  {
    var data: Record := map[];
    var parts: seq<string> := [];
    if "percentage" !in ns {
      return None;
    }
    if ns["percentage"] != Null {
      data := data["resize_percentage" := ns["percentage"]];
      parts := parts + ["Resize by " + percent(ns["percentage"]) + "%"];
    } else {
      if "width" !in ns {
        return None;
      }
      if ns["width"] != Null {
        if "height" !in ns {
          return None;
        }
        data := data["width" := ns["width"]];
        data := data["height" := AutoHeight(ns["height"])];
        parts := parts + ["Resize to " + Text(ns["width"]) + "x"
                          + (if Truthy(ns["height"]) then Text(ns["height"]) else "auto")];
      }
    }
    if "algorithm" !in ns {
      return None;
    }
    data := data["algorithm" := ns["algorithm"]];
    parts := parts + ["Algorithm: " + Text(ns["algorithm"])];
    r := Some(Extracted(data, parts));
    if ns["percentage"] != Null {
      assert parts == ["Resize by " + percent(ns["percentage"]) + "%", "Algorithm: " + Text(ns["algorithm"])];
    } else if ns["width"] != Null {
      var size := "Resize to " + Text(ns["width"]) + "x" + (if Truthy(ns["height"]) then Text(ns["height"]) else "auto");
      assert parts == [size, "Algorithm: " + Text(ns["algorithm"])];
    } else {
      assert parts == ["Algorithm: " + Text(ns["algorithm"])];
    }
  }

  /** One `if command_args.<key>:` of the convert branch. */
  method KeepIfSet(data: Record, parts: seq<string>, ns: Record, key: string, caption: string)
    returns (data': Record, parts': seq<string>)
    requires key in ns
    ensures data' == WhenTruthy(data, key, ns[key])
    ensures parts' == parts + PartWhen(caption, ns[key])
  {
    data', parts' := data, parts;
    if Truthy(ns[key]) {
      data' := data'[key := ns[key]];
      parts' := parts' + [caption + Text(ns[key])];
    }
  }

  /** The convert branch of the handler: the format, then each option that is set. */
  method ConvertFields(ns: Record) returns (r: Option<Extracted>)
    ensures r == ConvertExtract(ns)
  {
    if !("format" in ns && "vcodec" in ns && "acodec" in ns && "vbitrate" in ns && "abitrate" in ns && "quality" in ns) {
      return None;
    }
    var data: Record := map["format" := ns["format"]];
    var parts: seq<string> := ["Convert to " + Text(ns["format"])];
    data, parts := KeepIfSet(data, parts, ns, "vcodec", "Video Codec: ");
    data, parts := KeepIfSet(data, parts, ns, "acodec", "Audio Codec: ");
    data, parts := KeepIfSet(data, parts, ns, "vbitrate", "Video Bitrate: ");
    data, parts := KeepIfSet(data, parts, ns, "abitrate", "Audio Bitrate: ");
    data, parts := KeepIfSet(data, parts, ns, "quality", "Quality: ");
    r := Some(Extracted(data, parts));
  }

  /** `save_preset_handler`, step by step: the command line, the re-parse,
      the fields of the command, the description, validation. */
  method SavePresetHandler(name: string, argv: seq<string>, parsed: ParseResult, percent: Value -> string)
    returns (outcome: SaveOutcome)
    ensures outcome == SaveHandlerSpec(name, argv, parsed, percent)
  {
    if |argv| == 0 {
      return NoCommand;
    }
    var command := argv[0];
    if parsed.Exited? {
      if parsed.code == 2 {
        return UsageError;
      }
      return Exits(parsed.code);
    }
    var ns := parsed.ns;
    var fields: Option<Extracted>;
    if command == "resize" {
      fields := ResizeFields(ns, percent);
    } else if command == "convert" {
      fields := ConvertFields(ns);
    } else {
      fields := Extract(command, ns, percent);
    }
    if fields.None? {
      return Failed;
    }
    var data := fields.value.data;
    var description := Join(fields.value.parts, ", ");
    if description == "" {
      description := name;
    }
    data := data["description" := Str(description)];
    if !Truthy(Get(data, "description")) {
      return NoDescription;
    }
    var valid := ValidatePresetData(data, command);
    if valid {
      outcome := Save(data);
    } else {
      outcome := Invalid;
    }
  }

  // ------------------------------------------------------------- properties

  lemma JoinNonEmpty(parts: seq<string>, sep: string)
    requires |parts| > 0 && parts[0] != ""
    ensures Join(parts, sep) != ""
  {
    if |parts| > 1 {
      assert Join(parts, sep) == parts[0] + sep + Join(parts[1..], sep);
      assert |Join(parts, sep)| >= |parts[0]|;
    }
  }

  /** The saved description is the description parts joined with ", ",
      or the preset name when the command gives no parts. */
  lemma SavedDescription(name: string, argv: seq<string>, parsed: ParseResult, percent: Value -> string)
    requires SaveHandlerSpec(name, argv, parsed, percent).Save?
    ensures var e := Extract(argv[0], parsed.ns, percent).value;
      SaveHandlerSpec(name, argv, parsed, percent).data["description"]
      == Str(if |e.parts| > 0 then Join(e.parts, ", ") else name)
  {
    var e := Extract(argv[0], parsed.ns, percent).value;
    if |e.parts| > 0 {
      assert e.parts[0] != "" by {
        assert |e.parts[0]| > 0;
      }
      JoinNonEmpty(e.parts, ", ");
    }
  }

  /** A concatenate or subtitles preset gets the preset name as its
      description: the fixed description the branch stores is overwritten. */
  lemma FixedDescriptionOverwritten(name: string, argv: seq<string>, ns: Record, percent: Value -> string)
    requires |argv| > 0 && (argv[0] == "concatenate" || argv[0] == "subtitles") && name != ""
    ensures SaveHandlerSpec(name, argv, Parsed(ns), percent) == Save(map["description" := Str(name)])
  {
    var e := Extract(argv[0], ns, percent).value;
    assert e.parts == [];
    assert e.data["description" := Str(name)] == map["description" := Str(name)];
  }

  /** The fields and description parts a resize command line gives. */
  lemma ResizeExtracted(ns: Record, percent: Value -> string)
    requires "percentage" in ns && "width" in ns && "height" in ns && "algorithm" in ns
    ensures var e := ResizeExtract(ns, percent);
      var algorithm := ns["algorithm"];
      && e.Some? && |e.value.parts| > 0 && e.value.parts[0] != ""
      && (ns["percentage"] != Null ==> e.value.data == map["resize_percentage" := ns["percentage"], "algorithm" := algorithm])
      && (ns["percentage"] == Null && ns["width"] != Null ==>
            && e.value.data == map["width" := ns["width"], "height" := AutoHeight(ns["height"]), "algorithm" := algorithm]
            && e.value.parts == ["Resize to " + Text(ns["width"]) + "x" + (if Truthy(ns["height"]) then Text(ns["height"]) else "auto"),
                                 "Algorithm: " + Text(algorithm)])
      && (ns["percentage"] == Null && ns["width"] == Null ==> e.value.data == map["algorithm" := algorithm])
  {
    assert |ResizeExtract(ns, percent).value.parts[0]| > 0;
  }

  /** A resize given by width alone is saved with height -1 ("auto"). */
  lemma WidthOnlySavesAutoHeight(name: string, argv: seq<string>, ns: Record, percent: Value -> string)
    requires |argv| > 0 && argv[0] == "resize"
    requires "percentage" in ns && "width" in ns && "height" in ns && "algorithm" in ns
    requires ns["percentage"] == Null && ns["width"] != Null && !Truthy(ns["height"]) && KnownAlgorithm(ns["algorithm"])
    ensures var o := SaveHandlerSpec(name, argv, Parsed(ns), percent);
      && o.Save? && o.data["width"] == ns["width"] && o.data["height"] == Num("-1")
      && o.data["description"] == Str(Join(["Resize to " + Text(ns["width"]) + "x" + "auto", "Algorithm: " + Text(ns["algorithm"])], ", "))
  {
    ResizeExtracted(ns, percent);
    FinishWithParts(name, "resize", ResizeExtract(ns, percent).value);
  }

  /** A resize given by height alone cannot be saved: the record has
      neither a percentage nor a width, and validation refuses it. */
  lemma HeightOnlyNotSaved(name: string, argv: seq<string>, ns: Record, percent: Value -> string)
    requires |argv| > 0 && argv[0] == "resize"
    requires "percentage" in ns && "width" in ns && "height" in ns && "algorithm" in ns
    requires ns["percentage"] == Null && ns["width"] == Null
    ensures SaveHandlerSpec(name, argv, Parsed(ns), percent) == Invalid
  {
    ResizeExtracted(ns, percent);
    FinishWithParts(name, "resize", ResizeExtract(ns, percent).value);
  }

  /** `data` holds `ns[key]` exactly when that is set. */
  predicate KeptField(data: Record, ns: Record, key: string)
    requires key in ns
  {
    (key in data <==> Truthy(ns[key])) && (key in data ==> data[key] == ns[key])
  }

  predicate ConvertLine(ns: Record) {
    "format" in ns && "vcodec" in ns && "acodec" in ns && "vbitrate" in ns && "abitrate" in ns && "quality" in ns
  }

  /** A convert preset is saved exactly when the format is set; it keeps
      the format and each set option, and no unset one. */
  lemma ConvertSaved(name: string, argv: seq<string>, ns: Record, percent: Value -> string)
    requires |argv| > 0 && argv[0] == "convert" && ConvertLine(ns)
    ensures var o := SaveHandlerSpec(name, argv, Parsed(ns), percent);
      && (o.Save? <==> Truthy(ns["format"]))
      && (o.Save? ==>
            && o.data["format"] == ns["format"]
            && KeptField(o.data, ns, "vcodec") && KeptField(o.data, ns, "acodec") && KeptField(o.data, ns, "vbitrate")
            && KeptField(o.data, ns, "abitrate") && KeptField(o.data, ns, "quality"))
  {
    ConvertExtracted(ns);
    var e := ConvertExtract(ns).value;
    FinishWithParts(name, "convert", e);
    var data := e.data["description" := Str(Join(e.parts, ", "))];
    assert Get(data, "format") == ns["format"];
    assert "vcodec" in data ==> Truthy(data["vcodec"]);
  }

  /** The fields the convert branch stores: the format, and each option
      that is set. */
  lemma ConvertExtracted(ns: Record)
    requires ConvertLine(ns)
    ensures var e := ConvertExtract(ns).value;
      && |e.parts| > 0 && e.parts[0] != ""
      && "format" in e.data && e.data["format"] == ns["format"] && "description" !in e.data
      && KeptField(e.data, ns, "vcodec") && KeptField(e.data, ns, "acodec") && KeptField(e.data, ns, "vbitrate")
      && KeptField(e.data, ns, "abitrate") && KeptField(e.data, ns, "quality")
  {
    var e := ConvertExtract(ns).value;
    assert |e.parts[0]| > 0;
  }

  // ------------------------------------------------------- save then apply

  /** The resize options a command line asks for. */
  predicate ResizeLine(ns: Record) {
    && "percentage" in ns && "width" in ns && "height" in ns && "algorithm" in ns
    // argparse's required group of -p, -W and -H: exactly one is given
    && (if ns["percentage"] != Null then ns["width"] == Null && ns["height"] == Null
        else (ns["width"] == Null) != (ns["height"] == Null))
    && KnownAlgorithm(ns["algorithm"])
  }

  /** A resize preset saved from a command line with a percentage or a
      width is a record that the corrected `apply_preset` turns back into
      exactly the command that command line runs. */
  lemma SaveApplyResize(name: string, argv: seq<string>, ns: Record, percent: Value -> string,
                        input: string, output: string)
    requires |argv| > 0 && argv[0] == "resize" && ResizeLine(ns)
    requires ns["percentage"] != Null || ns["width"] != Null
    ensures var o := SaveHandlerSpec(name, argv, Parsed(ns), percent);
      && o.Save?
      && ApplyRecordCorrected(o.data, input, output)
         == Ran(ResizeVideo(input, output, ns["percentage"], ns["width"], ns["height"], ns["algorithm"]))
  {
    ResizeExtracted(ns, percent);
    FinishWithParts(name, "resize", ResizeExtract(ns, percent).value);
  }

  /** The whole cycle: `save_preset` on a resize command line with a
      percentage or a width, confirmed by the store, then the corrected
      `apply_preset` in a later run, gives that command line's command. */
  lemma SaveLoadApplyResize(name: string, argv: seq<string>, ns: Record, percent: Value -> string,
                            defaults: Dict, file: PresetFile, answer: string, later: Dict,
                            input: string, output: string)
    requires |argv| > 0 && argv[0] == "resize" && ResizeLine(ns)
    requires ns["percentage"] != Null || ns["width"] != Null
    requires defaults.Valid() && FileValid(file) && later.Valid()
    requires var o := SaveHandlerSpec(name, argv, Parsed(ns), percent);
      o.Save? ==> SaveSpec(defaults, file, name, o.data, answer).ok
    ensures var o := SaveHandlerSpec(name, argv, Parsed(ns), percent);
      var stored := SaveSpec(defaults, file, name, o.data, answer).file;
      ApplyPresetCorrected(Loaded(later, stored), name, input, output)
      == Ran(ResizeVideo(input, output, ns["percentage"], ns["width"], ns["height"], ns["algorithm"]))
  {
    SaveApplyResize(name, argv, ns, percent, input, output);
    var o := SaveHandlerSpec(name, argv, Parsed(ns), percent);
    SavedThenLoaded(defaults, file, name, o.data, answer, later);
  }

  /** As written, a preset saved from `resize --width` is not recognised by
      `apply_preset`. */
  lemma WidthPresetUnrecognised(name: string, argv: seq<string>, ns: Record, percent: Value -> string,
                                input: string, output: string)
    requires |argv| > 0 && argv[0] == "resize" && ResizeLine(ns) && ns["width"] != Null
    ensures var o := SaveHandlerSpec(name, argv, Parsed(ns), percent);
      o.Save? && ApplyRecord(o.data, input, output) == Unrecognised
  {
    ResizeExtracted(ns, percent);
    FinishWithParts(name, "resize", ResizeExtract(ns, percent).value);
  }

  /** As written, a preset saved from `resize --percentage` is applied by
      that percentage with the lanczos algorithm. */
  lemma PercentagePresetApplied(name: string, argv: seq<string>, ns: Record, percent: Value -> string,
                                input: string, output: string)
    requires |argv| > 0 && argv[0] == "resize" && ResizeLine(ns) && Truthy(ns["percentage"])
    ensures var o := SaveHandlerSpec(name, argv, Parsed(ns), percent);
      && o.Save?
      && ApplyRecord(o.data, input, output) == Ran(ResizeVideo(input, output, ns["percentage"], Null, Null, Str("lanczos")))
  {
    ResizeExtracted(ns, percent);
    FinishWithParts(name, "resize", ResizeExtract(ns, percent).value);
  }

  /** Two resizes by the same percentage with different algorithms give
      different commands. */
  lemma AlgorithmChangesCommand(input: string, output: string, p: Value, w: Value, h: Value, algorithm: Value)
    requires Truthy(p) && algorithm.Str? && algorithm != Str("lanczos")
    ensures ResizeVideo(input, output, p, Null, Null, Str("lanczos")) != ResizeVideo(input, output, p, w, h, algorithm)
  {
    var head := "scale" + "=" + ("iw*" + Text(p)) + ":" + ("ih*" + Text(p)) + ":" + "flags=";
    var mine := ScaleFilter(p, Null, Null, Str("lanczos")).value;
    var theirs := ScaleFilter(p, w, h, algorithm).value;
    assert mine == head + "lanczos";
    assert theirs == head + algorithm.s;
    assert mine[|head|..] == "lanczos";
    assert theirs[|head|..] == algorithm.s;
    assert ResizeVideo(input, output, p, Null, Null, Str("lanczos")).value[4] == mine;
    assert ResizeVideo(input, output, p, w, h, algorithm).value[4] == theirs;
  }

  /** As written, a preset saved from `resize --percentage` with another
      algorithm than lanczos is applied with lanczos: the command differs
      from the one the command line gave. */
  lemma SavedAlgorithmIgnored(name: string, argv: seq<string>, ns: Record, percent: Value -> string,
                              input: string, output: string)
    requires |argv| > 0 && argv[0] == "resize" && ResizeLine(ns)
    requires Truthy(ns["percentage"]) && ns["algorithm"] != Str("lanczos")
    ensures var o := SaveHandlerSpec(name, argv, Parsed(ns), percent);
      && o.Save? && ApplyRecord(o.data, input, output).Ran?
      && ApplyRecord(o.data, input, output).command
         != ResizeVideo(input, output, ns["percentage"], ns["width"], ns["height"], ns["algorithm"])
  {
    PercentagePresetApplied(name, argv, ns, percent, input, output);
    AlgorithmChangesCommand(input, output, ns["percentage"], ns["width"], ns["height"], ns["algorithm"]);
  }

  /** An option that is not set, kept as `None`. */
  function Kept(v: Value): Value {
    if Truthy(v) then v else Null
  }

  lemma KeptText(v: Value, default: string, name: string)
    ensures OrText(Kept(v), default) == OrText(v, default)
    ensures WhenSet(name, Kept(v)) == WhenSet(name, v)
    ensures Truthy(Kept(v)) == Truthy(v) && (Truthy(v) ==> Kept(v) == v)
    ensures StrWhenSet(Kept(v)) == StrWhenSet(v)
  {
  }

  function KeptOptions(o: ConvertOptions): ConvertOptions {
    ConvertOptions(o.format, Kept(o.vcodec), Kept(o.acodec), Kept(o.vbitrate), Kept(o.abitrate), Kept(o.quality))
  }

  lemma Mp4Kept(o: ConvertOptions)
    requires o.format == Str("mp4")
    ensures FormatFlags(KeptOptions(o)) == FormatFlags(o)
  {
    KeptText(o.vcodec, "", "-c:v");
    KeptText(o.acodec, "", "-c:a");
    KeptText(o.vbitrate, "", "-b:v");
    KeptText(o.abitrate, "", "-b:a");
    KeptText(o.quality, "", "");
    assert CrfCodec(Kept(o.vcodec)) == CrfCodec(o.vcodec);
  }

  lemma WebmKept(o: ConvertOptions)
    requires o.format == Str("webm")
    ensures FormatFlags(KeptOptions(o)) == FormatFlags(o)
  {
    KeptText(o.vcodec, "libvpx-vp9", "");
    KeptText(o.quality, "30", "");
    KeptText(o.vbitrate, "0", "");
    KeptText(o.abitrate, "128k", "");
  }

  lemma AviKept(o: ConvertOptions)
    requires o.format == Str("avi")
    ensures FormatFlags(KeptOptions(o)) == FormatFlags(o)
  {
    KeptText(o.vcodec, "libxvid", "");
    KeptText(o.quality, "5", "");
    KeptText(o.acodec, "libmp3lame", "");
  }

  lemma FormatFlagsKept(o: ConvertOptions)
    ensures FormatFlags(KeptOptions(o)) == FormatFlags(o)
    ensures RawText(KeptOptions(o)) == RawText(o)
  {
    if o.format == Str("mp4") {
      Mp4Kept(o);
    } else if o.format == Str("webm") {
      WebmKept(o);
    } else if o.format == Str("avi") {
      AviKept(o);
    } else if o.format == Str("mp3") {
      KeptText(o.abitrate, "128k", "");
    }
  }

  /** Only whether each option is set, and its value when it is, matters
      to the conversion. */
  lemma ConvertArgsKept(input: string, output: string, f: Value, vc: Value, ac: Value, vb: Value, ab: Value, q: Value,
                        w: TimeWindow)
    ensures ConvertArgs(input, output, ConvertOptions(f, Kept(vc), Kept(ac), Kept(vb), Kept(ab), Kept(q)), w)
            == ConvertArgs(input, output, ConvertOptions(f, vc, ac, vb, ab, q), w)
  {
    var o1 := ConvertOptions(f, Kept(vc), Kept(ac), Kept(vb), Kept(ab), Kept(q));
    var o2 := ConvertOptions(f, vc, ac, vb, ab, q);
    assert o1 == KeptOptions(o2);
    FormatFlagsKept(o2);
    if Supported(f) {
      assert ConvertFlags(input, o1, w) == ConvertFlags(input, o2, w);
    }
  }

  /** A saved convert preset, applied as written, runs the conversion its
      command line asked for, over the whole input: the time window is not
      part of a preset. */
  lemma SaveApplyConvert(name: string, argv: seq<string>, ns: Record, percent: Value -> string,
                         input: string, output: string)
    requires |argv| > 0 && argv[0] == "convert" && ConvertLine(ns)
    requires Truthy(ns["format"])
    ensures var o := SaveHandlerSpec(name, argv, Parsed(ns), percent);
      && o.Save?
      && ApplyRecord(o.data, input, output)
         == Ran(ConvertArgs(input, output, ConvertOptions(ns["format"], ns["vcodec"], ns["acodec"], ns["vbitrate"],
                                                          ns["abitrate"], ns["quality"]), NoWindow))
  {
    ConvertSaved(name, argv, ns, percent);
    var o := SaveHandlerSpec(name, argv, Parsed(ns), percent);
    assert PresetOptions(o.data)
           == ConvertOptions(ns["format"], Kept(ns["vcodec"]), Kept(ns["acodec"]), Kept(ns["vbitrate"]),
                             Kept(ns["abitrate"]), Kept(ns["quality"]));
    ConvertArgsKept(input, output, ns["format"], ns["vcodec"], ns["acodec"], ns["vbitrate"], ns["abitrate"],
                    ns["quality"], NoWindow);
  }
}
