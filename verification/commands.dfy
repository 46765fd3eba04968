/** The ffmpeg argument-vector builders of main.py. Running the command is
    left to the caller: a builder returns `Some(argv)` where the source calls
    `run_ffmpeg_command(argv)` and `None` where it prints an error and returns. */
module Commands {
  import opened Wrappers
  import opened Values
  import opened Strings
  import opened Argv

  // ---------------------------------------------------------------- filters

  /** The arguments of a one-filter graph `name=a:b:c`, split at ':' the way
      ffmpeg separates a filter's options; `None` if it is not that filter. */
  function FilterArgs(filter: string, name: string): Option<seq<string>> {
    var head := name + "=";
    if StartsWith(filter, head) then Some(Split(filter[|head|..], ':')) else None
  }

  lemma FilterArgsOfJoin(name: string, args: seq<string>)
    requires |args| >= 1
    requires forall i :: 0 <= i < |args| ==> ':' !in args[i]
    ensures FilterArgs(name + "=" + Join(args, ":"), name) == Some(args)
  {
    var f := name + "=" + Join(args, ":");
    assert f[..|name + "="|] == name + "=";
    assert f[|name + "="|..] == Join(args, ":");
    SplitJoin(args, ':');
  }

  predicate NoColon(v: Value) {
    ':' !in Text(v)
  }

  // ----------------------------------------------------------------- resize

  /** The scale filter `resize_video` chooses; `None` when neither a
      percentage nor a width or height is given. */
  function ScaleFilter(percentage: Value, width: Value, height: Value, algorithm: Value): (r: Option<string>)
    ensures r.None? <==> !Truthy(percentage) && !Truthy(width) && !Truthy(height)
  {
    var flags := "flags=" + Text(algorithm);
    if Truthy(percentage) then
      Some("scale" + "=" + ("iw*" + Text(percentage)) + ":" + ("ih*" + Text(percentage)) + ":" + flags)
    else if Truthy(width) && Truthy(height) then
      Some("scale" + "=" + Text(width) + ":" + Text(height) + ":" + flags)
    else if Truthy(width) then
      Some("scale" + "=" + Text(width) + ":" + "-1" + ":" + flags)
    else if Truthy(height) then
      Some("scale" + "=" + "-1" + ":" + Text(height) + ":" + flags)
    else
      None
  }

  /** `resize_video`: `ffmpeg -i <input> -vf <scale filter> <output>`. */
  function ResizeVideo(input: string, output: string, percentage: Value, width: Value, height: Value,
                       algorithm: Value): (r: Option<seq<string>>)
    ensures r.None? <==> !Truthy(percentage) && !Truthy(width) && !Truthy(height)
    ensures r.Some? ==> Parse(r.value)
                        == Some(Invocation([Input(input), Flag("-vf", ScaleFilter(percentage, width, height, algorithm))], output))
  {
    match ScaleFilter(percentage, width, height, algorithm)
    case None => None
    case Some(filter) =>
      var argv := ["ffmpeg", "-i", input, "-vf", filter, output];
      RenderParse(Invocation([Input(input), Flag("-vf", Some(filter))], output));
      TokensLiteral(Input(input), Flag("-vf", Some(filter)), Input(input), Input(input));
      assert Render(Invocation([Input(input), Flag("-vf", Some(filter))], output)) == argv;
      Some(argv)
  }

  lemma ThreeArgs(name: string, a: string, b: string, c: string)
    requires ':' !in a && ':' !in b && ':' !in c
    ensures FilterArgs(name + "=" + a + ":" + b + ":" + c, name) == Some([a, b, c])
  {
    assert Join([a, b, c], ":") == a + ":" + b + ":" + c by {
      assert [a, b, c][1..] == [b, c];
      assert [b, c][1..] == [c];
    }
    assert name + "=" + a + ":" + b + ":" + c == name + "=" + (a + ":" + b + ":" + c);
    FilterArgsOfJoin(name, [a, b, c]);
  }

  /** What the scale filter tells ffmpeg: a set percentage scales both sides
      by it whatever the width and height say; otherwise the given side(s)
      are used and a missing one becomes -1 (keep the aspect ratio); the
      algorithm always becomes the `flags` option. */
  lemma ScaleFilterMeaning(percentage: Value, width: Value, height: Value, algorithm: Value)
    requires NoColon(percentage) && NoColon(width) && NoColon(height) && NoColon(algorithm)
    ensures Truthy(percentage) ==>
      FilterArgs(ScaleFilter(percentage, width, height, algorithm).value, "scale")
      == Some(["iw*" + Text(percentage), "ih*" + Text(percentage), "flags=" + Text(algorithm)])
    ensures !Truthy(percentage) && Truthy(width) && Truthy(height) ==>
      FilterArgs(ScaleFilter(percentage, width, height, algorithm).value, "scale")
      == Some([Text(width), Text(height), "flags=" + Text(algorithm)])
    ensures !Truthy(percentage) && Truthy(width) && !Truthy(height) ==>
      FilterArgs(ScaleFilter(percentage, width, height, algorithm).value, "scale")
      == Some([Text(width), "-1", "flags=" + Text(algorithm)])
    ensures !Truthy(percentage) && !Truthy(width) && Truthy(height) ==>
      FilterArgs(ScaleFilter(percentage, width, height, algorithm).value, "scale")
      == Some(["-1", Text(height), "flags=" + Text(algorithm)])
  {
    var flags := "flags=" + Text(algorithm);
    if Truthy(percentage) {
      ThreeArgs("scale", "iw*" + Text(percentage), "ih*" + Text(percentage), flags);
    } else if Truthy(width) && Truthy(height) {
      ThreeArgs("scale", Text(width), Text(height), flags);
    } else if Truthy(width) {
      ThreeArgs("scale", Text(width), "-1", flags);
    } else if Truthy(height) {
      ThreeArgs("scale", "-1", Text(height), flags);
    }
  }

  // --------------------------------------------------------- time windows

  /** The optional `--start`, `--end` and `--duration` of a command. */
  datatype TimeWindow = TimeWindow(start: Value, end: Value, duration: Value)

  const NoWindow := TimeWindow(Null, Null, Null)

  function WhenSet(name: string, v: Value): seq<Flag> {
    if Truthy(v) then [Flag(name, Some(Text(v)))] else []
  }

  /** `-ss`, `-to`, `-t`, each only when its value is set, in that order. */
  function TimeRange(w: TimeWindow): seq<Flag> {
    WhenSet("-ss", w.start) + WhenSet("-to", w.end) + WhenSet("-t", w.duration)
  }

  /** Position of a time flag in the fixed order -ss, -to, -t. */
  function TimeRank(name: string): int {
    if name == "-ss" then 0 else if name == "-to" then 1 else 2
  }

  /** The lookup result of an option given as `v` when set. */
  function IfSet(v: Value): Option<Option<string>> {
    if Truthy(v) then Some(Some(Text(v))) else None
  }

  lemma LookupWhenSet(name: string, v: Value, k: string)
    ensures Lookup(WhenSet(name, v), k) == if k == name then IfSet(v) else None
  {
    if Truthy(v) {
      LookupOne(WhenSet(name, v)[0], k);
    }
  }

  lemma TimeRangeLookup(w: TimeWindow, k: string)
    ensures Lookup(TimeRange(w), k)
            == if k == "-ss" then IfSet(w.start) else if k == "-to" then IfSet(w.end)
               else if k == "-t" then IfSet(w.duration) else None
  {
    var a, b, c := WhenSet("-ss", w.start), WhenSet("-to", w.end), WhenSet("-t", w.duration);
    LookupAppend(a + b, c, k);
    LookupAppend(a, b, k);
    LookupWhenSet("-ss", w.start, k);
    LookupWhenSet("-to", w.end, k);
    LookupWhenSet("-t", w.duration, k);
  }

  /** The time flags are exactly the set values, as text, each once and in
      the order -ss, -to, -t; no other option comes from the time window. */
  lemma TimeRangeMeaning(w: TimeWindow)
    ensures var t := TimeRange(w);
      && (forall i, j :: 0 <= i < j < |t| ==> TimeRank(t[i].name) < TimeRank(t[j].name))
      && Lookup(t, "-ss") == IfSet(w.start)
      && Lookup(t, "-to") == IfSet(w.end)
      && Lookup(t, "-t") == IfSet(w.duration)
      && (forall k :: Lookup(t, k).Some? ==> k in {"-ss", "-to", "-t"})
  {
    TimeRangeLookup(w, "-ss");
    TimeRangeLookup(w, "-to");
    TimeRangeLookup(w, "-t");
    forall k | Lookup(TimeRange(w), k).Some? ensures k in {"-ss", "-to", "-t"} {
      TimeRangeLookup(w, k);
    }
  }

  lemma TimeRangeKnown(w: TimeWindow)
    ensures AllKnown(TimeRange(w))
  {
  }

  // ---------------------------------------------------------------- convert

  /** The encoding options `convert_format` takes besides its files. */
  datatype ConvertOptions = ConvertOptions(format: Value, vcodec: Value, acodec: Value,
                                           vbitrate: Value, abitrate: Value, quality: Value)

  const PaletteFilter := "palettegen=stats_mode=diff[pal],[0:v][pal]paletteuse=dither=bayer:bayer_scale=5:diff_mode=rectangle"

  predicate Supported(format: Value) {
    format in {Str("gif"), Str("mp3"), Str("webm"), Str("avi"), Str("mp4")}
  }

  /** The codecs for which an mp4 conversion passes the quality as `-crf`. */
  predicate CrfCodec(vcodec: Value) {
    vcodec == Str("libx264") || vcodec == Str("libx265")
  }

  /** Whether every option value the format's branch places in the command as
      it is (not through `str()`) is a string. `run_ffmpeg_command` first joins
      the command with `" ".join` (utils.py:49), which raises a TypeError on any
      other value; nothing catches it, and no ffmpeg runs. A preset read from
      JSON can hold a number in any of these fields. */
  predicate RawText(o: ConvertOptions) {
    if o.format == Str("mp3") then StrWhenSet(o.abitrate)
    else if o.format == Str("webm") then
      StrWhenSet(o.vcodec) && StrWhenSet(o.quality) && StrWhenSet(o.vbitrate) && StrWhenSet(o.abitrate)
    else if o.format == Str("avi") then StrWhenSet(o.vcodec) && StrWhenSet(o.quality) && StrWhenSet(o.acodec)
    else if o.format == Str("mp4") then
      StrWhenSet(o.vcodec) && StrWhenSet(o.acodec) && StrWhenSet(o.vbitrate) && StrWhenSet(o.abitrate)
      && (CrfCodec(o.vcodec) ==> StrWhenSet(o.quality))
    else true
  }

  /** The per-format flags of `convert_format`; `None` for an unsupported
      format. An option value stands as its text, which is the value itself
      whenever `RawText` holds, that is whenever the command is run. */
  function FormatFlags(o: ConvertOptions): (r: Option<seq<Flag>>)
    ensures r.Some? <==> Supported(o.format)
    ensures r.Some? ==> AllKnown(r.value)
  {
    if o.format == Str("gif") then
      Some([Flag("-vf", Some(PaletteFilter))])
    else if o.format == Str("mp3") then
      Some([Flag("-vn", None), Flag("-ab", Some(OrText(o.abitrate, "128k"))), Flag("-ar", Some("44100"))])
    else if o.format == Str("webm") then
      Some([Flag("-c:v", Some(OrText(o.vcodec, "libvpx-vp9"))), Flag("-crf", Some(OrText(o.quality, "30"))),
            Flag("-b:v", Some(OrText(o.vbitrate, "0"))), Flag("-b:a", Some(OrText(o.abitrate, "128k")))])
    else if o.format == Str("avi") then
      Some([Flag("-c:v", Some(OrText(o.vcodec, "libxvid"))), Flag("-qscale:v", Some(OrText(o.quality, "5"))),
            Flag("-c:a", Some(OrText(o.acodec, "libmp3lame")))])
    else if o.format == Str("mp4") then
      Some(WhenSet("-c:v", o.vcodec) + WhenSet("-c:a", o.acodec) + WhenSet("-b:v", o.vbitrate)
           + WhenSet("-b:a", o.abitrate)
           + (if Truthy(o.quality) && CrfCodec(o.vcodec) then [Flag("-crf", Some(Text(o.quality)))] else []))
    else
      None
  }

  /** The flags of a conversion: the input, the time window, the format's flags. */
  function ConvertFlags(input: string, o: ConvertOptions, w: TimeWindow): seq<Flag>
    requires Supported(o.format)
  {
    [Input(input)] + TimeRange(w) + FormatFlags(o).value
  }

  /** `convert_format` as a value: the argument vector run, or `None` when no
      ffmpeg runs. That is an unsupported format (the error is printed), or an
      option value that is not a string (joining the command raises). */
  function ConvertArgs(input: string, output: string, o: ConvertOptions, w: TimeWindow): (r: Option<seq<string>>)
    ensures r.Some? <==> Supported(o.format) && RawText(o)
  {
    if Supported(o.format) && RawText(o) then Some(Render(Invocation(ConvertFlags(input, o, w), output))) else None
  }

  /** The `-ss`/`-to`/`-t` tokens that `convert_format`, `extract_audio` and
      `extract_frames` each append after `-i <input>`, one step at a time. */
  method TimeWindowArgs(w: TimeWindow) returns (args: seq<string>)
    ensures args == Tokens(TimeRange(w))
  {
    args := [];
    ghost var flags: seq<Flag> := [];
    if Truthy(w.start) {
      TokensSnoc(flags, Flag("-ss", Some(Text(w.start))));
      args, flags := args + ["-ss", Text(w.start)], flags + [Flag("-ss", Some(Text(w.start)))];
    }
    if Truthy(w.end) {
      TokensSnoc(flags, Flag("-to", Some(Text(w.end))));
      args, flags := args + ["-to", Text(w.end)], flags + [Flag("-to", Some(Text(w.end)))];
    }
    if Truthy(w.duration) {
      TokensSnoc(flags, Flag("-t", Some(Text(w.duration))));
      args, flags := args + ["-t", Text(w.duration)], flags + [Flag("-t", Some(Text(w.duration)))];
    }
    assert flags == TimeRange(w);
  }

  /** `name value` when the value is set, nothing otherwise. */
  function SetTokens(name: string, v: Value): seq<string> {
    if Truthy(v) then [name, Text(v)] else []
  }

  lemma WhenSetTokens(name: string, v: Value)
    ensures Tokens(WhenSet(name, v)) == SetTokens(name, v)
  {
    if Truthy(v) {
      TokensLiteral(WhenSet(name, v)[0], WhenSet(name, v)[0], WhenSet(name, v)[0], WhenSet(name, v)[0]);
    }
  }

  lemma Mp4Tokens(o: ConvertOptions)
    requires o.format == Str("mp4")
    ensures Tokens(FormatFlags(o).value)
            == SetTokens("-c:v", o.vcodec) + SetTokens("-c:a", o.acodec) + SetTokens("-b:v", o.vbitrate)
               + SetTokens("-b:a", o.abitrate)
               + (if Truthy(o.quality) && CrfCodec(o.vcodec) then ["-crf", Text(o.quality)] else [])
  {
    var a, b, c, d := WhenSet("-c:v", o.vcodec), WhenSet("-c:a", o.acodec), WhenSet("-b:v", o.vbitrate),
                      WhenSet("-b:a", o.abitrate);
    var e: seq<Flag> := if Truthy(o.quality) && CrfCodec(o.vcodec) then [Flag("-crf", Some(Text(o.quality)))] else [];
    assert FormatFlags(o).value == a + b + c + d + e;
    TokensAppend(a + b + c + d, e);
    TokensAppend(a + b + c, d);
    TokensAppend(a + b, c);
    TokensAppend(a, b);
    WhenSetTokens("-c:v", o.vcodec);
    WhenSetTokens("-c:a", o.acodec);
    WhenSetTokens("-b:v", o.vbitrate);
    WhenSetTokens("-b:a", o.abitrate);
    if e != [] {
      TokensLiteral(e[0], e[0], e[0], e[0]);
    }
  }

  /** The mp4 branch of `convert_format`: each flag only when its option is set. */
  method Mp4Args(o: ConvertOptions) returns (args: seq<string>)
    requires o.format == Str("mp4")
    ensures args == Tokens(FormatFlags(o).value)
  {
    args := [];
    if Truthy(o.vcodec) {
      args := args + ["-c:v", Text(o.vcodec)];
    }
    assert args == SetTokens("-c:v", o.vcodec);
    if Truthy(o.acodec) {
      args := args + ["-c:a", Text(o.acodec)];
    }
    assert args == SetTokens("-c:v", o.vcodec) + SetTokens("-c:a", o.acodec);
    if Truthy(o.vbitrate) {
      args := args + ["-b:v", Text(o.vbitrate)];
    }
    assert args == SetTokens("-c:v", o.vcodec) + SetTokens("-c:a", o.acodec) + SetTokens("-b:v", o.vbitrate);
    if Truthy(o.abitrate) {
      args := args + ["-b:a", Text(o.abitrate)];
    }
    assert args == SetTokens("-c:v", o.vcodec) + SetTokens("-c:a", o.acodec) + SetTokens("-b:v", o.vbitrate)
                   + SetTokens("-b:a", o.abitrate);
    if Truthy(o.quality) && CrfCodec(o.vcodec) {
      args := args + ["-crf", Text(o.quality)];
    }
    Mp4Tokens(o);
  }

  /** `convert_format`, building the command step by step as the source does. */
  method ConvertFormat(input: string, output: string, o: ConvertOptions, w: TimeWindow)
    returns (command: Option<seq<string>>)
    ensures command == ConvertArgs(input, output, o, w)
  {
    var argv := ["ffmpeg", "-i", input];
    var window := TimeWindowArgs(w);
    argv := argv + window;
    var extra: seq<string>;
    if o.format == Str("gif") {
      extra := ["-vf", PaletteFilter];
    } else if o.format == Str("mp3") {
      extra := ["-vn", "-ab", OrText(o.abitrate, "128k"), "-ar", "44100"];
    } else if o.format == Str("webm") {
      extra := ["-c:v", OrText(o.vcodec, "libvpx-vp9"), "-crf", OrText(o.quality, "30"),
                "-b:v", OrText(o.vbitrate, "0"), "-b:a", OrText(o.abitrate, "128k")];
    } else if o.format == Str("avi") {
      extra := ["-c:v", OrText(o.vcodec, "libxvid"), "-qscale:v", OrText(o.quality, "5"),
                "-c:a", OrText(o.acodec, "libmp3lame")];
    } else if o.format == Str("mp4") {
      extra := Mp4Args(o);
    } else {
      return None;
    }
    if !RawText(o) {
      // the command reaches `run_ffmpeg_command`, whose `" ".join` raises
      return None;
    }
    FormatTokens(o);
    argv := argv + extra;
    command := Some(argv + [output]);
    ConvertArgsTokens(input, output, o, w);
  }

  lemma ConvertArgsTokens(input: string, output: string, o: ConvertOptions, w: TimeWindow)
    requires Supported(o.format) && RawText(o)
    ensures ConvertArgs(input, output, o, w)
            == Some(["ffmpeg", "-i", input] + Tokens(TimeRange(w)) + Tokens(FormatFlags(o).value) + [output])
  {
    ConvertTokens(input, o, w);
    var t := Tokens(ConvertFlags(input, o, w));
    assert Render(Invocation(ConvertFlags(input, o, w), output)) == ["ffmpeg"] + t + [output];
    assert ["ffmpeg"] + t + [output]
           == ["ffmpeg", "-i", input] + Tokens(TimeRange(w)) + Tokens(FormatFlags(o).value) + [output];
  }

  /** The fixed-format branches written out as tokens. */
  lemma FormatTokens(o: ConvertOptions)
    requires Supported(o.format)
    ensures o.format == Str("gif") ==> Tokens(FormatFlags(o).value) == ["-vf", PaletteFilter]
    ensures o.format == Str("mp3") ==> Tokens(FormatFlags(o).value)
                                       == ["-vn", "-ab", OrText(o.abitrate, "128k"), "-ar", "44100"]
    ensures o.format == Str("webm") ==> Tokens(FormatFlags(o).value)
                                        == ["-c:v", OrText(o.vcodec, "libvpx-vp9"), "-crf", OrText(o.quality, "30"),
                                            "-b:v", OrText(o.vbitrate, "0"), "-b:a", OrText(o.abitrate, "128k")]
    ensures o.format == Str("avi") ==> Tokens(FormatFlags(o).value)
                                       == ["-c:v", OrText(o.vcodec, "libxvid"), "-qscale:v", OrText(o.quality, "5"),
                                           "-c:a", OrText(o.acodec, "libmp3lame")]
  {
    var ff := FormatFlags(o).value;
    if o.format == Str("gif") {
      TokensLiteral(ff[0], ff[0], ff[0], ff[0]);
      assert ff == [ff[0]];
    } else if o.format == Str("mp3") || o.format == Str("avi") {
      ThreeFlagTokens(ff);
    } else if o.format == Str("webm") {
      FourFlagTokens(ff);
    }
  }

  lemma ThreeFlagTokens(ff: seq<Flag>)
    requires |ff| == 3
    ensures Tokens(ff) == FlagTokens(ff[0]) + FlagTokens(ff[1]) + FlagTokens(ff[2])
  {
    TokensLiteral(ff[0], ff[1], ff[2], ff[2]);
    assert ff == [ff[0], ff[1], ff[2]];
  }

  lemma FourFlagTokens(ff: seq<Flag>)
    requires |ff| == 4
    ensures Tokens(ff) == FlagTokens(ff[0]) + FlagTokens(ff[1]) + FlagTokens(ff[2]) + FlagTokens(ff[3])
  {
    TokensLiteral(ff[0], ff[1], ff[2], ff[3]);
    assert ff == [ff[0], ff[1], ff[2], ff[3]];
  }

  lemma ConvertTokens(input: string, o: ConvertOptions, w: TimeWindow)
    requires Supported(o.format)
    ensures Tokens(ConvertFlags(input, o, w))
            == ["-i", input] + Tokens(TimeRange(w)) + Tokens(FormatFlags(o).value)
  {
    TokensAppend([Input(input)] + TimeRange(w), FormatFlags(o).value);
    TokensAppend([Input(input)], TimeRange(w));
    TokensLiteral(Input(input), Input(input), Input(input), Input(input));
  }

  // --------------------------------------------- what a conversion asks for

  /** The conversion command reads back as `-i <input>`, then the time flags,
      then the format's flags, writing `<output>`; an unsupported format
      gives no command, and neither does an option value that is not a string. */
  lemma ConvertLayout(input: string, output: string, o: ConvertOptions, w: TimeWindow)
    ensures ConvertArgs(input, output, o, w).None? <==> !Supported(o.format) || !RawText(o)
    ensures Supported(o.format) && RawText(o) ==>
      var argv := ConvertArgs(input, output, o, w).value;
      && argv == ["ffmpeg", "-i", input] + Tokens(TimeRange(w)) + Tokens(FormatFlags(o).value) + [output]
      && Parse(argv) == Some(Invocation([Input(input)] + TimeRange(w) + FormatFlags(o).value, output))
  {
    if Supported(o.format) && RawText(o) {
      ConvertArgsTokens(input, output, o, w);
      TimeRangeKnown(w);
      var flags := ConvertFlags(input, o, w);
      assert AllKnown(flags) by {
        assert AllKnown([Input(input)]);
        assert AllKnown(FormatFlags(o).value);
      }
      RenderParse(Invocation(flags, output));
    }
  }

  /** Which options a conversion sets: the format's flags first, then the
      time window, then the input. */
  lemma ConvertArgLookup(input: string, output: string, o: ConvertOptions, w: TimeWindow, k: string)
    requires Supported(o.format) && RawText(o)
    ensures Arg(ConvertArgs(input, output, o, w).value, k)
            == if Lookup(FormatFlags(o).value, k).Some? then Lookup(FormatFlags(o).value, k)
               else if Lookup(TimeRange(w), k).Some? then Lookup(TimeRange(w), k)
               else if k == "-i" then Some(Some(input)) else None
  {
    ConvertLayout(input, output, o, w);
    LookupAppend([Input(input)] + TimeRange(w), FormatFlags(o).value, k);
    LookupAppend([Input(input)], TimeRange(w), k);
    LookupOne(Input(input), k);
  }

  /** mp3: video dropped, audio bitrate defaulting to 128k, 44100 Hz, and
      nothing else besides the input and the time window. */
  lemma ConvertMp3(input: string, output: string, o: ConvertOptions, w: TimeWindow)
    requires o.format == Str("mp3") && RawText(o)
    ensures var argv := ConvertArgs(input, output, o, w).value;
      && Arg(argv, "-vn") == Some(None)
      && Arg(argv, "-ab") == Some(Some(OrText(o.abitrate, "128k")))
      && Arg(argv, "-ar") == Some(Some("44100"))
      && (forall k :: Arg(argv, k).Some? ==> k in {"-i", "-ss", "-to", "-t", "-vn", "-ab", "-ar"})
  {
    var ff := FormatFlags(o).value;
    assert ff == [ff[0], ff[1], ff[2]];
    forall k ensures Arg(ConvertArgs(input, output, o, w).value, k)
                     == if k == "-vn" then Some(None) else if k == "-ab" then Some(Some(OrText(o.abitrate, "128k")))
                        else if k == "-ar" then Some(Some("44100"))
                        else if Lookup(TimeRange(w), k).Some? then Lookup(TimeRange(w), k)
                        else if k == "-i" then Some(Some(input)) else None
    {
      ConvertArgLookup(input, output, o, w, k);
      LookupLiteral(ff[0], ff[1], ff[2], ff[2], k);
      LookupOne(ff[0], k);
      LookupOne(ff[1], k);
      LookupOne(ff[2], k);
    }
    TimeRangeMeaning(w);
  }

  /** webm: codec libvpx-vp9, crf 30, video bitrate 0 and audio bitrate 128k
      unless given. */
  lemma ConvertWebm(input: string, output: string, o: ConvertOptions, w: TimeWindow)
    requires o.format == Str("webm") && RawText(o)
    ensures var argv := ConvertArgs(input, output, o, w).value;
      && Arg(argv, "-c:v") == Some(Some(OrText(o.vcodec, "libvpx-vp9")))
      && Arg(argv, "-crf") == Some(Some(OrText(o.quality, "30")))
      && Arg(argv, "-b:v") == Some(Some(OrText(o.vbitrate, "0")))
      && Arg(argv, "-b:a") == Some(Some(OrText(o.abitrate, "128k")))
      && (forall k :: Arg(argv, k).Some? ==> k in {"-i", "-ss", "-to", "-t", "-c:v", "-crf", "-b:v", "-b:a"})
  {
    var ff := FormatFlags(o).value;
    assert ff == [ff[0], ff[1], ff[2], ff[3]];
    forall k ensures Arg(ConvertArgs(input, output, o, w).value, k)
                     == if k in {"-c:v", "-crf", "-b:v", "-b:a"} then Lookup(ff, k)
                        else if Lookup(TimeRange(w), k).Some? then Lookup(TimeRange(w), k)
                        else if k == "-i" then Some(Some(input)) else None
    {
      ConvertArgLookup(input, output, o, w, k);
      LookupLiteral(ff[0], ff[1], ff[2], ff[3], k);
      LookupOne(ff[0], k);
      LookupOne(ff[1], k);
      LookupOne(ff[2], k);
      LookupOne(ff[3], k);
    }
    LookupLiteral(ff[0], ff[1], ff[2], ff[3], "-c:v");
    LookupLiteral(ff[0], ff[1], ff[2], ff[3], "-crf");
    LookupLiteral(ff[0], ff[1], ff[2], ff[3], "-b:v");
    LookupLiteral(ff[0], ff[1], ff[2], ff[3], "-b:a");
    LookupOne(ff[0], "-c:v");
    TimeRangeMeaning(w);
  }

  /** avi: codec libxvid, qscale 5 and audio codec libmp3lame unless given. */
  lemma ConvertAvi(input: string, output: string, o: ConvertOptions, w: TimeWindow)
    requires o.format == Str("avi") && RawText(o)
    ensures var argv := ConvertArgs(input, output, o, w).value;
      && Arg(argv, "-c:v") == Some(Some(OrText(o.vcodec, "libxvid")))
      && Arg(argv, "-qscale:v") == Some(Some(OrText(o.quality, "5")))
      && Arg(argv, "-c:a") == Some(Some(OrText(o.acodec, "libmp3lame")))
      && (forall k :: Arg(argv, k).Some? ==> k in {"-i", "-ss", "-to", "-t", "-c:v", "-qscale:v", "-c:a"})
  {
    var ff := FormatFlags(o).value;
    assert ff == [ff[0], ff[1], ff[2]];
    forall k ensures Arg(ConvertArgs(input, output, o, w).value, k)
                     == if k in {"-c:v", "-qscale:v", "-c:a"} then Lookup(ff, k)
                        else if Lookup(TimeRange(w), k).Some? then Lookup(TimeRange(w), k)
                        else if k == "-i" then Some(Some(input)) else None
    {
      ConvertArgLookup(input, output, o, w, k);
      LookupLiteral(ff[0], ff[1], ff[2], ff[2], k);
      LookupOne(ff[0], k);
      LookupOne(ff[1], k);
      LookupOne(ff[2], k);
    }
    LookupLiteral(ff[0], ff[1], ff[2], ff[2], "-c:v");
    LookupLiteral(ff[0], ff[1], ff[2], ff[2], "-qscale:v");
    LookupLiteral(ff[0], ff[1], ff[2], ff[2], "-c:a");
    LookupOne(ff[0], "-c:v");
    TimeRangeMeaning(w);
  }

  /** gif: the one palette filter graph and nothing else. */
  lemma ConvertGif(input: string, output: string, o: ConvertOptions, w: TimeWindow)
    requires o.format == Str("gif")
    ensures var argv := ConvertArgs(input, output, o, w).value;
      && Arg(argv, "-vf") == Some(Some(PaletteFilter))
      && (forall k :: Arg(argv, k).Some? ==> k in {"-i", "-ss", "-to", "-t", "-vf"})
  {
    var ff := FormatFlags(o).value;
    assert ff == [ff[0]];
    forall k ensures Arg(ConvertArgs(input, output, o, w).value, k)
                     == if k == "-vf" then Some(Some(PaletteFilter))
                        else if Lookup(TimeRange(w), k).Some? then Lookup(TimeRange(w), k)
                        else if k == "-i" then Some(Some(input)) else None
    {
      ConvertArgLookup(input, output, o, w, k);
      LookupOne(ff[0], k);
    }
    TimeRangeMeaning(w);
  }

  lemma Mp4Lookup(o: ConvertOptions, k: string)
    requires o.format == Str("mp4")
    ensures Lookup(FormatFlags(o).value, k)
            == if k == "-c:v" then IfSet(o.vcodec) else if k == "-c:a" then IfSet(o.acodec)
               else if k == "-b:v" then IfSet(o.vbitrate) else if k == "-b:a" then IfSet(o.abitrate)
               else if k == "-crf" && Truthy(o.quality) && CrfCodec(o.vcodec) then Some(Some(Text(o.quality)))
               else None
  {
    var a, b, c, d := WhenSet("-c:v", o.vcodec), WhenSet("-c:a", o.acodec), WhenSet("-b:v", o.vbitrate),
                      WhenSet("-b:a", o.abitrate);
    var e: seq<Flag> := if Truthy(o.quality) && CrfCodec(o.vcodec) then [Flag("-crf", Some(Text(o.quality)))] else [];
    assert FormatFlags(o).value == a + b + c + d + e;
    LookupAppend(a + b + c + d, e, k);
    LookupAppend(a + b + c, d, k);
    LookupAppend(a + b, c, k);
    LookupAppend(a, b, k);
    LookupWhenSet("-c:v", o.vcodec, k);
    LookupWhenSet("-c:a", o.acodec, k);
    LookupWhenSet("-b:v", o.vbitrate, k);
    LookupWhenSet("-b:a", o.abitrate, k);
    if e != [] {
      LookupOne(e[0], k);
    }
  }

  /** mp4: every option appears exactly when it is set, the quality becomes
      `-crf` only for libx264 and libx265, and nothing else is added. */
  lemma ConvertMp4(input: string, output: string, o: ConvertOptions, w: TimeWindow)
    requires o.format == Str("mp4") && RawText(o)
    ensures var argv := ConvertArgs(input, output, o, w).value;
      && Arg(argv, "-c:v") == IfSet(o.vcodec)
      && Arg(argv, "-c:a") == IfSet(o.acodec)
      && Arg(argv, "-b:v") == IfSet(o.vbitrate)
      && Arg(argv, "-b:a") == IfSet(o.abitrate)
      && (Arg(argv, "-crf").Some? <==> Truthy(o.quality) && CrfCodec(o.vcodec))
      && (Arg(argv, "-crf").Some? ==> Arg(argv, "-crf") == Some(Some(Text(o.quality))))
      && (forall k :: Arg(argv, k).Some? ==> k in {"-i", "-ss", "-to", "-t", "-c:v", "-c:a", "-b:v", "-b:a", "-crf"})
  {
    var argv := ConvertArgs(input, output, o, w).value;
    Mp4Option(input, output, o, w, "-c:v");
    Mp4Option(input, output, o, w, "-c:a");
    Mp4Option(input, output, o, w, "-b:v");
    Mp4Option(input, output, o, w, "-b:a");
    Mp4Option(input, output, o, w, "-crf");
    Mp4Lookup(o, "-c:v");
    Mp4Lookup(o, "-c:a");
    Mp4Lookup(o, "-b:v");
    Mp4Lookup(o, "-b:a");
    Mp4Lookup(o, "-crf");
    forall k | Arg(argv, k).Some? ensures k in {"-i", "-ss", "-to", "-t", "-c:v", "-c:a", "-b:v", "-b:a", "-crf"} {
      Mp4ArgAt(input, output, o, w, k);
      TimeRangeLookup(w, k);
    }
  }

  lemma Mp4Option(input: string, output: string, o: ConvertOptions, w: TimeWindow, k: string)
    requires o.format == Str("mp4") && RawText(o) && k in {"-c:v", "-c:a", "-b:v", "-b:a", "-crf"}
    ensures Arg(ConvertArgs(input, output, o, w).value, k) == Lookup(FormatFlags(o).value, k)
  {
    Mp4ArgAt(input, output, o, w, k);
  }

  lemma Mp4ArgAt(input: string, output: string, o: ConvertOptions, w: TimeWindow, k: string)
    requires o.format == Str("mp4") && RawText(o)
    ensures Arg(ConvertArgs(input, output, o, w).value, k)
            == if k in {"-c:v", "-c:a", "-b:v", "-b:a", "-crf"} then Lookup(FormatFlags(o).value, k)
               else if Lookup(TimeRange(w), k).Some? then Lookup(TimeRange(w), k)
               else if k == "-i" then Some(Some(input)) else None
  {
    ConvertArgLookup(input, output, o, w, k);
    Mp4Lookup(o, k);
    TimeRangeLookup(w, k);
  }

  // ------------------------------------------------------------- extraction

  /** `-i <input>`, the time window, then a command's own flags. */
  function WindowedFlags(input: string, w: TimeWindow, tail: seq<Flag>): seq<Flag> {
    [Input(input)] + TimeRange(w) + tail
  }

  lemma WindowedRender(input: string, output: string, w: TimeWindow, tail: seq<Flag>)
    ensures Render(Invocation(WindowedFlags(input, w, tail), output))
            == ["ffmpeg", "-i", input] + Tokens(TimeRange(w)) + Tokens(tail) + [output]
  {
    TokensAppend([Input(input)] + TimeRange(w), tail);
    TokensAppend([Input(input)], TimeRange(w));
    TokensLiteral(Input(input), Input(input), Input(input), Input(input));
  }

  /** A windowed command reads back as itself, and an option in it takes its
      value from the command's own flags first, then from the time window,
      then from the input. */
  lemma WindowedMeaning(input: string, output: string, w: TimeWindow, tail: seq<Flag>, k: string)
    requires AllKnown(tail)
    ensures var argv := Render(Invocation(WindowedFlags(input, w, tail), output));
      && Parse(argv) == Some(Invocation(WindowedFlags(input, w, tail), output))
      && Arg(argv, k) == if Lookup(tail, k).Some? then Lookup(tail, k)
                         else if k == "-ss" then IfSet(w.start) else if k == "-to" then IfSet(w.end)
                         else if k == "-t" then IfSet(w.duration)
                         else if k == "-i" then Some(Some(input)) else None
  {
    TimeRangeKnown(w);
    var flags := WindowedFlags(input, w, tail);
    assert AllKnown(flags) by {
      assert AllKnown([Input(input)]);
    }
    RenderParse(Invocation(flags, output));
    LookupAppend([Input(input)] + TimeRange(w), tail, k);
    LookupAppend([Input(input)], TimeRange(w), k);
    LookupOne(Input(input), k);
    TimeRangeLookup(w, k);
  }

  function AudioFlags(audioFormat: string): seq<Flag> {
    [Flag("-vn", None), Flag("-acodec", Some(audioFormat))]
  }

  /** `extract_audio`, built step by step: the input, the time window, then
      `-vn -acodec <format>` and the output. */
  method ExtractAudio(input: string, output: string, audioFormat: string, w: TimeWindow)
    returns (command: seq<string>)
    ensures command == Render(Invocation(WindowedFlags(input, w, AudioFlags(audioFormat)), output))
  {
    command := ["ffmpeg", "-i", input];
    var window := TimeWindowArgs(w);
    command := command + window;
    command := command + ["-vn", "-acodec", audioFormat, output];
    WindowedRender(input, output, w, AudioFlags(audioFormat));
    TokensLiteral(Flag("-vn", None), Flag("-acodec", Some(audioFormat)), Input(input), Input(input));
  }

  /** An audio extraction drops the video, uses the given audio codec, keeps
      the time window and asks for nothing else. */
  lemma ExtractAudioMeaning(input: string, output: string, audioFormat: string, w: TimeWindow)
    ensures var argv := Render(Invocation(WindowedFlags(input, w, AudioFlags(audioFormat)), output));
      && Parse(argv).Some? && Parse(argv).value.output == output
      && Arg(argv, "-i") == Some(Some(input))
      && Arg(argv, "-vn") == Some(None)
      && Arg(argv, "-acodec") == Some(Some(audioFormat))
      && Arg(argv, "-ss") == IfSet(w.start) && Arg(argv, "-to") == IfSet(w.end) && Arg(argv, "-t") == IfSet(w.duration)
      && (forall k :: Arg(argv, k).Some? ==> k in {"-i", "-ss", "-to", "-t", "-vn", "-acodec"})
  {
    var tail := AudioFlags(audioFormat);
    forall k ensures Arg(Render(Invocation(WindowedFlags(input, w, tail), output)), k)
                     == if k == "-vn" then Some(None) else if k == "-acodec" then Some(Some(audioFormat))
                        else if k == "-ss" then IfSet(w.start) else if k == "-to" then IfSet(w.end)
                        else if k == "-t" then IfSet(w.duration)
                        else if k == "-i" then Some(Some(input)) else None
    {
      WindowedMeaning(input, output, w, tail, k);
      LookupLiteral(tail[0], tail[1], tail[1], tail[1], k);
      LookupOne(tail[0], k);
      LookupOne(tail[1], k);
    }
    WindowedMeaning(input, output, w, tail, "-i");
  }

  function FrameFlags(frameRate: Value, imageFormat: string): seq<Flag> {
    [Flag("-r", Some(Text(frameRate))), Flag("-f", Some(imageFormat))]
  }

  /** `extract_frames`, built step by step: the input, the time window, then
      `-r <rate> -f <format>` and the output pattern. */
  method ExtractFrames(input: string, outputPattern: string, frameRate: Value, imageFormat: string, w: TimeWindow)
    returns (command: seq<string>)
    ensures command == Render(Invocation(WindowedFlags(input, w, FrameFlags(frameRate, imageFormat)), outputPattern))
  {
    command := ["ffmpeg", "-i", input];
    var window := TimeWindowArgs(w);
    command := command + window;
    command := command + ["-r", Text(frameRate), "-f", imageFormat, outputPattern];
    WindowedRender(input, outputPattern, w, FrameFlags(frameRate, imageFormat));
    TokensLiteral(Flag("-r", Some(Text(frameRate))), Flag("-f", Some(imageFormat)), Input(input), Input(input));
  }

  /** A frame extraction samples at the given rate into the given image
      format, keeps the time window and asks for nothing else. */
  lemma ExtractFramesMeaning(input: string, outputPattern: string, frameRate: Value, imageFormat: string, w: TimeWindow)
    ensures var argv := Render(Invocation(WindowedFlags(input, w, FrameFlags(frameRate, imageFormat)), outputPattern));
      && Parse(argv).Some? && Parse(argv).value.output == outputPattern
      && Arg(argv, "-i") == Some(Some(input))
      && Arg(argv, "-r") == Some(Some(Text(frameRate)))
      && Arg(argv, "-f") == Some(Some(imageFormat))
      && Arg(argv, "-ss") == IfSet(w.start) && Arg(argv, "-to") == IfSet(w.end) && Arg(argv, "-t") == IfSet(w.duration)
      && (forall k :: Arg(argv, k).Some? ==> k in {"-i", "-ss", "-to", "-t", "-r", "-f"})
  {
    var tail := FrameFlags(frameRate, imageFormat);
    forall k ensures Arg(Render(Invocation(WindowedFlags(input, w, tail), outputPattern)), k)
                     == if k == "-r" then Some(Some(Text(frameRate))) else if k == "-f" then Some(Some(imageFormat))
                        else if k == "-ss" then IfSet(w.start) else if k == "-to" then IfSet(w.end)
                        else if k == "-t" then IfSet(w.duration)
                        else if k == "-i" then Some(Some(input)) else None
    {
      WindowedMeaning(input, outputPattern, w, tail, k);
      LookupLiteral(tail[0], tail[1], tail[1], tail[1], k);
      LookupOne(tail[0], k);
      LookupOne(tail[1], k);
    }
    WindowedMeaning(input, outputPattern, w, tail, "-i");
  }

  // ------------------------------------------------------------------- crop

  function CropFilter(width: Value, height: Value, x: Value, y: Value): string {
    "crop=" + Text(width) + ":" + Text(height) + ":" + Text(x) + ":" + Text(y)
  }

  /** `crop_video`: `ffmpeg -i <input> -vf crop=w:h:x:y <output>`, always emitted. */
  function CropVideo(input: string, output: string, width: Value, height: Value, x: Value, y: Value)
    : (r: seq<string>)
    ensures Parse(r) == Some(Invocation([Input(input), Flag("-vf", Some(CropFilter(width, height, x, y)))], output))
  {
    var filter := CropFilter(width, height, x, y);
    RenderParse(Invocation([Input(input), Flag("-vf", Some(filter))], output));
    TokensLiteral(Input(input), Flag("-vf", Some(filter)), Input(input), Input(input));
    assert Render(Invocation([Input(input), Flag("-vf", Some(filter))], output))
           == ["ffmpeg", "-i", input, "-vf", filter, output];
    ["ffmpeg", "-i", input, "-vf", filter, output]
  }

  /** The crop filter hands ffmpeg the width, height, x and y, in that order. */
  lemma CropFilterMeaning(width: Value, height: Value, x: Value, y: Value)
    requires NoColon(width) && NoColon(height) && NoColon(x) && NoColon(y)
    ensures FilterArgs(CropFilter(width, height, x, y), "crop") == Some([Text(width), Text(height), Text(x), Text(y)])
  {
    assert CropFilter(width, height, x, y) == "crop" + "=" + Text(width) + ":" + Text(height) + ":" + Text(x) + ":" + Text(y);
    FourArgs("crop", Text(width), Text(height), Text(x), Text(y));
  }

  lemma FourArgs(name: string, a: string, b: string, c: string, d: string)
    requires ':' !in a && ':' !in b && ':' !in c && ':' !in d
    ensures FilterArgs(name + "=" + a + ":" + b + ":" + c + ":" + d, name) == Some([a, b, c, d])
  {
    assert Join([a, b, c, d], ":") == a + ":" + b + ":" + c + ":" + d by {
      assert [c, d][1..] == [d];
      assert Join([c, d], ":") == c + ":" + d;
      assert [b, c, d][1..] == [c, d];
      assert Join([b, c, d], ":") == b + ":" + (c + ":" + d);
      assert [a, b, c, d][1..] == [b, c, d];
      assert Join([a, b, c, d], ":") == a + ":" + (b + ":" + (c + ":" + d));
    }
    assert name + "=" + a + ":" + b + ":" + c + ":" + d == name + "=" + (a + ":" + b + ":" + c + ":" + d);
    FilterArgsOfJoin(name, [a, b, c, d]);
  }
}
