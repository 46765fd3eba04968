/** `concatenate_videos`: the list file it writes for ffmpeg's concat
    demuxer, and the command that reads it. */
module Concat {
  import opened Wrappers
  import opened Strings
  import opened Argv

  const ListFile := "concat_list.txt"

  /** `file '<path>'`, one entry of the list without its newline. */
  function Entry(path: string): string {
    "file '" + path + "'"
  }

  /** The line written for one input. */
  function ConcatLine(path: string): string {
    Entry(path) + "\n"
  }

  /** The whole list file: one line per input, in input order. */
  function ConcatList(paths: seq<string>): string {
    if |paths| == 0 then "" else ConcatLine(paths[0]) + ConcatList(paths[1..])
  }

  lemma {:induction false} ConcatListSnoc(paths: seq<string>, p: string)
    ensures ConcatList(paths + [p]) == ConcatList(paths) + ConcatLine(p)
  {
    if |paths| == 0 {
      assert paths + [p] == [p];
      assert [p][1..] == [];
    } else {
      assert (paths + [p])[1..] == paths[1..] + [p];
      ConcatListSnoc(paths[1..], p);
    }
  }

  /** The loop of `concatenate_videos` that writes one line per input file. */
  method WriteConcatList(paths: seq<string>) returns (content: string)
    ensures content == ConcatList(paths)
  {
    content := "";
    var i := 0;
    while i < |paths|
      invariant 0 <= i <= |paths|
      invariant content == ConcatList(paths[..i])
    {
      ConcatListSnoc(paths[..i], paths[i]);
      assert paths[..i + 1] == paths[..i] + [paths[i]];
      content := content + ConcatLine(paths[i]);
      i := i + 1;
    }
    assert paths[..|paths|] == paths;
  }

  /** `concatenate_videos`: the list file's content and the command
      `ffmpeg -f concat -safe 0 -i concat_list.txt -c copy <output>`. */
  method ConcatenateVideos(inputs: seq<string>, output: string) returns (list: string, command: seq<string>)
    ensures list == ConcatList(inputs)
    ensures Parse(command)
            == Some(Invocation([Flag("-f", Some("concat")), Flag("-safe", Some("0")), Input(ListFile),
                                Flag("-c", Some("copy"))], output))
  {
    list := WriteConcatList(inputs);
    command := ["ffmpeg", "-f", "concat", "-safe", "0", "-i", ListFile, "-c", "copy", output];
    var flags := [Flag("-f", Some("concat")), Flag("-safe", Some("0")), Input(ListFile), Flag("-c", Some("copy"))];
    TokensLiteral(flags[0], flags[1], flags[2], flags[3]);
    assert Render(Invocation(flags, output)) == command;
    RenderParse(Invocation(flags, output));
  }

  // ------------------------------------------------- reading the list back

  /** One list line as the concat demuxer reads it: `file '<path>'` where the
      quoted path holds no quote; `None` for any other line. */
  function ReadEntry(line: string): (r: Option<string>)
    ensures r.Some? ==> line == Entry(r.value) && '\'' !in r.value
  {
    if |line| >= 7 && line[..6] == "file '" && line[|line| - 1] == '\'' && '\'' !in line[6..|line| - 1] then
      assert line == line[..6] + line[6..|line| - 1] + [line[|line| - 1]];
      Some(line[6..|line| - 1])
    else None
  }

  function ReadEntries(lines: seq<string>): Option<seq<string>> {
    if |lines| == 0 then Some([])
    else match (ReadEntry(lines[0]), ReadEntries(lines[1..]))
      case (Some(p), Some(rest)) => Some([p] + rest)
      case _ => None
  }

  /** The paths a list file names: newline-terminated entries, in order. */
  function ReadList(text: string): Option<seq<string>> {
    var lines := Split(text, '\n');
    if lines[|lines| - 1] != "" then None else ReadEntries(lines[..|lines| - 1])
  }

  function Entries(paths: seq<string>): (r: seq<string>)
    ensures |r| == |paths|
    ensures forall i :: 0 <= i < |paths| ==> r[i] == Entry(paths[i])
  {
    if |paths| == 0 then [] else [Entry(paths[0])] + Entries(paths[1..])
  }

  /** The list file is its entries, each followed by a newline. */
  lemma {:induction false} ConcatListLines(paths: seq<string>)
    ensures ConcatList(paths) == Join(Entries(paths) + [""], "\n")
  {
    if |paths| > 0 {
      ConcatListLines(paths[1..]);
      var parts := Entries(paths) + [""];
      assert parts[0] == Entry(paths[0]);
      assert parts[1..] == Entries(paths[1..]) + [""];
    }
  }

  lemma {:induction false} ReadEntriesOf(paths: seq<string>)
    requires forall i :: 0 <= i < |paths| ==> '\'' !in paths[i]
    ensures ReadEntries(Entries(paths)) == Some(paths)
  {
    if |paths| > 0 {
      var e := Entry(paths[0]);
      assert e[..6] == "file '" && e[6..|e| - 1] == paths[0];
      ReadEntriesOf(paths[1..]);
      assert Entries(paths)[1..] == Entries(paths[1..]);
      assert [paths[0]] + paths[1..] == paths;
    }
  }

  lemma EntryNoNewline(p: string)
    requires '\n' !in p
    ensures '\n' !in Entry(p)
  {
    var e := Entry(p);
    forall j | 0 <= j < |e| ensures e[j] != '\n' {
      if 6 <= j < 6 + |p| {
        assert e[j] == p[j - 6];
      }
    }
  }

  lemma LinesNoNewline(paths: seq<string>)
    requires forall i :: 0 <= i < |paths| ==> '\n' !in paths[i]
    ensures forall i :: 0 <= i < |Entries(paths) + [""]| ==> '\n' !in (Entries(paths) + [""])[i]
  {
    var parts := Entries(paths) + [""];
    forall i | 0 <= i < |parts| ensures '\n' !in parts[i] {
      if i < |paths| {
        assert parts[i] == Entry(paths[i]);
        EntryNoNewline(paths[i]);
      } else {
        assert parts[i] == "";
      }
    }
  }

  lemma ConcatListSplit(paths: seq<string>)
    requires forall i :: 0 <= i < |paths| ==> '\n' !in paths[i]
    ensures Split(ConcatList(paths), '\n') == Entries(paths) + [""]
  {
    ConcatListLines(paths);
    LinesNoNewline(paths);
    assert "\n" == ['\n'];
    SplitJoin(Entries(paths) + [""], '\n');
  }

  /** The list file names exactly the inputs, in input order, one per line,
      when no path holds a newline or a quote. */
  lemma ConcatListRoundTrip(paths: seq<string>)
    requires forall i :: 0 <= i < |paths| ==> '\n' !in paths[i] && '\'' !in paths[i]
    ensures Split(ConcatList(paths), '\n') == Entries(paths) + [""]
    ensures ReadList(ConcatList(paths)) == Some(paths)
  {
    ConcatListSplit(paths);
    var lines := Entries(paths) + [""];
    assert lines[..|lines| - 1] == Entries(paths);
    ReadEntriesOf(paths);
  }

  lemma {:induction false} ReadEntriesQuote(paths: seq<string>, i: int)
    requires 0 <= i < |paths| && '\'' in paths[i]
    ensures ReadEntries(Entries(paths)) == None
  {
    var e := Entry(paths[0]);
    if i == 0 {
      assert e[6..|e| - 1] == paths[0];
    } else {
      assert Entries(paths)[1..] == Entries(paths[1..]);
      ReadEntriesQuote(paths[1..], i - 1);
    }
  }

  /** The path is written between single quotes without escaping, so a
      quote inside it ends the quoted name early and the list no longer
      names that input: no line is `file '<path>'` for it, and `ReadList`
      gives up (ffmpeg's concat reader would take the line as a different
      file name). With the round trip above, the list names its inputs
      exactly when no path holds a quote. */
  lemma QuoteInPath(paths: seq<string>, i: int)
    requires forall j :: 0 <= j < |paths| ==> '\n' !in paths[j]
    requires 0 <= i < |paths| && '\'' in paths[i]
    ensures ReadList(ConcatList(paths)) == None
  {
    ConcatListSplit(paths);
    var lines := Entries(paths) + [""];
    assert lines[..|lines| - 1] == Entries(paths);
    ReadEntriesQuote(paths, i);
  }
}
