/** `batch_convert`: one `vt convert <in> <out>` per file the pattern
    matched, the output path derived from the input path with pathlib's
    rules for POSIX paths. */
module BatchConvert {
  import opened Wrappers

  // ------------------------------------------------------------ paths

  /** The last index of `c` among the first `n` characters of `s`, -1 when
      there is none. */
  function LastIndexBefore(s: string, c: char, n: nat): (r: int)
    requires n <= |s|
    ensures -1 <= r < n
    ensures r >= 0 ==> s[r] == c
  {
    if n == 0 then -1 else if s[n - 1] == c then n - 1 else LastIndexBefore(s, c, n - 1)
  }

  /** `s.rfind(c)`: the last index of `c` in `s`, -1 when there is none. */
  function LastIndex(s: string, c: char): (r: int)
    ensures -1 <= r < |s|
    ensures r >= 0 ==> s[r] == c
  {
    LastIndexBefore(s, c, |s|)
  }

  lemma {:induction false} LastIndexBeforeLast(s: string, c: char, n: nat)
    requires n <= |s|
    ensures forall j :: LastIndexBefore(s, c, n) < j < n ==> s[j] != c
  {
    if n > 0 && s[n - 1] != c {
      LastIndexBeforeLast(s, c, n - 1);
    }
  }

  /** No `c` comes after the last one. */
  lemma LastIndexLast(s: string, c: char)
    ensures forall j :: LastIndex(s, c) < j < |s| ==> s[j] != c
  {
    LastIndexBeforeLast(s, c, |s|);
  }

  /** Being `c`, with no `c` after it, pins the index down. */
  lemma LastIndexUnique(s: string, c: char, r: int)
    requires -1 <= r < |s|
    requires r >= 0 ==> s[r] == c
    requires forall j :: r < j < |s| ==> s[j] != c
    ensures LastIndex(s, c) == r
  {
    LastIndexLast(s, c);
  }

  /** The directory part of a path, up to and including its last `/`. */
  function DirPart(path: string): (r: string)
    ensures |r| <= |path| && path[..|r|] == r
  {
    path[..LastIndex(path, '/') + 1]
  }

  /** `PurePath.name`: the final component. */
  function Name(path: string): string {
    path[LastIndex(path, '/') + 1..]
  }

  lemma TailWithout(s: string, i: int, c: char)
    requires 0 <= i <= |s|
    requires forall j :: i <= j < |s| ==> s[j] != c
    ensures c !in s[i..]
  {
    forall k | 0 <= k < |s| - i ensures s[i..][k] != c {
      assert s[i..][k] == s[i + k];
    }
  }

  /** The name holds no `/`. */
  lemma NameNoSeparator(path: string)
    ensures '/' !in Name(path)
  {
    LastIndexLast(path, '/');
    TailWithout(path, LastIndex(path, '/') + 1, '/');
  }

  lemma Halves(s: string, k: int)
    requires 0 <= k <= |s|
    ensures s[..k] + s[k..] == s
  {
  }

  /** A path is its directory part followed by its name. */
  lemma NameParts(path: string)
    ensures DirPart(path) + Name(path) == path
  {
    var i := LastIndex(path, '/');
    assert path[..i + 1] + path[i + 1..] == path by {
      Halves(path, i + 1);
    }
  }

  /** `PurePath.suffix`: from the last dot of the name, unless that dot
      is its first or last character. */
  function Suffix(name: string): (r: string)
    ensures r == "" || (r[0] == '.' && |r| >= 2)
  {
    var i := LastIndex(name, '.');
    if 0 < i < |name| - 1 then name[i..] else ""
  }

  /** `PurePath.stem`: the name without its suffix. */
  function Stem(name: string): (r: string)
    ensures r + Suffix(name) == name
    ensures name != "" ==> r != ""
  {
    var i := LastIndex(name, '.');
    if 0 < i < |name| - 1 then name[..i] else name
  }

  /** `PurePath.with_suffix`: `None` where pathlib raises ValueError (an
      invalid suffix, or a path with an empty name). */
  function WithSuffix(path: string, suffix: string): Option<string> {
    if '/' in suffix || (suffix != "" && suffix[0] != '.') || suffix == "." then None
    else if Name(path) == "" then None
    else Some(DirPart(path) + Stem(Name(path)) + suffix)
  }

  /** `Path(dir) / name` for a relative name without `/`. */
  function JoinPath(dir: string, name: string): string {
    if |dir| > 0 && dir[|dir| - 1] == '/' then dir + name else dir + "/" + name
  }

  lemma JoinPathParts(dir: string, name: string)
    requires '/' !in name
    ensures Name(JoinPath(dir, name)) == name
    ensures DirPart(JoinPath(dir, name)) == (if |dir| > 0 && dir[|dir| - 1] == '/' then dir else dir + "/")
  {
    var d := if |dir| > 0 && dir[|dir| - 1] == '/' then dir else dir + "/";
    var p := d + name;
    assert JoinPath(dir, name) == p;
    assert p[|d| - 1] == '/';
    assert forall j :: |d| - 1 < j < |p| ==> p[j] == name[j - |d|];
    LastIndexUnique(p, '/', |d| - 1);
  }

  // ------------------------------------------------------- output paths

  /** Where one input is converted to: `<dir>/<stem>.<format>` when an output
      directory is given, else the input with its suffix replaced. `None`
      where pathlib raises. */
  function OutputPath(input: string, format: string, outputDir: Option<string>): Option<string> {
    if outputDir.Some? && outputDir.value != "" then Some(JoinPath(outputDir.value, Stem(Name(input)) + "." + format))
    else WithSuffix(input, "." + format)
  }

  /** A file named `<stem>.<format>`, `format` a plain extension, has that
      stem and `.<format>` as its suffix. */
  lemma {:induction false} RenamedParts(stem: string, format: string)
    requires stem != "" && format != "" && '.' !in format
    ensures Suffix(stem + "." + format) == "." + format
    ensures Stem(stem + "." + format) == stem
  {
    var n := stem + "." + format;
    assert n[|stem|] == '.';
    assert forall j :: |stem| < j < |n| ==> n[j] == format[j - |stem| - 1];
    LastIndexUnique(n, '.', |stem|);
    assert n[|stem|..] == "." + format;
  }

  lemma NameNoSlash(stem: string, format: string, input: string)
    requires stem == Stem(Name(input)) && '/' !in format
    ensures '/' !in stem + "." + format
  {
    NameNoSeparator(input);
    var n := Name(input);
    assert stem == n[..|stem|];
    assert forall j :: 0 <= j < |stem| ==> stem[j] == n[j];
  }

  /** Only a format that is empty or holds a `/`, or an input with no name,
      leaves the output path underivable, and only when no output
      directory is given. */
  lemma OutputPathDefined(input: string, format: string, outputDir: Option<string>)
    ensures OutputPath(input, format, outputDir).None?
            <==> (outputDir.None? || outputDir.value == "") && (format == "" || '/' in format || Name(input) == "")
  {
    var suffix := "." + format;
    assert suffix == "." <==> format == "";
    assert '/' in suffix <==> '/' in format by {
      assert forall j :: 0 <= j < |format| ==> suffix[j + 1] == format[j];
    }
  }

  /** With an output directory, the output is `<stem>.<format>` inside it. */
  lemma OutputPathInDir(input: string, format: string, dir: string)
    requires dir != "" && '/' !in format
    ensures var out := OutputPath(input, format, Some(dir)).value;
      && Name(out) == Stem(Name(input)) + "." + format
      && DirPart(out) == if dir[|dir| - 1] == '/' then dir else dir + "/"
  {
    NameNoSlash(Stem(Name(input)), format, input);
    JoinPathParts(dir, Stem(Name(input)) + "." + format);
  }

  /** Without one, the output is `<stem>.<format>` beside the input. */
  lemma OutputPathBeside(input: string, format: string)
    requires Name(input) != "" && format != "" && '/' !in format
    ensures OutputPath(input, format, None).Some?
    ensures var out := OutputPath(input, format, None).value;
      && Name(out) == Stem(Name(input)) + "." + format
      && DirPart(out) == DirPart(input)
  {
    OutputPathDefined(input, format, None);
    var n := Stem(Name(input)) + "." + format;
    NameNoSlash(Stem(Name(input)), format, input);
    var d := DirPart(input);
    var p := d + n;
    assert OutputPath(input, format, None).value == p;
    if |d| > 0 {
      assert d[|d| - 1] == '/';
      assert p[|d| - 1] == '/';
    }
    assert forall j :: |d| <= j < |p| ==> p[j] == n[j - |d|];
    LastIndexUnique(p, '/', |d| - 1);
    assert p[|d|..] == n;
  }

  /** Wherever it lies, the output keeps the input's stem and has
      `.<format>` as its suffix. */
  lemma OutputPathRenames(input: string, format: string, outputDir: Option<string>)
    requires Name(input) != "" && format != "" && '/' !in format && '.' !in format
    ensures OutputPath(input, format, outputDir).Some?
    ensures var out := OutputPath(input, format, outputDir).value;
      Stem(Name(out)) == Stem(Name(input)) && Suffix(Name(out)) == "." + format
  {
    OutputPathDefined(input, format, outputDir);
    if outputDir.Some? && outputDir.value != "" {
      OutputPathInDir(input, format, outputDir.value);
    } else {
      OutputPathBeside(input, format);
    }
    RenamedParts(Stem(Name(input)), format);
  }

  // --------------------------------------------------------------- the loop

  /** What running one command ended with: exit code 0, another exit code
      with its standard error, or an exception raised by `subprocess.run`. */
  datatype RunStatus = Succeeded | Failed(stderr: string) | Raised(error: string)

  function ConvertCommand(input: string, output: string): seq<string> {
    ["vt", "convert", input, output]
  }

  /** The loop of `batch_convert` over the files the pattern matched, in
      match order, with `outputOf` deriving each output path (`None` where
      the derivation raises) and `run` what each command ends with. A
      derivation that raises is outside the `try` and ends the batch there. */
  method RunBatch(matched: seq<string>, outputOf: string -> Option<string>, run: seq<string> -> RunStatus)
    returns (commands: seq<seq<string>>, results: seq<RunStatus>, aborted: bool)
    ensures |commands| <= |matched|
    ensures forall i :: 0 <= i < |commands| ==>
              outputOf(matched[i]).Some? && commands[i] == ConvertCommand(matched[i], outputOf(matched[i]).value)
    ensures aborted <==> |commands| < |matched|
    ensures aborted ==> outputOf(matched[|commands|]).None?
    ensures |results| == |commands| && forall i :: 0 <= i < |results| ==> results[i] == run(commands[i])
  {
    commands, results, aborted := [], [], false;
    if |matched| == 0 {
      return;
    }
    for i := 0 to |matched|
      invariant |commands| == i && |results| == i
      invariant forall j :: 0 <= j < i ==>
                  outputOf(matched[j]).Some? && commands[j] == ConvertCommand(matched[j], outputOf(matched[j]).value)
      invariant forall j :: 0 <= j < i ==> results[j] == run(commands[j])
    {
      var output := outputOf(matched[i]);
      if output.None? {
        aborted := true;
        return;
      }
      var command := ConvertCommand(matched[i], output.value);
      commands := commands + [command];
      results := results + [run(command)];
    }
  }

  /** `batch_convert`: the loop above with the output path derived by
      `OutputPath`. */
  method BatchConvert(matched: seq<string>, format: string, outputDir: Option<string>, run: seq<string> -> RunStatus)
    returns (commands: seq<seq<string>>, results: seq<RunStatus>, aborted: bool)
    ensures |commands| <= |matched|
    ensures forall i :: 0 <= i < |commands| ==>
              OutputPath(matched[i], format, outputDir).Some?
              && commands[i] == ConvertCommand(matched[i], OutputPath(matched[i], format, outputDir).value)
    ensures aborted <==> |commands| < |matched|
    ensures aborted ==> OutputPath(matched[|commands|], format, outputDir).None?
    ensures |results| == |commands| && forall i :: 0 <= i < |results| ==> results[i] == run(commands[i])
  {
    commands, results, aborted := RunBatch(matched, input => OutputPath(input, format, outputDir), run);
  }

  /** With an output directory, or a format that is a plain extension and
      inputs that have names, every output path can be derived: by the
      contract of `BatchConvert` the batch then issues exactly one command
      per matched file, in match order, and runs each whatever the others
      ended with. */
  lemma NeverAborts(matched: seq<string>, format: string, outputDir: Option<string>)
    requires (outputDir.Some? && outputDir.value != "")
             || (format != "" && '/' !in format && forall i :: 0 <= i < |matched| ==> Name(matched[i]) != "")
    ensures forall i :: 0 <= i < |matched| ==> OutputPath(matched[i], format, outputDir).Some?
  {
    forall i | 0 <= i < |matched| ensures OutputPath(matched[i], format, outputDir).Some? {
      OutputPathDefined(matched[i], format, outputDir);
    }
  }
}
