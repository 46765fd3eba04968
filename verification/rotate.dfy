/** `rotate_video` and what its filter does to the picture. ffmpeg's
    `transpose=<dir>` filter turns the picture a quarter turn: dir 1 clockwise,
    dir 2 counter-clockwise, dir 0 counter-clockwise then flipped upside down,
    dir 3 clockwise then flipped upside down. */
module Rotate {
  import opened Wrappers
  import opened Strings
  import opened Argv

  /** A symmetry of the picture: flip it upside down when `flipped`, then
      turn it `turns` quarter turns clockwise (0 <= turns < 4). */
  datatype Orientation = Orientation(turns: int, flipped: bool)

  const Upright := Orientation(0, false)

  /** `a` followed by `b`. A flip after a turn is the flip before the opposite turn. */
  function Then(a: Orientation, b: Orientation): Orientation {
    Orientation(((if b.flipped then -a.turns else a.turns) + b.turns) % 4, a.flipped != b.flipped)
  }

  /** The symmetry of one `transpose` direction; `None` for an unknown one. */
  function Transpose(dir: string): Option<Orientation> {
    if dir == "0" then Some(Orientation(1, true))
    else if dir == "1" then Some(Orientation(1, false))
    else if dir == "2" then Some(Orientation(3, false))
    else if dir == "3" then Some(Orientation(3, true))
    else None
  }

  /** One filter of a chain: `transpose=<dir>`; `None` for anything else,
      which ffmpeg rejects as an unknown filter or option. */
  function Step(filter: string): Option<Orientation> {
    var head := "transpose=";
    if StartsWith(filter, head) then Transpose(filter[|head|..]) else None
  }

  function Steps(filters: seq<string>, acc: Orientation): Option<Orientation> {
    if |filters| == 0 then Some(acc)
    else match Step(filters[0])
      case None => None
      case Some(o) => Steps(filters[1..], Then(acc, o))
  }

  /** What a `-vf` filter chain of transposes does to the picture; `None`
      when ffmpeg would not run it. */
  function Chain(graph: string): Option<Orientation> {
    Steps(Split(graph, ','), Upright)
  }

  /** The decimal value of a string of digits; `None` otherwise. */
  function Decimal(s: string): Option<nat> {
    if |s| == 0 then None
    else if !('0' <= s[|s| - 1] <= '9') then None
    else
      var d := (s[|s| - 1] as int - '0' as int) as nat;
      if |s| == 1 then Some(d)
      else match Decimal(s[..|s| - 1])
        case None => None
        case Some(n) => Some(10 * n + d)
  }

  // ------------------------------------------------------------ as written

  /** The angle table as the source writes it: bare direction codes. */
  const RotationValues: map<string, string> := map["90" := "1", "180" := "2,transpose=2", "270" := "3"]

  /** `rotate_video` as written: the table value wrapped in double quotes. */
  function RotateVideoAsWritten(input: string, output: string, rotation: string): (r: Option<seq<string>>)
    ensures r.Some? <==> rotation in {"90", "180", "270"}
    ensures r.Some? ==> Parse(r.value)
                        == Some(Invocation([Input(input), Flag("-vf", Some("\"" + RotationValues[rotation] + "\""))],
                                           output))
  {
    if rotation !in RotationValues then None
    else
      var filter := "\"" + RotationValues[rotation] + "\"";
      RenderParse(Invocation([Input(input), Flag("-vf", Some(filter))], output));
      TokensLiteral(Input(input), Flag("-vf", Some(filter)), Input(input), Input(input));
      assert Render(Invocation([Input(input), Flag("-vf", Some(filter))], output))
             == ["ffmpeg", "-i", input, "-vf", filter, output];
      Some(["ffmpeg", "-i", input, "-vf", filter, output])
  }

  lemma StepTranspose(dir: string)
    ensures Step("transpose=" + dir) == Transpose(dir)
  {
    var f := "transpose=" + dir;
    assert f[..|"transpose="|] == "transpose=";
    assert f[|"transpose="|..] == dir;
  }

  /** A graph without a comma is a single filter. */
  lemma ChainSingle(f: string)
    requires ',' !in f
    ensures Chain(f) == match Step(f) case None => None case Some(o) => Some(Then(Upright, o))
  {
    SplitNoSeparator(f, ',');
    var fs: seq<string> := [f];
    assert Chain(f) == Steps(fs, Upright);
    assert |fs[1..]| == 0;
    match Step(f)
    case None =>
    case Some(o) => assert Steps(fs, Upright) == Steps(fs[1..], Then(Upright, o));
  }

  /** `a,b`: two filters applied in turn. */
  lemma ChainPair(a: string, b: string)
    requires ',' !in a && ',' !in b
    ensures Chain(a + "," + b)
            == match (Step(a), Step(b)) case (Some(x), Some(y)) => Some(Then(Then(Upright, x), y)) case _ => None
  {
    SplitFirst(a, ',', b);
    SplitNoSeparator(b, ',');
    var fs: seq<string> := [a, b];
    assert Chain(a + "," + b) == Steps(fs, Upright) by {
      assert a + "," + b == a + [','] + b;
    }
    assert fs[1..] == [b];
    assert |fs[1..][1..]| == 0;
    match Step(a)
    case None =>
    case Some(x) =>
      assert Steps(fs, Upright) == Steps([b], Then(Upright, x));
      match Step(b)
      case None =>
      case Some(y) => assert Steps([b], Then(Upright, x)) == Steps(fs[1..][1..], Then(Then(Upright, x), y));
  }

  lemma AsWrittenFilter(input: string, output: string, rotation: string)
    requires rotation in {"90", "180", "270"}
    ensures Arg(RotateVideoAsWritten(input, output, rotation).value, "-vf")
            == Some(Some("\"" + RotationValues[rotation] + "\""))
  {
    var filter := "\"" + RotationValues[rotation] + "\"";
    LookupLiteral(Input(input), Flag("-vf", Some(filter)), Input(input), Input(input), "-vf");
    LookupOne(Flag("-vf", Some(filter)), "-vf");
    LookupOne(Input(input), "-vf");
  }

  /** A quoted code is no filter ffmpeg knows, alone or ahead of another. */
  lemma QuotedCodeUnknown(code: string)
    requires code in {"1", "2,transpose=2", "3"}
    ensures Chain("\"" + code + "\"").None?
  {
    var graph := "\"" + code + "\"";
    if code == "2,transpose=2" {
      assert graph == "\"2" + "," + "transpose=2\"";
      ChainPair("\"2", "transpose=2\"");
      assert Step("\"2").None?;
    } else {
      assert graph == ['"', code[0], '"'];
      ChainSingle(graph);
    }
  }

  /** None of the filters `rotate_video` emits is a transpose ffmpeg can run:
      the quotes and the missing `transpose=` make the first filter unknown. */
  lemma AsWrittenRotatesNothing(input: string, output: string, rotation: string)
    requires rotation in {"90", "180", "270"}
    ensures Arg(RotateVideoAsWritten(input, output, rotation).value, "-vf")
            == Some(Some("\"" + RotationValues[rotation] + "\""))
    ensures Chain("\"" + RotationValues[rotation] + "\"").None?
  {
    AsWrittenFilter(input, output, rotation);
    QuotedCodeUnknown(RotationValues[rotation]);
  }

  /** Even with the `transpose=` prefix the table's code for 270 is dir 3,
      which flips the picture instead of turning it. */
  lemma Code270Flips()
    ensures Chain("transpose=" + RotationValues["270"]) == Some(Orientation(3, true))
  {
    ChainOfDir("3");
  }

  // ------------------------------------------------------------- corrected

  /** The filter chain each accepted angle calls for. */
  const Transposes: map<string, string> :=
    map["90" := "transpose=1", "180" := "transpose=2,transpose=2", "270" := "transpose=2"]

  /** `rotate_video` with a runnable filter: exactly the three angles are
      accepted; any other text, "-90" included, gives no command. */
  function RotateVideo(input: string, output: string, rotation: string): (r: Option<seq<string>>)
    ensures r.Some? <==> rotation in {"90", "180", "270"}
    ensures r.Some? ==> Parse(r.value) == Some(Invocation([Input(input), Flag("-vf", Some(Transposes[rotation]))], output))
  {
    if rotation !in Transposes then None
    else
      var filter := Transposes[rotation];
      RenderParse(Invocation([Input(input), Flag("-vf", Some(filter))], output));
      TokensLiteral(Input(input), Flag("-vf", Some(filter)), Input(input), Input(input));
      assert Render(Invocation([Input(input), Flag("-vf", Some(filter))], output))
             == ["ffmpeg", "-i", input, "-vf", filter, output];
      Some(["ffmpeg", "-i", input, "-vf", filter, output])
  }

  lemma Decimals()
    ensures Decimal("90") == Some(90) && Decimal("180") == Some(180) && Decimal("270") == Some(270)
  {
    assert "90"[..1] == "9";
    assert "180"[..2] == "18" && "18"[..1] == "1";
    assert "270"[..2] == "27" && "27"[..1] == "2";
  }

  /** `transpose=<dir>` alone. */
  lemma ChainOfDir(dir: string)
    requires dir in {"0", "1", "2", "3"}
    ensures Step("transpose=" + dir) == Transpose(dir)
    ensures Chain("transpose=" + dir) == Some(Then(Upright, Transpose(dir).value))
  {
    var f := "transpose=" + dir;
    assert ',' !in f by {
      assert |dir| == 1 && dir[0] != ',';
      assert f == "transpose=" + [dir[0]];
    }
    StepTranspose(dir);
    ChainSingle(f);
  }

  /** `transpose=<a>,transpose=<b>`. */
  lemma ChainOfDirs(a: string, b: string)
    requires a in {"0", "1", "2", "3"} && b in {"0", "1", "2", "3"}
    ensures Chain("transpose=" + a + "," + "transpose=" + b)
            == Some(Then(Then(Upright, Transpose(a).value), Transpose(b).value))
  {
    ChainOfDir(a);
    ChainOfDir(b);
    assert "transpose=" + a + "," + "transpose=" + b == ("transpose=" + a) + "," + ("transpose=" + b);
    ChainPair("transpose=" + a, "transpose=" + b);
  }

  // The three chains below take the graph as a parameter: stated about a
  // literal, `Chain` would be unfolded character by character.

  lemma ClockwiseChain(graph: string)
    requires graph == "transpose=1"
    ensures Chain(graph) == Some(Orientation(1, false))
  {
    var d := "1";
    assert graph == "transpose=" + d;
    ChainOfDir(d);
  }

  lemma HalfTurnChain(graph: string)
    requires graph == "transpose=2,transpose=2"
    ensures Chain(graph) == Some(Orientation(2, false))
  {
    var d := "2";
    assert graph == "transpose=" + d + "," + "transpose=" + d;
    ChainOfDirs(d, d);
  }

  lemma CounterClockwiseChain(graph: string)
    requires graph == "transpose=2"
    ensures Chain(graph) == Some(Orientation(3, false))
  {
    var d := "2";
    assert graph == "transpose=" + d;
    ChainOfDir(d);
  }

  /** Each corrected chain turns the picture clockwise by exactly the angle's
      number of degrees, without flipping it. */
  lemma TransposesTurn(rotation: string)
    requires rotation in {"90", "180", "270"}
    ensures Decimal(rotation).Some?
    ensures Chain(Transposes[rotation]) == Some(Orientation(Decimal(rotation).value / 90, false))
  {
    if rotation == "90" {
      QuarterTurn(rotation);
      assert 90 / 90 == 1;
    } else if rotation == "180" {
      HalfTurn(rotation);
      assert 180 / 90 == 2;
    } else {
      ThreeQuarterTurn(rotation);
      assert 270 / 90 == 3;
    }
  }

  lemma QuarterTurn(rotation: string)
    requires rotation == "90"
    ensures Decimal(rotation) == Some(90) && Chain(Transposes[rotation]) == Some(Orientation(1, false))
  {
    Decimals();
    ClockwiseChain(Transposes[rotation]);
  }

  lemma HalfTurn(rotation: string)
    requires rotation == "180"
    ensures Decimal(rotation) == Some(180) && Chain(Transposes[rotation]) == Some(Orientation(2, false))
  {
    Decimals();
    HalfTurnChain(Transposes[rotation]);
  }

  lemma ThreeQuarterTurn(rotation: string)
    requires rotation == "270"
    ensures Decimal(rotation) == Some(270) && Chain(Transposes[rotation]) == Some(Orientation(3, false))
  {
    Decimals();
    CounterClockwiseChain(Transposes[rotation]);
  }

  /** The corrected command's filter is the chain for the angle, and that
      chain turns the picture clockwise by exactly the requested angle. */
  lemma RotateVideoTurns(input: string, output: string, rotation: string)
    requires rotation in {"90", "180", "270"}
    ensures Arg(RotateVideo(input, output, rotation).value, "-vf") == Some(Some(Transposes[rotation]))
    ensures Decimal(rotation).Some?
    ensures Chain(Transposes[rotation]) == Some(Orientation(Decimal(rotation).value / 90, false))
  {
    var filter := Transposes[rotation];
    LookupLiteral(Input(input), Flag("-vf", Some(filter)), Input(input), Input(input), "-vf");
    LookupOne(Flag("-vf", Some(filter)), "-vf");
    LookupOne(Input(input), "-vf");
    TransposesTurn(rotation);
  }
}
