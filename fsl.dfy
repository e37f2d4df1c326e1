/** Command builders for FSL's registration, brain-extraction and tractography tools
    (seam/fsl/v1/core.py). Each builder grows a list of argument tokens, joins it with
    single spaces and substitutes the caller's values into the result. The model
    states each token list as a function, proves each builder returns its join, and
    proves the joined text is the command its documentation shows. Values the source
    renders with `:g` are taken as the text the caller wants; values rendered with
    `:d` are integers printed as `str` prints them. */
module FslCore {
  import opened Results
  import opened Text

  /** Python truthiness of an optional string: `None` and `""` are both false. */
  predicate Given(o: Option<string>) {
    o.Some? && o.value != ""
  }

  /** The token `if o: parts.append(option + o)` adds. */
  function OptToken(option: string, o: Option<string>): seq<string> {
    if Given(o) then [option + o.value] else []
  }

  lemma AppendAssoc<T>(a: seq<T>, b: seq<T>, c: seq<T>)
    ensures a + b + c == a + (b + c)
  {
  }

  /** The token `if on: parts.append(switch)` adds. */
  function SwitchToken(on: bool, switch: string): seq<string> {
    if on then [switch] else []
  }

  /** The text an optional token adds to a joined command: a space, the option, its value. */
  function OptText(option: string, o: Option<string>): string {
    if Given(o) then Arg(option, o.value) else ""
  }

  /** The text a switch adds to a joined command. */
  function SwitchText(on: bool, switch: string): string {
    if on then Word(switch) else ""
  }

  lemma JoinOpt(parts: seq<string>, option: string, o: Option<string>)
    requires |parts| > 0
    ensures Join(" ", parts + OptToken(option, o)) == Join(" ", parts) + OptText(option, o)
  {
    if Given(o) {
      var t := option + o.value;
      assert parts + OptToken(option, o) == parts + [t];
      JoinSnoc(" ", parts, t);
      AppendAssoc(Join(" ", parts), " ", t);
      AppendAssoc(" ", option, o.value);
    } else {
      assert parts + OptToken(option, o) == parts;
    }
  }

  lemma JoinSwitch(parts: seq<string>, on: bool, switch: string)
    requires |parts| > 0
    ensures Join(" ", parts + SwitchToken(on, switch)) == Join(" ", parts) + SwitchText(on, switch)
  {
    if on {
      JoinSnoc(" ", parts, switch);
    } else {
      assert parts + SwitchToken(on, switch) == parts;
    }
  }

  // ---------------------------------------------------------------- flirt

  const FlirtNoOutput := "flirt requires at least one output (omat or out)"

  /** The tokens of a `flirt` command: input and reference, the outputs that are given,
      the interpolation, then the caller's flags. */
  function FlirtTokens(input: string, ref: string, omat: Option<string>, out: Option<string>,
                       inter: string, flags: seq<string>): seq<string>
  {
    ["flirt", "-in " + input, "-ref " + ref] + OptToken("-omat ", omat) + OptToken("-out ", out)
      + ["-inter " + inter] + flags
  }

  /** `flirt(...)`: a `ValueError` unless `omat` or `out` is given. */
  function FlirtCommand(input: string, ref: string, omat: Option<string> := None,
                        out: Option<string> := None, inter: string := "spline",
                        flags: seq<string> := []): (r: Result<string>)
    ensures r.Failure? <==> !Given(omat) && !Given(out)
    ensures r.Failure? ==> r.error == ValueError(FlirtNoOutput)
  {
    if !Given(omat) && !Given(out) then Failure(ValueError(FlirtNoOutput))
    else Success(Join(" ", FlirtTokens(input, ref, omat, out, inter, flags)))
  }

  method Flirt(input: string, ref: string, omat: Option<string> := None,
               out: Option<string> := None, inter: string := "spline",
               flags: seq<string> := []) returns (r: Result<string>)
    requires AllNoBraces(flags)
    ensures r == FlirtCommand(input, ref, omat, out, inter, flags)
  {
    var defFlags := ["-inter " + inter];
    if !(Given(omat) || Given(out)) {
      return Failure(ValueError(FlirtNoOutput));
    }
    var parts := ["flirt", "-in " + input, "-ref " + ref];
    ghost var sofar := parts;
    if Given(omat) { parts := parts + ["-omat " + omat.value]; }
    assert parts == sofar + OptToken("-omat ", omat);
    sofar := parts;
    if Given(out) { parts := parts + ["-out " + out.value]; }
    assert parts == sofar + OptToken("-out ", out);
    parts := parts + defFlags;
    if flags != [] { parts := parts + flags; }
    assert parts == FlirtTokens(input, ref, omat, out, inter, flags);
    r := Success(Join(" ", parts));
  }

  /** The joined `flirt` command reads `flirt -in I -ref R`, then `-omat M` and `-out O`
      when given, then `-inter T`, then the flags. */
  lemma FlirtText(input: string, ref: string, omat: Option<string>, out: Option<string>,
                  inter: string, flags: seq<string>)
    ensures Join(" ", FlirtTokens(input, ref, omat, out, inter, flags))
      == WithFlags("flirt" + Arg("-in ", input) + Arg("-ref ", ref) + OptText("-omat ", omat)
                   + OptText("-out ", out) + Arg("-inter ", inter), flags)
  {
    var p0 := ["flirt", "-in " + input, "-ref " + ref];
    var l1 := "flirt" + Arg("-in ", input);
    var l0 := l1 + Arg("-ref ", ref);
    assert Join(" ", p0) == l0 by {
      assert Join(" ", p0[..1]) == "flirt";
      JoinArg(p0, 1, "flirt", "-in ", input);
      JoinArg(p0, 2, l1, "-ref ", ref);
      assert p0[..3] == p0;
    }
    var p1 := p0 + OptToken("-omat ", omat);
    var l2 := l0 + OptText("-omat ", omat);
    JoinOpt(p0, "-omat ", omat);
    var p2 := p1 + OptToken("-out ", out);
    var l3 := l2 + OptText("-out ", out);
    JoinOpt(p1, "-out ", out);
    var p3 := p2 + ["-inter " + inter];
    assert Join(" ", p3) == l3 + Arg("-inter ", inter) by {
      JoinArg(p3, |p2|, l3, "-inter ", inter);
      assert p3[..|p2|] == p2 && p3[..|p2| + 1] == p3;
    }
    assert FlirtTokens(input, ref, omat, out, inter, flags) == p3 + flags;
    JoinWithFlags(p3, flags);
  }

  // ---------------------------------------------------------------- fnirt

  const FnirtNoOutput := "fnirt requires at least one output argument (cout or iout)"

  /** The tokens of a `fnirt` command: input and reference, then `--cout=`, `--iout=`,
      `--aff=` for those given, then the flags. */
  function FnirtTokens(input: string, ref: string, cout: Option<string>, iout: Option<string>,
                       aff: Option<string>, flags: seq<string>): seq<string>
  {
    ["fnirt", "--in=" + input, "--ref=" + ref] + OptToken("--cout=", cout)
      + OptToken("--iout=", iout) + OptToken("--aff=", aff) + flags
  }

  /** `fnirt(...)`: a `ValueError` unless `cout` or `iout` is given. */
  function FnirtCommand(input: string, ref: string, cout: Option<string> := None,
                        iout: Option<string> := None, aff: Option<string> := None,
                        flags: seq<string> := []): (r: Result<string>)
    ensures r.Failure? <==> !Given(cout) && !Given(iout)
    ensures r.Failure? ==> r.error == ValueError(FnirtNoOutput)
  {
    if !Given(cout) && !Given(iout) then Failure(ValueError(FnirtNoOutput))
    else Success(Join(" ", FnirtTokens(input, ref, cout, iout, aff, flags)))
  }

  method Fnirt(input: string, ref: string, cout: Option<string> := None,
               iout: Option<string> := None, aff: Option<string> := None,
               flags: seq<string> := []) returns (r: Result<string>)
    requires AllNoBraces(flags)
    ensures r == FnirtCommand(input, ref, cout, iout, aff, flags)
  {
    if !(Given(cout) || Given(iout)) {
      return Failure(ValueError(FnirtNoOutput));
    }
    var parts := ["fnirt", "--in=" + input, "--ref=" + ref];
    ghost var sofar := parts;
    if Given(cout) { parts := parts + ["--cout=" + cout.value]; }
    assert parts == sofar + OptToken("--cout=", cout);
    sofar := parts;
    if Given(iout) { parts := parts + ["--iout=" + iout.value]; }
    assert parts == sofar + OptToken("--iout=", iout);
    sofar := parts;
    if Given(aff) { parts := parts + ["--aff=" + aff.value]; }
    assert parts == sofar + OptToken("--aff=", aff);
    if flags != [] { parts := parts + flags; }
    assert parts == FnirtTokens(input, ref, cout, iout, aff, flags);
    r := Success(Join(" ", parts));
  }

  /** The joined `fnirt` command reads `fnirt --in=I --ref=R`, then `--cout=C`, `--iout=O`
      and `--aff=A` for those given, then the flags. */
  lemma FnirtText(input: string, ref: string, cout: Option<string>, iout: Option<string>,
                  aff: Option<string>, flags: seq<string>)
    ensures Join(" ", FnirtTokens(input, ref, cout, iout, aff, flags))
      == WithFlags("fnirt" + Arg("--in=", input) + Arg("--ref=", ref) + OptText("--cout=", cout)
                   + OptText("--iout=", iout) + OptText("--aff=", aff), flags)
  {
    var p0 := ["fnirt", "--in=" + input, "--ref=" + ref];
    var l1 := "fnirt" + Arg("--in=", input);
    var l0 := l1 + Arg("--ref=", ref);
    assert Join(" ", p0) == l0 by {
      assert Join(" ", p0[..1]) == "fnirt";
      JoinArg(p0, 1, "fnirt", "--in=", input);
      JoinArg(p0, 2, l1, "--ref=", ref);
      assert p0[..3] == p0;
    }
    var p1 := p0 + OptToken("--cout=", cout);
    JoinOpt(p0, "--cout=", cout);
    var p2 := p1 + OptToken("--iout=", iout);
    JoinOpt(p1, "--iout=", iout);
    var p3 := p2 + OptToken("--aff=", aff);
    JoinOpt(p2, "--aff=", aff);
    assert FnirtTokens(input, ref, cout, iout, aff, flags) == p3 + flags;
    JoinWithFlags(p3, flags);
  }

  // ---------------------------------------------------------------- invwarp

  /** The tokens of an `invwarp` command: exactly `-w`, `-r`, `-o`, then the flags. */
  function InvwarpTokens(warp: string, ref: string, out: string, flags: seq<string>): seq<string> {
    ["invwarp", "-w " + warp, "-r " + ref, "-o " + out] + flags
  }

  function InvwarpCommand(warp: string, ref: string, out: string, flags: seq<string> := []): string {
    Join(" ", InvwarpTokens(warp, ref, out, flags))
  }

  method Invwarp(warp: string, ref: string, out: string, flags: seq<string> := []) returns (r: string)
    requires AllNoBraces(flags)
    ensures r == InvwarpCommand(warp, ref, out, flags)
  {
    var parts := ["invwarp", "-w " + warp, "-r " + ref, "-o " + out];
    if flags != [] { parts := parts + flags; }
    assert parts == InvwarpTokens(warp, ref, out, flags);
    r := Join(" ", parts);
  }

  /** The `invwarp` command is exactly `invwarp -w W -r R -o O`, followed by the flags
      when there are any. */
  lemma InvwarpText(warp: string, ref: string, out: string, flags: seq<string>)
    ensures InvwarpCommand(warp, ref, out, flags)
      == WithFlags("invwarp" + Arg("-w ", warp) + Arg("-r ", ref) + Arg("-o ", out), flags)
  {
    var p0 := ["invwarp", "-w " + warp, "-r " + ref, "-o " + out];
    var l1 := "invwarp" + Arg("-w ", warp);
    var l2 := l1 + Arg("-r ", ref);
    assert Join(" ", p0[..1]) == "invwarp";
    JoinArg(p0, 1, "invwarp", "-w ", warp);
    JoinArg(p0, 2, l1, "-r ", ref);
    JoinArg(p0, 3, l2, "-o ", out);
    assert p0[..4] == p0;
    JoinWithFlags(p0, flags);
  }

  // ---------------------------------------------------------------- applywarp

  const Interps := ["nn", "trilinear", "sinc", "spline"]

  const InterpMessage := "interp param must be in nn trilinear sinc spline"

  /** The tokens of an `applywarp` command: `-i -o -r -w`, the interpolation, the two
      supersampling tokens when supersampling is on, then the flags. */
  function ApplywarpTokens(input: string, warp: string, ref: string, out: string, super: bool,
                           superlevel: string, interp: string, flags: seq<string>): seq<string>
  {
    ["applywarp", "-i " + input, "-o " + out, "-r " + ref, "-w " + warp, "--interp=" + interp]
      + (if super then ["-s", "--superlevel=" + superlevel] else []) + flags
  }

  /** `applywarp(...)`: a `ValueError` for an interpolation outside the four FSL knows. */
  function ApplywarpCommand(input: string, warp: string, ref: string, out: string,
                            super: bool := true, superlevel: string := "a",
                            interp: string := "spline", flags: seq<string> := []): (r: Result<string>)
    ensures r.Failure? <==> interp !in Interps
    ensures r.Failure? ==> r.error == ValueError(InterpMessage)
  {
    if interp !in Interps then Failure(ValueError(InterpMessage))
    else Success(Join(" ", ApplywarpTokens(input, warp, ref, out, super, superlevel, interp, flags)))
  }

  /** The interpolations accepted are exactly nearest neighbour, trilinear, sinc and spline. */
  lemma ApplywarpInterps(input: string, warp: string, ref: string, out: string, super: bool,
                         superlevel: string, interp: string, flags: seq<string>)
    ensures ApplywarpCommand(input, warp, ref, out, super, superlevel, interp, flags).Success?
      <==> interp == "nn" || interp == "trilinear" || interp == "sinc" || interp == "spline"
  {
  }

  method Applywarp(input: string, warp: string, ref: string, out: string,
                   super: bool := true, superlevel: string := "a",
                   interp: string := "spline", flags: seq<string> := []) returns (r: Result<string>)
    requires AllNoBraces(flags)
    ensures r == ApplywarpCommand(input, warp, ref, out, super, superlevel, interp, flags)
  {
    if interp !in Interps {
      return Failure(ValueError(InterpMessage));
    }
    var defFlags := ["--interp=" + interp];
    if super { defFlags := defFlags + ["-s", "--superlevel=" + superlevel]; }
    var parts := ["applywarp", "-i " + input, "-o " + out, "-r " + ref, "-w " + warp];
    parts := parts + defFlags;
    if flags != [] { parts := parts + flags; }
    assert parts == ApplywarpTokens(input, warp, ref, out, super, superlevel, interp, flags);
    r := Success(Join(" ", parts));
  }

  lemma ApplywarpHead(input: string, warp: string, ref: string, out: string, interp: string)
    ensures Join(" ", ["applywarp", "-i " + input, "-o " + out, "-r " + ref, "-w " + warp, "--interp=" + interp])
      == "applywarp" + Arg("-i ", input) + Arg("-o ", out) + Arg("-r ", ref) + Arg("-w ", warp)
         + Arg("--interp=", interp)
  {
    var p := ["applywarp", "-i " + input, "-o " + out, "-r " + ref, "-w " + warp, "--interp=" + interp];
    var l1 := "applywarp" + Arg("-i ", input);
    var l2 := l1 + Arg("-o ", out);
    var l3 := l2 + Arg("-r ", ref);
    var l4 := l3 + Arg("-w ", warp);
    assert Join(" ", p[..1]) == "applywarp";
    JoinArg(p, 1, "applywarp", "-i ", input);
    JoinArg(p, 2, l1, "-o ", out);
    JoinArg(p, 3, l2, "-r ", ref);
    JoinArg(p, 4, l3, "-w ", warp);
    JoinArg(p, 5, l4, "--interp=", interp);
    assert p[..6] == p;
  }

  /** The joined `applywarp` command reads `applywarp -i I -o O -r R -w W --interp=T`,
      then `-s --superlevel=L` when supersampling, then the flags. */
  lemma ApplywarpText(input: string, warp: string, ref: string, out: string, super: bool,
                      superlevel: string, interp: string, flags: seq<string>)
    ensures Join(" ", ApplywarpTokens(input, warp, ref, out, super, superlevel, interp, flags))
      == WithFlags("applywarp" + Arg("-i ", input) + Arg("-o ", out) + Arg("-r ", ref)
                   + Arg("-w ", warp) + Arg("--interp=", interp)
                   + (if super then Word("-s") + Arg("--superlevel=", superlevel) else ""), flags)
  {
    var p0 := ["applywarp", "-i " + input, "-o " + out, "-r " + ref, "-w " + warp, "--interp=" + interp];
    ApplywarpHead(input, warp, ref, out, interp);
    var l0 := Join(" ", p0);
    var p1 := p0 + (if super then ["-s", "--superlevel=" + superlevel] else []);
    assert Join(" ", p1) == l0 + (if super then Word("-s") + Arg("--superlevel=", superlevel) else "") by {
      if super {
        var q := p0 + ["-s"];
        JoinSnoc(" ", p0, "-s");
        assert p1 == q + ["--superlevel=" + superlevel];
        JoinSnoc(" ", q, "--superlevel=" + superlevel);
      } else {
        assert p1 == p0;
      }
    }
    assert ApplywarpTokens(input, warp, ref, out, super, superlevel, interp, flags) == p1 + flags;
    JoinWithFlags(p1, flags);
  }

  // ---------------------------------------------------------------- convert_xfm

  const ConvertXfmMessage := "Must pass either inverse or concat but not both"

  /** `'{} {}'.format(*concat)`: the first two matrices, one space apart. */
  function Pair(concat: seq<string>): string
    requires |concat| >= 2
  {
    concat[0] + " " + concat[1]
  }

  /** The tokens of a `convert_xfm` command around its one operation token. */
  function ConvertXfmTokens(omat: string, operation: string, fixscaleskew: Option<string>): seq<string>
  {
    ["convert_xfm", "-omat " + omat, operation] + OptToken("-fixscaleskew ", fixscaleskew)
  }

  /** `convert_xfm(...)`. The guard counts the arguments that are not `None`, but the
      branch after it tests the truthiness of `inverse`: an empty `inverse` falls through
      to `'-concat {} {}'.format(*concat)` with no `concat` (a `TypeError`), and a `concat`
      of fewer than two items runs out of positional arguments (an `IndexError`); items
      after the second are ignored by `format`. */
  function ConvertXfmCommand(omat: string, inverse: Option<string> := None,
                             concat: Option<seq<string>> := None,
                             fixscaleskew: Option<string> := None): (r: Result<string>)
    ensures (r.Failure? && r.error.ValueError?) <==> (inverse.Some? == concat.Some?)
    ensures r.Success? <==>
      inverse.Some? != concat.Some? && (Given(inverse) || (concat.Some? && |concat.value| >= 2))
  {
    if inverse.Some? == concat.Some? then Failure(ValueError(ConvertXfmMessage))
    else if Given(inverse) then
      Success(Join(" ", ConvertXfmTokens(omat, "-inverse " + inverse.value, fixscaleskew)))
    else if concat.None? then Failure(TypeError)
    else if |concat.value| < 2 then Failure(IndexError)
    else
      Success(Join(" ", ConvertXfmTokens(omat, "-concat " + Pair(concat.value), fixscaleskew)))
  }

  method ConvertXfm(omat: string, inverse: Option<string> := None,
                    concat: Option<seq<string>> := None,
                    fixscaleskew: Option<string> := None) returns (r: Result<string>)
    requires concat.Some? && |concat.value| >= 2 ==> AllNoBraces(concat.value[..2])
    ensures r == ConvertXfmCommand(omat, inverse, concat, fixscaleskew)
  {
    if (if inverse.None? then 1 else 0) + (if concat.None? then 1 else 0) != 1 {
      return Failure(ValueError(ConvertXfmMessage));
    }
    var parts := ["convert_xfm", "-omat " + omat];
    if Given(inverse) {
      parts := parts + ["-inverse " + inverse.value];
    } else {
      if concat.None? { return Failure(TypeError); }
      if |concat.value| < 2 { return Failure(IndexError); }
      parts := parts + ["-concat " + Pair(concat.value)];
    }
    ghost var sofar := parts;
    if Given(fixscaleskew) { parts := parts + ["-fixscaleskew " + fixscaleskew.value]; }
    assert parts == sofar + OptToken("-fixscaleskew ", fixscaleskew);
    assert parts == ConvertXfmTokens(omat, sofar[2], fixscaleskew);
    r := Success(Join(" ", parts));
  }

  lemma ConvertXfmJoin(omat: string, option: string, operand: string, fixscaleskew: Option<string>)
    ensures Join(" ", ConvertXfmTokens(omat, option + operand, fixscaleskew))
      == "convert_xfm" + Arg("-omat ", omat) + Arg(option, operand) + OptText("-fixscaleskew ", fixscaleskew)
  {
    var p0 := ["convert_xfm", "-omat " + omat, option + operand];
    var l1 := "convert_xfm" + Arg("-omat ", omat);
    assert Join(" ", p0) == l1 + Arg(option, operand) by {
      assert Join(" ", p0[..1]) == "convert_xfm";
      JoinArg(p0, 1, "convert_xfm", "-omat ", omat);
      JoinArg(p0, 2, l1, option, operand);
      assert p0[..3] == p0;
    }
    JoinOpt(p0, "-fixscaleskew ", fixscaleskew);
  }

  /** A successful `convert_xfm` reads `convert_xfm -omat M`, then `-inverse I`, or
      `-concat B A` with the first two matrices in the order given, then
      `-fixscaleskew F` last when given. */
  lemma ConvertXfmText(omat: string, inverse: Option<string>, concat: Option<seq<string>>,
                       fixscaleskew: Option<string>)
    ensures (Given(inverse) && concat.None?) ==>
      ConvertXfmCommand(omat, inverse, concat, fixscaleskew)
        == Success("convert_xfm" + Arg("-omat ", omat) + Arg("-inverse ", inverse.value)
                   + OptText("-fixscaleskew ", fixscaleskew))
    ensures (inverse.None? && concat.Some? && |concat.value| >= 2) ==>
      ConvertXfmCommand(omat, inverse, concat, fixscaleskew)
        == Success("convert_xfm" + Arg("-omat ", omat) + Arg("-concat ", Pair(concat.value))
                   + OptText("-fixscaleskew ", fixscaleskew))
  {
    if Given(inverse) && concat.None? {
      ConvertXfmJoin(omat, "-inverse ", inverse.value, fixscaleskew);
    }
    if inverse.None? && concat.Some? && |concat.value| >= 2 {
      ConvertXfmJoin(omat, "-concat ", Pair(concat.value), fixscaleskew);
    }
  }

  // ---------------------------------------------------------------- bet

  /** The tokens of a `bet` command: input root, output root, the `-f` threshold, `-m`
      when a mask is wanted, then the flags. */
  function BetTokens(input: string, output: string, frac: string, mask: bool, flags: seq<string>): seq<string>
  {
    ["bet", input, output, "-f " + frac] + SwitchToken(mask, "-m") + flags
  }

  function BetCommand(input: string, output: string, frac: string := "0.5", mask: bool := false,
                      flags: seq<string> := []): string
  {
    Join(" ", BetTokens(input, output, frac, mask, flags))
  }

  method Bet(input: string, output: string, frac: string := "0.5", mask: bool := false,
             flags: seq<string> := []) returns (r: string)
    requires AllNoBraces(flags)
    ensures r == BetCommand(input, output, frac, mask, flags)
  {
    var parts := ["bet", input, output, "-f " + frac];
    ghost var sofar := parts;
    if mask { parts := parts + ["-m"]; }
    assert parts == sofar + SwitchToken(mask, "-m");
    if flags != [] { parts := parts + flags; }
    assert parts == BetTokens(input, output, frac, mask, flags);
    r := Join(" ", parts);
  }

  /** The `bet` command reads `bet I O -f F`, then `-m` exactly when a mask is wanted,
      then the flags. */
  lemma BetText(input: string, output: string, frac: string, mask: bool, flags: seq<string>)
    ensures BetCommand(input, output, frac, mask, flags)
      == WithFlags("bet" + Word(input) + Word(output) + Arg("-f ", frac) + SwitchText(mask, "-m"), flags)
  {
    var p0 := ["bet", input, output, "-f " + frac];
    var l1 := "bet" + Word(input);
    var l2 := l1 + Word(output);
    var l0 := l2 + Arg("-f ", frac);
    assert Join(" ", p0) == l0 by {
      assert Join(" ", p0[..1]) == "bet";
      JoinWord(p0, 1, "bet");
      JoinWord(p0, 2, l1);
      JoinArg(p0, 3, l2, "-f ", frac);
      assert p0[..4] == p0;
    }
    var p1 := p0 + SwitchToken(mask, "-m");
    JoinSwitch(p0, mask, "-m");
    assert BetTokens(input, output, frac, mask, flags) == p1 + flags;
    JoinWithFlags(p1, flags);
  }

  // ---------------------------------------------------------------- probtrackx2

  const MeshSpaces := ["caret", "freesurfer", "first", "voxel"]

  /** The sixteen tokens `probtrackx2` always carries: inputs, output, the forced output
      directory and the tracking parameters. */
  function ProbtrackxFixed(samples: string, mask: string, seed: string, out: string, directory: string,
                           nsamples: int, nsteps: int, steplength: string, distthresh: string,
                           cthr: string, fibthresh: string, randfib: int, sampvox: int,
                           verbose: int): seq<string>
  {
    ["probtrackx2", "-s " + samples, "-m " + mask, "-x " + seed, "-o " + out,
     "--dir=" + directory, "--forcedir", "-P " + IntToString(nsamples), "-S " + IntToString(nsteps),
     "--steplength=" + steplength, "--distthresh=" + distthresh, "--cthr=" + cthr,
     "--fibthresh=" + fibthresh, "--randfib=" + IntToString(randfib),
     "--sampvox=" + IntToString(sampvox), "--verbose=" + IntToString(verbose)]
  }

  /** The seven optional switches, each appended when its flag is set. */
  function Switches(opd: bool, pd: bool, usef: bool, loopcheck: bool, modeuler: bool,
                    os2t: bool, s2tastext: bool): seq<string>
  {
    SwitchToken(opd, "--opd") + SwitchToken(pd, "--pd") + SwitchToken(usef, "--usef")
      + SwitchToken(loopcheck, "--loopcheck") + SwitchToken(modeuler, "--modeuler")
      + SwitchToken(os2t, "--os2t") + SwitchToken(s2tastext, "--s2tastext")
  }

  /** The tokens of a `probtrackx2` command: the fixed tokens, the transforms and seed
      reference that are given, the mesh space (`if meshspace:`), the switches, then the
      flags. */
  function Probtrackx2Tokens(samples: string, mask: string, seed: string, out: string, directory: string,
                             nsamples: int, nsteps: int, steplength: string, distthresh: string,
                             cthr: string, fibthresh: string, randfib: int, sampvox: int,
                             verbose: int, xfm: Option<string>, invxfm: Option<string>,
                             seedref: Option<string>, meshspace: string, opd: bool, pd: bool,
                             usef: bool, loopcheck: bool, modeuler: bool, os2t: bool,
                             s2tastext: bool, flags: seq<string>): seq<string>
  {
    ProbtrackxFixed(samples, mask, seed, out, directory, nsamples, nsteps, steplength, distthresh,
                    cthr, fibthresh, randfib, sampvox, verbose)
      + OptToken("--xfm=", xfm) + OptToken("--invxfm=", invxfm) + OptToken("--seedref=", seedref)
      + OptToken("--meshspace=", Some(meshspace))
      + Switches(opd, pd, usef, loopcheck, modeuler, os2t, s2tastext) + flags
  }

  /** `probtrackx2(...)`: the mesh space must be one of four (an `assert` in the source). */
  function Probtrackx2Command(samples: string, mask: string, seed: string,
                              out: string := "fdt_paths", directory: string := "logdir",
                              nsamples: int := 5000, nsteps: int := 2000, steplength: string := "0.5",
                              distthresh: string := "0", cthr: string := "0.2",
                              fibthresh: string := "0.01", randfib: int := 0, sampvox: int := 0,
                              verbose: int := 0, xfm: Option<string> := None,
                              invxfm: Option<string> := None, seedref: Option<string> := None,
                              meshspace: string := "caret", opd: bool := true, pd: bool := false,
                              usef: bool := false, loopcheck: bool := false, modeuler: bool := false,
                              os2t: bool := true, s2tastext: bool := true,
                              flags: seq<string> := []): (r: Result<string>)
    ensures r.Failure? <==> meshspace !in MeshSpaces
    ensures r.Failure? ==> r.error == AssertionError
  {
    if meshspace !in MeshSpaces then Failure(AssertionError)
    else Success(Join(" ", Probtrackx2Tokens(samples, mask, seed, out, directory, nsamples, nsteps,
                                             steplength, distthresh, cthr, fibthresh, randfib, sampvox,
                                             verbose, xfm, invxfm, seedref, meshspace, opd, pd, usef,
                                             loopcheck, modeuler, os2t, s2tastext, flags)))
  }

  /** An accepted mesh space: the command is the join of the tokens. */
  lemma Probtrackx2Accepts(samples: string, mask: string, seed: string, out: string, directory: string,
                           nsamples: int, nsteps: int, steplength: string, distthresh: string,
                           cthr: string, fibthresh: string, randfib: int, sampvox: int,
                           verbose: int, xfm: Option<string>, invxfm: Option<string>,
                           seedref: Option<string>, meshspace: string, opd: bool, pd: bool,
                           usef: bool, loopcheck: bool, modeuler: bool, os2t: bool,
                           s2tastext: bool, flags: seq<string>)
    requires meshspace in MeshSpaces
    ensures Probtrackx2Command(samples, mask, seed, out, directory, nsamples, nsteps, steplength,
                               distthresh, cthr, fibthresh, randfib, sampvox, verbose, xfm, invxfm,
                               seedref, meshspace, opd, pd, usef, loopcheck, modeuler, os2t,
                               s2tastext, flags)
      == Success(Join(" ", Probtrackx2Tokens(samples, mask, seed, out, directory, nsamples, nsteps,
                                             steplength, distthresh, cthr, fibthresh, randfib, sampvox,
                                             verbose, xfm, invxfm, seedref, meshspace, opd, pd, usef,
                                             loopcheck, modeuler, os2t, s2tastext, flags)))
  {
  }

  method Probtrackx2(samples: string, mask: string, seed: string,
                     out: string := "fdt_paths", directory: string := "logdir",
                     nsamples: int := 5000, nsteps: int := 2000, steplength: string := "0.5",
                     distthresh: string := "0", cthr: string := "0.2",
                     fibthresh: string := "0.01", randfib: int := 0, sampvox: int := 0,
                     verbose: int := 0, xfm: Option<string> := None,
                     invxfm: Option<string> := None, seedref: Option<string> := None,
                     meshspace: string := "caret", opd: bool := true, pd: bool := false,
                     usef: bool := false, loopcheck: bool := false, modeuler: bool := false,
                     os2t: bool := true, s2tastext: bool := true,
                     flags: seq<string> := []) returns (r: Result<string>)
    requires AllNoBraces(flags)
    ensures r == Probtrackx2Command(samples, mask, seed, out, directory, nsamples, nsteps, steplength,
                                    distthresh, cthr, fibthresh, randfib, sampvox, verbose, xfm, invxfm,
                                    seedref, meshspace, opd, pd, usef, loopcheck, modeuler, os2t,
                                    s2tastext, flags)
  {
    if meshspace !in MeshSpaces {
      return Failure(AssertionError);
    }
    // The source's literal list of the sixteen fixed tokens.
    var parts := ProbtrackxFixed(samples, mask, seed, out, directory, nsamples, nsteps, steplength,
                                 distthresh, cthr, fibthresh, randfib, sampvox, verbose);
    ghost var fixed := parts;
    // Each `if value: parts.append(...)` below is one conditional append, its condition
    // stated by `OptToken` and `SwitchToken`.
    parts := parts + OptToken("--xfm=", xfm);
    parts := parts + OptToken("--invxfm=", invxfm);
    parts := parts + OptToken("--seedref=", seedref);
    parts := parts + OptToken("--meshspace=", Some(meshspace));
    ghost var options := parts;
    // `sw` holds the switches appended so far, grouped as in `Switches`.
    parts := parts + SwitchToken(opd, "--opd");
    ghost var sw := SwitchToken(opd, "--opd");
    parts := parts + SwitchToken(pd, "--pd");
    AppendAssoc(options, sw, SwitchToken(pd, "--pd"));
    sw := sw + SwitchToken(pd, "--pd");
    parts := parts + SwitchToken(usef, "--usef");
    AppendAssoc(options, sw, SwitchToken(usef, "--usef"));
    sw := sw + SwitchToken(usef, "--usef");
    parts := parts + SwitchToken(loopcheck, "--loopcheck");
    AppendAssoc(options, sw, SwitchToken(loopcheck, "--loopcheck"));
    sw := sw + SwitchToken(loopcheck, "--loopcheck");
    parts := parts + SwitchToken(modeuler, "--modeuler");
    AppendAssoc(options, sw, SwitchToken(modeuler, "--modeuler"));
    sw := sw + SwitchToken(modeuler, "--modeuler");
    parts := parts + SwitchToken(os2t, "--os2t");
    AppendAssoc(options, sw, SwitchToken(os2t, "--os2t"));
    sw := sw + SwitchToken(os2t, "--os2t");
    parts := parts + SwitchToken(s2tastext, "--s2tastext");
    AppendAssoc(options, sw, SwitchToken(s2tastext, "--s2tastext"));
    sw := sw + SwitchToken(s2tastext, "--s2tastext");
    assert sw == Switches(opd, pd, usef, loopcheck, modeuler, os2t, s2tastext);
    ghost var tokens := Probtrackx2Tokens(samples, mask, seed, out, directory, nsamples, nsteps,
                                          steplength, distthresh, cthr, fibthresh, randfib, sampvox,
                                          verbose, xfm, invxfm, seedref, meshspace, opd, pd, usef,
                                          loopcheck, modeuler, os2t, s2tastext, flags);
    assert tokens == options + sw + flags;
    if flags != [] { parts := parts + flags; }
    assert parts == tokens;
    Probtrackx2Accepts(samples, mask, seed, out, directory, nsamples, nsteps, steplength,
                       distthresh, cthr, fibthresh, randfib, sampvox, verbose, xfm, invxfm,
                       seedref, meshspace, opd, pd, usef, loopcheck, modeuler, os2t, s2tastext, flags);
    r := Success(Join(" ", parts));
  }

  /** Every `probtrackx2` token list starts with the sixteen fixed tokens, whatever the
      options: the program, the inputs and output, the directory with `--forcedir`, and the
      tracking parameters, in this order. */
  lemma Probtrackx2Forcedir(samples: string, mask: string, seed: string, out: string, directory: string,
                            nsamples: int, nsteps: int, steplength: string, distthresh: string,
                            cthr: string, fibthresh: string, randfib: int, sampvox: int,
                            verbose: int, xfm: Option<string>, invxfm: Option<string>,
                            seedref: Option<string>, meshspace: string, opd: bool, pd: bool,
                            usef: bool, loopcheck: bool, modeuler: bool, os2t: bool,
                            s2tastext: bool, flags: seq<string>)
    ensures var t := Probtrackx2Tokens(samples, mask, seed, out, directory, nsamples, nsteps,
                                       steplength, distthresh, cthr, fibthresh, randfib, sampvox,
                                       verbose, xfm, invxfm, seedref, meshspace, opd, pd, usef,
                                       loopcheck, modeuler, os2t, s2tastext, flags);
      && |t| >= 16
      && t[..16] == ["probtrackx2", "-s " + samples, "-m " + mask, "-x " + seed, "-o " + out,
                     "--dir=" + directory, "--forcedir", "-P " + IntToString(nsamples),
                     "-S " + IntToString(nsteps), "--steplength=" + steplength,
                     "--distthresh=" + distthresh, "--cthr=" + cthr, "--fibthresh=" + fibthresh,
                     "--randfib=" + IntToString(randfib), "--sampvox=" + IntToString(sampvox),
                     "--verbose=" + IntToString(verbose)]
  {
    var f := ProbtrackxFixed(samples, mask, seed, out, directory, nsamples, nsteps, steplength,
                             distthresh, cthr, fibthresh, randfib, sampvox, verbose);
    var rest := OptToken("--xfm=", xfm) + OptToken("--invxfm=", invxfm) + OptToken("--seedref=", seedref)
      + OptToken("--meshspace=", Some(meshspace))
      + Switches(opd, pd, usef, loopcheck, modeuler, os2t, s2tastext) + flags;
    assert Probtrackx2Tokens(samples, mask, seed, out, directory, nsamples, nsteps,
                             steplength, distthresh, cthr, fibthresh, randfib, sampvox,
                             verbose, xfm, invxfm, seedref, meshspace, opd, pd, usef,
                             loopcheck, modeuler, os2t, s2tastext, flags) == f + rest by {
      var a := OptToken("--xfm=", xfm);
      var b := OptToken("--invxfm=", invxfm);
      var c := OptToken("--seedref=", seedref);
      var m := OptToken("--meshspace=", Some(meshspace));
      var sw := Switches(opd, pd, usef, loopcheck, modeuler, os2t, s2tastext);
      AppendAssoc(f, a, b);
      AppendAssoc(f, a + b, c);
      AppendAssoc(f, a + b + c, m);
      AppendAssoc(f, a + b + c + m, sw);
      AppendAssoc(f, a + b + c + m + sw, flags);
    }
    assert (f + rest)[..16] == f;
  }

  /** The switches joined onto a command line: each set switch adds one space and its
      name, in the fixed order. */
  lemma SwitchesJoin(parts: seq<string>, opd: bool, pd: bool, usef: bool, loopcheck: bool,
                     modeuler: bool, os2t: bool, s2tastext: bool)
    requires |parts| > 0
    ensures Join(" ", parts + Switches(opd, pd, usef, loopcheck, modeuler, os2t, s2tastext))
      == Join(" ", parts) + SwitchText(opd, "--opd") + SwitchText(pd, "--pd") + SwitchText(usef, "--usef")
         + SwitchText(loopcheck, "--loopcheck") + SwitchText(modeuler, "--modeuler")
         + SwitchText(os2t, "--os2t") + SwitchText(s2tastext, "--s2tastext")
  {
    var c1 := SwitchToken(opd, "--opd");
    var q1 := parts + c1;
    JoinSwitch(parts, opd, "--opd");
    var c2 := c1 + SwitchToken(pd, "--pd");
    var q2 := q1 + SwitchToken(pd, "--pd");
    JoinSwitch(q1, pd, "--pd");
    AppendAssoc(parts, c1, SwitchToken(pd, "--pd"));
    var c3 := c2 + SwitchToken(usef, "--usef");
    var q3 := q2 + SwitchToken(usef, "--usef");
    JoinSwitch(q2, usef, "--usef");
    AppendAssoc(parts, c2, SwitchToken(usef, "--usef"));
    var c4 := c3 + SwitchToken(loopcheck, "--loopcheck");
    var q4 := q3 + SwitchToken(loopcheck, "--loopcheck");
    JoinSwitch(q3, loopcheck, "--loopcheck");
    AppendAssoc(parts, c3, SwitchToken(loopcheck, "--loopcheck"));
    var c5 := c4 + SwitchToken(modeuler, "--modeuler");
    var q5 := q4 + SwitchToken(modeuler, "--modeuler");
    JoinSwitch(q4, modeuler, "--modeuler");
    AppendAssoc(parts, c4, SwitchToken(modeuler, "--modeuler"));
    var c6 := c5 + SwitchToken(os2t, "--os2t");
    var q6 := q5 + SwitchToken(os2t, "--os2t");
    JoinSwitch(q5, os2t, "--os2t");
    AppendAssoc(parts, c5, SwitchToken(os2t, "--os2t"));
    JoinSwitch(q6, s2tastext, "--s2tastext");
    AppendAssoc(parts, c6, SwitchToken(s2tastext, "--s2tastext"));
  }

  /** The joined `probtrackx2` command: the fixed part, the given transforms and seed
      reference, `--meshspace=`, the switches that are set, then the flags. */
  lemma Probtrackx2Text(samples: string, mask: string, seed: string, out: string, directory: string,
                        nsamples: int, nsteps: int, steplength: string, distthresh: string,
                        cthr: string, fibthresh: string, randfib: int, sampvox: int,
                        verbose: int, xfm: Option<string>, invxfm: Option<string>,
                        seedref: Option<string>, meshspace: string, opd: bool, pd: bool,
                        usef: bool, loopcheck: bool, modeuler: bool, os2t: bool,
                        s2tastext: bool, flags: seq<string>)
    requires meshspace in MeshSpaces
    ensures Probtrackx2Command(samples, mask, seed, out, directory, nsamples, nsteps, steplength,
                               distthresh, cthr, fibthresh, randfib, sampvox, verbose, xfm, invxfm,
                               seedref, meshspace, opd, pd, usef, loopcheck, modeuler, os2t,
                               s2tastext, flags)
      == Success(WithFlags(
           Join(" ", ProbtrackxFixed(samples, mask, seed, out, directory, nsamples, nsteps, steplength,
                                     distthresh, cthr, fibthresh, randfib, sampvox, verbose))
           + OptText("--xfm=", xfm) + OptText("--invxfm=", invxfm) + OptText("--seedref=", seedref)
           + Arg("--meshspace=", meshspace)
           + SwitchText(opd, "--opd") + SwitchText(pd, "--pd") + SwitchText(usef, "--usef")
           + SwitchText(loopcheck, "--loopcheck") + SwitchText(modeuler, "--modeuler")
           + SwitchText(os2t, "--os2t") + SwitchText(s2tastext, "--s2tastext"), flags))
  {
    var p0 := ProbtrackxFixed(samples, mask, seed, out, directory, nsamples, nsteps, steplength,
                              distthresh, cthr, fibthresh, randfib, sampvox, verbose);
    var p1 := p0 + OptToken("--xfm=", xfm);
    JoinOpt(p0, "--xfm=", xfm);
    var p2 := p1 + OptToken("--invxfm=", invxfm);
    JoinOpt(p1, "--invxfm=", invxfm);
    var p3 := p2 + OptToken("--seedref=", seedref);
    JoinOpt(p2, "--seedref=", seedref);
    var p4 := p3 + OptToken("--meshspace=", Some(meshspace));
    JoinOpt(p3, "--meshspace=", Some(meshspace));
    var p5 := p4 + Switches(opd, pd, usef, loopcheck, modeuler, os2t, s2tastext);
    SwitchesJoin(p4, opd, pd, usef, loopcheck, modeuler, os2t, s2tastext);
    JoinWithFlags(p5, flags);
  }

  // ---------------------------------------------------------------- switch order

  const SwitchNames := ["--opd", "--pd", "--usef", "--loopcheck", "--modeuler", "--os2t", "--s2tastext"]

  /** The place of a switch in the fixed order; 7 for any other token. */
  function Rank(x: string): (k: nat)
    ensures k <= 7 && (k < 7 ==> SwitchNames[k] == x)
  {
    if x == "--opd" then 0 else if x == "--pd" then 1 else if x == "--usef" then 2
    else if x == "--loopcheck" then 3 else if x == "--modeuler" then 4
    else if x == "--os2t" then 5 else if x == "--s2tastext" then 6 else 7
  }

  lemma RankOfNames()
    ensures forall k :: 0 <= k < 7 ==> Rank(SwitchNames[k]) == k
  {
  }

  /** The first `r` switches in the fixed order, each kept when its flag is set: an
      independent reading of the seven `if`s. */
  function Chain(on: seq<bool>, r: nat): seq<string>
    requires |on| == 7 && r <= 7
  {
    if r == 0 then [] else Chain(on, r - 1) + SwitchToken(on[r - 1], SwitchNames[r - 1])
  }

  lemma {:induction false} ChainMembers(on: seq<bool>, r: nat)
    requires |on| == 7 && r <= 7
    ensures forall x :: x in Chain(on, r) <==> Rank(x) < r && on[Rank(x)]
  {
    if r > 0 {
      ChainMembers(on, r - 1);
      RankOfNames();
    }
  }

  lemma {:induction false} ChainRanked(on: seq<bool>, r: nat)
    requires |on| == 7 && r <= 7
    ensures forall i :: 0 <= i < |Chain(on, r)| ==> Rank(Chain(on, r)[i]) < r
    ensures forall i, j :: 0 <= i < j < |Chain(on, r)| ==> Rank(Chain(on, r)[i]) < Rank(Chain(on, r)[j])
  {
    if r > 0 {
      ChainRanked(on, r - 1);
      RankOfNames();
    }
  }

  lemma SwitchesChain(on: seq<bool>)
    requires |on| == 7
    ensures Switches(on[0], on[1], on[2], on[3], on[4], on[5], on[6]) == Chain(on, 7)
  {
    var c1 := SwitchToken(on[0], "--opd");
    assert Chain(on, 1) == c1 by { assert Chain(on, 1) == [] + c1; }
    var c2 := c1 + SwitchToken(on[1], "--pd");
    assert Chain(on, 2) == c2;
    var c3 := c2 + SwitchToken(on[2], "--usef");
    assert Chain(on, 3) == c3;
    var c4 := c3 + SwitchToken(on[3], "--loopcheck");
    assert Chain(on, 4) == c4;
    var c5 := c4 + SwitchToken(on[4], "--modeuler");
    assert Chain(on, 5) == c5;
    var c6 := c5 + SwitchToken(on[5], "--os2t");
    assert Chain(on, 6) == c6;
  }

  /** For any setting `on` of the seven flags (`opd pd usef loopcheck modeuler os2t
      s2tastext`, in that order): every switch token is one of the seven, each switch is
      present exactly when its flag is set, and the switches present come in the fixed
      order `--opd --pd --usef --loopcheck --modeuler --os2t --s2tastext`. */
  lemma SwitchesExact(on: seq<bool>)
    requires |on| == 7
    ensures var s := Switches(on[0], on[1], on[2], on[3], on[4], on[5], on[6]);
      (forall i :: 0 <= i < |s| ==> s[i] in SwitchNames)
      && (forall k :: 0 <= k < 7 ==> (SwitchNames[k] in s <==> on[k]))
      && (forall i, j :: 0 <= i < j < |s| ==> Rank(s[i]) < Rank(s[j]))
  {
    SwitchesChain(on);
    ChainMembers(on, 7);
    ChainRanked(on, 7);
    RankOfNames();
  }
}
