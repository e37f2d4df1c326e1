/** The FreeSurfer formatters of seam/freesurfer/v1/core.py: the `recon-all` command lines,
    the Tcl scripts that drive `tkmedit` and `tksurfer`, and the commands that run them. */
module FreesurferCore {
  import opened Results
  import opened Text
  import PosixPath

  /** `base_parts` once `{subject_id}` is filled in: the program and its subject option. */
  function BaseParts(subjectId: string): seq<string> {
    ["recon-all", "-s " + subjectId]
  }

  /** The tokens `recon_all` always adds after `base_parts`. */
  const ReconAllFixed: seq<string> :=
    ["-all", "-qcache", "-measure thickness", "-measure curv", "-measure sulc",
     "-measure area", "-measure jacobian_white"]

  function ReconAllTokens(subjectId: string, flags: seq<string>): seq<string> {
    BaseParts(subjectId) + ReconAllFixed + flags
  }

  /** What `recon_all(subject_id, flags)` returns: the tokens joined by single spaces. */
  function ReconAllCommand(subjectId: string, flags: seq<string>): string {
    Join(" ", ReconAllTokens(subjectId, flags))
  }

  /** `recon_all`. The flags are part of the string that is formatted afterwards, so they
      must hold no braces for that pass to leave them as they are. */
  method ReconAll(subjectId: string, flags: seq<string>) returns (r: string)
    requires AllNoBraces(flags)
    ensures r == ReconAllCommand(subjectId, flags)
  {
    var parts := BaseParts(subjectId) + ReconAllFixed;
    if flags != [] {
      parts := parts + flags;
    } else {
      assert parts == parts + flags;
    }
    r := Join(" ", parts);
  }

  /** The text of the fixed prefix: program, subject, `-all -qcache` and the five measures. */
  function ReconAllPrefix(subjectId: string): string {
    "recon-all" + Arg("-s ", subjectId) + Word("-all") + Word("-qcache")
    + Word("-measure thickness") + Word("-measure curv") + Word("-measure sulc")
    + Word("-measure area") + Word("-measure jacobian_white")
  }

  /** `recon_all` is the fixed prefix, then the flags in order, one space apart. */
  lemma ReconAllText(subjectId: string, flags: seq<string>)
    ensures ReconAllCommand(subjectId, flags) == WithFlags(ReconAllPrefix(subjectId), flags)
  {
    var head := BaseParts(subjectId) + ReconAllFixed;
    var line := "recon-all" + Arg("-s ", subjectId);
    assert head[..2] == BaseParts(subjectId);
    assert Join(" ", head[..2]) == line;
    JoinWord(head, 2, line);
    line := line + Word(head[2]);
    JoinWord(head, 3, line);
    line := line + Word(head[3]);
    JoinWord(head, 4, line);
    line := line + Word(head[4]);
    JoinWord(head, 5, line);
    line := line + Word(head[5]);
    JoinWord(head, 6, line);
    line := line + Word(head[6]);
    JoinWord(head, 7, line);
    line := line + Word(head[7]);
    JoinWord(head, 8, line);
    line := line + Word(head[8]);
    assert head[..9] == head;
    JoinWithFlags(head, flags);
  }

  /** Called without flags, `recon_all` is exactly the fixed prefix. */
  lemma ReconAllNoFlags(subjectId: string)
    ensures ReconAllCommand(subjectId, []) == ReconAllPrefix(subjectId)
  {
    ReconAllText(subjectId, []);
  }

  /** The `-i` token of each input path, in input order (the list comprehension of
      `recon_input`). */
  function InputTokens(data: seq<string>): (r: seq<string>)
    ensures |r| == |data|
  {
    seq(|data|, k requires 0 <= k < |data| => "-i " + data[k])
  }

  /** What `recon_input(subject_id, data)` returns. */
  function ReconInputCommand(subjectId: string, data: seq<string>): string {
    Join(" ", BaseParts(subjectId) + InputTokens(data))
  }

  /** `recon_input`. A single path is the list holding that path. The paths are part of the
      formatted string, so they must hold no braces. */
  method ReconInput(subjectId: string, data: seq<string>) returns (r: string)
    requires AllNoBraces(data)
    ensures r == ReconInputCommand(subjectId, data)
  {
    var parts := BaseParts(subjectId);
    parts := parts + InputTokens(data);
    r := Join(" ", parts);
  }

  /** The text the `-i` tokens add: one ` -i path` per path, in order. */
  function InputArgs(data: seq<string>): string
    decreases |data|
  {
    if data == [] then "" else InputArgs(data[..|data| - 1]) + Arg("-i ", data[|data| - 1])
  }

  /** `recon_input` is `recon-all -s id` followed by one ` -i path` per path, in order. */
  lemma {:induction false} ReconInputText(subjectId: string, data: seq<string>)
    ensures ReconInputCommand(subjectId, data) == "recon-all" + Arg("-s ", subjectId) + InputArgs(data)
    decreases |data|
  {
    if data == [] {
      assert BaseParts(subjectId) + InputTokens(data) == BaseParts(subjectId);
      assert Join(" ", BaseParts(subjectId)) == "recon-all" + Arg("-s ", subjectId);
      assert "recon-all" + Arg("-s ", subjectId) + InputArgs(data) == "recon-all" + Arg("-s ", subjectId);
    } else {
      var init := data[..|data| - 1];
      ReconInputText(subjectId, init);
      InputTokensSnoc(subjectId, data);
    }
  }

  /** One more path adds its ` -i path` to the joined tokens. */
  lemma InputTokensSnoc(subjectId: string, data: seq<string>)
    requires data != []
    ensures ReconInputCommand(subjectId, data)
      == ReconInputCommand(subjectId, data[..|data| - 1]) + Arg("-i ", data[|data| - 1])
  {
    var init, x := data[..|data| - 1], data[|data| - 1];
    var head := BaseParts(subjectId) + InputTokens(init);
    assert BaseParts(subjectId) + InputTokens(data) == head + ["-i " + x];
    JoinSnoc(" ", head, "-i " + x);
  }

  /** A single path gives `recon-all -s id -i path`. */
  lemma ReconInputSingle(subjectId: string, path: string)
    ensures ReconInputCommand(subjectId, [path]) == "recon-all -s " + subjectId + " -i " + path
  {
    ReconInputText(subjectId, [path]);
    assert [path][..0] == [];
  }

  /** Where `tkmedit` saves each slice: `tkmedit-$i.tiff` inside the base directory. */
  function TkmeditTiffPath(basepath: string): string {
    PosixPath.Join(basepath, "tkmedit-$i.tiff")
  }

  /** The head of the Tcl `for` loop over the slices, given the three numbers as text. */
  function LoopHeader(beg: string, end: string, step: string): string {
    "for { set i " + beg + " } { $i < " + end + " } { incr i " + step + " } {"
  }

  /** The lines of the `tkmedit` script: the loop selecting, redrawing and saving each
      slice, the closing brace and `exit`. */
  function TkmeditLines(basepath: string, beg: int, end: int, step: int): seq<string> {
    [LoopHeader(IntToString(beg), IntToString(end), IntToString(step)),
     "SetSlice $i",
     "RedrawScreen",
     "SaveTIFF " + TkmeditTiffPath(basepath),
     "}",
     "exit"]
  }

  /** `tkmedit_screenshot_tcl`: the loop runs from slice `beg` while below `end`, in steps
      of `step`; every line of the template ends in a newline. */
  function TkmeditScreenshotTcl(basepath: string, beg: int := 5, end: int := 256, step: int := 10): string {
    Lines(TkmeditLines(basepath, beg, end, step))
  }

  /** No line of the `tkmedit` script holds a newline, when the base path holds none. */
  lemma TkmeditLinesOneEach(basepath: string, beg: int, end: int, step: int)
    requires '\n' !in basepath
    ensures Avoids(TkmeditLines(basepath, beg, end, step), '\n')
  {
    HeaderOneLine(beg, end, step);
    SaveOneLine(basepath);
  }

  lemma HeaderOneLine(beg: int, end: int, step: int)
    ensures '\n' !in LoopHeader(IntToString(beg), IntToString(end), IntToString(step))
  {
    IntToStringOneLine(beg);
    IntToStringOneLine(end);
    IntToStringOneLine(step);
  }

  lemma SaveOneLine(basepath: string)
    requires '\n' !in basepath
    ensures '\n' !in "SaveTIFF " + TkmeditTiffPath(basepath)
  {
    var l := PosixPath.Lead(basepath, "tkmedit-$i.tiff");
    assert '\n' !in l;
  }

  /** The script splits into its six lines and the empty text after the final newline;
      its fourth line saves to `join(basepath, "tkmedit-$i.tiff")`. */
  lemma TkmeditTclLines(basepath: string, beg: int, end: int, step: int)
    requires '\n' !in basepath
    ensures var ls := Split(TkmeditScreenshotTcl(basepath, beg, end, step), '\n');
      && ls == TkmeditLines(basepath, beg, end, step) + [""]
      && ls[0] == LoopHeader(IntToString(beg), IntToString(end), IntToString(step))
      && ls[3] == "SaveTIFF " + PosixPath.Join(basepath, "tkmedit-$i.tiff")
      && ls[5] == "exit"
  {
    TkmeditLinesOneEach(basepath, beg, end, step);
    SplitLines(TkmeditLines(basepath, beg, end, step));
  }

  /** With the default arguments the loop runs from slice 5 while below 256, in steps of 10. */
  lemma TkmeditDefaults(basepath: string)
    requires '\n' !in basepath
    ensures Split(TkmeditScreenshotTcl(basepath), '\n')[0] == LoopHeader("5", "256", "10")
  {
    TkmeditTclLines(basepath, 5, 256, 10);
    DefaultNumerals();
  }

  /** The decimal text of the three default numbers. */
  lemma DefaultNumerals()
    ensures IntToString(5) == "5" && IntToString(256) == "256" && IntToString(10) == "10"
  {
    assert NatToString(256) == NatToString(25) + [DigitChar(6)];
    assert NatToString(25) == NatToString(2) + [DigitChar(5)];
    assert NatToString(10) == NatToString(1) + [DigitChar(0)];
  }

  /** `tkmedit_screenshot_cmd`. `flag_string` is bound only when flags are given, so
      without flags formatting the template raises `KeyError('flag_string')`. */
  function TkmeditScreenshotCmd(subjectId: string, volume: string, tclPath: string,
                                flags: seq<string> := []): (r: Result<string>)
    ensures r.Failure? <==> flags == []
    ensures r.Failure? ==> r.error == KeyError("flag_string")
  {
    if flags == [] then Failure(KeyError("flag_string"))
    else Success("tkmedit" + Word(subjectId) + Word(volume) + Word(Join(" ", flags)) + Word("-tcl") + Word(tclPath))
  }

  /** With flags, the `tkmedit` command is the space-join of `tkmedit`, the subject, the
      volume, the flags, `-tcl` and the script path. */
  lemma TkmeditCmdTokens(subjectId: string, volume: string, tclPath: string, flags: seq<string>)
    requires flags != []
    ensures TkmeditScreenshotCmd(subjectId, volume, tclPath, flags)
      == Success(Join(" ", ["tkmedit", subjectId, volume] + flags + ["-tcl", tclPath]))
  {
    var head := ["tkmedit", subjectId, volume];
    assert head[..1] == ["tkmedit"];
    JoinWord(head, 1, "tkmedit");
    JoinWord(head, 2, "tkmedit" + Word(subjectId));
    assert head[..3] == head;
    JoinConcat(" ", head, flags);
    var tail := ["-tcl", tclPath];
    assert tail[..1] == ["-tcl"];
    JoinWord(tail, 1, "-tcl");
    assert tail[..2] == tail;
    JoinConcat(" ", head + flags, tail);
    var line := "tkmedit" + Word(subjectId) + Word(volume);
    assert Join(" ", head + flags) == line + Word(Join(" ", flags));
    assert Join(" ", head + flags + tail) == line + Word(Join(" ", flags)) + Word("-tcl") + Word(tclPath);
  }

  /** The commands of a `tksurfer` script, one per line. */
  datatype TksurferStep =
    | MakeLateralView
    | Redraw
    | RotateBrainY180
    | SaveTiff(path: string)
    | ImportAnnotation(annot: string)
    | Exit

  /** The Tcl line of one command. */
  function Render(c: TksurferStep): string {
    match c
    case MakeLateralView => "make_lateral_view;"
    case Redraw => "redraw;"
    case RotateBrainY180 => "rotate_brain_y 180;"
    case SaveTiff(path) => "save_tiff " + path + ";"
    case ImportAnnotation(annot) => "labl_import_annotation " + annot + ";"
    case Exit => "exit;"
  }

  function RenderAll(cs: seq<TksurferStep>): (r: seq<string>)
    ensures |r| == |cs|
  {
    seq(|cs|, k requires 0 <= k < |cs| => Render(cs[k]))
  }

  /** The template of `tksurfer_screenshot_tcl` read as commands: lateral and medial views,
      the annotation import, then the lateral and medial views again, and `exit`. */
  function TksurferSteps(basepath: string, annot: string): seq<TksurferStep> {
    [MakeLateralView, Redraw, SaveTiff(basepath + "-lateral.tiff"),
     RotateBrainY180, Redraw, SaveTiff(basepath + "-medial.tiff"),
     ImportAnnotation(annot), Redraw,
     MakeLateralView, Redraw, SaveTiff(basepath + "-annot-lateral.tiff"),
     RotateBrainY180, Redraw, SaveTiff(basepath + "-annot-medial.tiff"),
     Exit]
  }

  /** `tksurfer_screenshot_tcl`: the command lines joined by newlines, none after the last. */
  function TksurferScreenshotTcl(basepath: string, annot: string := "aparc.a2009s.annot"): string {
    Join("\n", RenderAll(TksurferSteps(basepath, annot)))
  }

  /** The `tksurfer` script saves exactly four TIFFs, lateral, medial, annotated lateral and
      annotated medial, in that order; its one annotation import comes after the first two
      saves and before the last two, and `exit` comes last. */
  lemma TksurferSaves(basepath: string, annot: string)
    ensures var cs := TksurferSteps(basepath, annot);
      && |cs| == 15
      && (forall k :: 0 <= k < |cs| ==> (cs[k].SaveTiff? <==> k == 2 || k == 5 || k == 10 || k == 13))
      && cs[2].path == basepath + "-lateral.tiff"
      && cs[5].path == basepath + "-medial.tiff"
      && cs[10].path == basepath + "-annot-lateral.tiff"
      && cs[13].path == basepath + "-annot-medial.tiff"
      && (forall k :: 0 <= k < |cs| ==> (cs[k].ImportAnnotation? <==> k == 6))
      && cs[6].annot == annot
      && cs[14] == Exit
  {
  }

  /** `tksurfer_screenshot_cmd`: the joined flags and one space when there are flags,
      nothing when there are none. */
  function TksurferScreenshotCmd(subjectId: string, hemi: string, surface: string, tclPath: string,
                                 flags: seq<string> := []): string {
    var flagString := if flags != [] then Join(" ", flags) + " " else "";
    "tksurfer" + Word(subjectId) + Word(hemi) + Word(surface) + " " + flagString + "-tcl" + Word(tclPath)
  }

  /** The `tksurfer` command is the space-join of its tokens with or without flags, so no
      doubled space appears where the flags would go. */
  lemma TksurferCmdTokens(subjectId: string, hemi: string, surface: string, tclPath: string,
                          flags: seq<string>)
    ensures TksurferScreenshotCmd(subjectId, hemi, surface, tclPath, flags)
      == Join(" ", ["tksurfer", subjectId, hemi, surface] + flags + ["-tcl", tclPath])
  {
    var head := ["tksurfer", subjectId, hemi, surface];
    var tail := ["-tcl", tclPath];
    assert head[..1] == ["tksurfer"];
    JoinWord(head, 1, "tksurfer");
    JoinWord(head, 2, "tksurfer" + Word(subjectId));
    JoinWord(head, 3, "tksurfer" + Word(subjectId) + Word(hemi));
    assert head[..4] == head;
    assert tail[..1] == ["-tcl"];
    JoinWord(tail, 1, "-tcl");
    assert tail[..2] == tail;
    if flags == [] {
      assert head + flags + tail == head + tail;
      JoinConcat(" ", head, tail);
    } else {
      JoinConcat(" ", head, flags);
      JoinConcat(" ", head + flags, tail);
    }
  }

  /** `annot2label_cmd`: each option a word followed by its value. */
  function Annot2LabelCmd(subjectId: string, hemi: string, annotPath: string, outdir: string,
                          surface: string := "white"): string {
    "mri_annotation2label" + Word("--subject") + Word(subjectId) + Word("--hemi") + Word(hemi)
    + Word("--annotation") + Word(annotPath) + Word("--outdir") + Word(outdir)
    + Word("--surface") + Word(surface)
  }

  /** Read word by word, `mri_annotation2label` gets `--subject`, `--hemi`, `--annotation`,
      `--outdir` and `--surface` in that order, each followed by its value, when no value
      holds a space. */
  lemma Annot2LabelWords(subjectId: string, hemi: string, annotPath: string, outdir: string,
                         surface: string)
    requires ' ' !in subjectId && ' ' !in hemi && ' ' !in annotPath && ' ' !in outdir && ' ' !in surface
    ensures Split(Annot2LabelCmd(subjectId, hemi, annotPath, outdir, surface), ' ')
      == ["mri_annotation2label", "--subject", subjectId, "--hemi", hemi, "--annotation", annotPath,
          "--outdir", outdir, "--surface", surface]
  {
    var ws := ["mri_annotation2label", "--subject", subjectId, "--hemi", hemi, "--annotation",
               annotPath, "--outdir", outdir, "--surface", surface];
    var line := ws[0];
    assert ws[..1] == [ws[0]];
    JoinWord(ws, 1, line);
    line := line + Word(ws[1]);
    JoinWord(ws, 2, line);
    line := line + Word(ws[2]);
    JoinWord(ws, 3, line);
    line := line + Word(ws[3]);
    JoinWord(ws, 4, line);
    line := line + Word(ws[4]);
    JoinWord(ws, 5, line);
    line := line + Word(ws[5]);
    JoinWord(ws, 6, line);
    line := line + Word(ws[6]);
    JoinWord(ws, 7, line);
    line := line + Word(ws[7]);
    JoinWord(ws, 8, line);
    line := line + Word(ws[8]);
    JoinWord(ws, 9, line);
    line := line + Word(ws[9]);
    JoinWord(ws, 10, line);
    line := line + Word(ws[10]);
    assert ws[..11] == ws;
    SplitJoin(ws, ' ');
  }
}
