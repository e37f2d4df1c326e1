/** The recipe builder of seam/freesurfer/v1/recipe.py: names and paths derived from the
    subject and the script directory, the commands and Tcl scripts of one FreeSurfer run,
    and `build_recipe`, which writes them into a bash script and three Tcl files. */
module Recipe {
  import opened Results
  import opened Text
  import PosixPath
  import opened FreesurferCore

  function ReconScriptName(subjectId: string): string {
    subjectId + ".recon.sh"
  }

  function TkmeditTclName(subjectId: string): string {
    subjectId + ".tkmedit.tcl"
  }

  function TksurferTclName(subjectId: string, hemi: string): string {
    subjectId + ".tksurfer." + hemi + ".tcl"
  }

  function ScreenshotsDir(subjectId: string): string {
    subjectId + "_screenshots"
  }

  /** `script_dir/{id}_screenshots/{hemi}`, the prefix of the `tksurfer` TIFFs. */
  function TksurferScreenshotBasepath(scriptDir: string, subjectId: string, hemi: string): string {
    PosixPath.Join(PosixPath.Join(scriptDir, ScreenshotsDir(subjectId)), hemi)
  }

  /** The subject's `label` directory under the subjects directory. */
  function LabelDirectory(subjectId: string, sd: string): string {
    PosixPath.Join(PosixPath.Join(sd, subjectId), "label")
  }

  /** The hemisphere's Destrieux (`aparc.a2009s`) annotation in the label directory. */
  function A2009sFile(subjectId: string, sd: string, hemi: string): string {
    PosixPath.Join(LabelDirectory(subjectId, sd), hemi + ".aparc.a2009s.annot")
  }

  /** A single path component: not empty and without a `/`. */
  predicate Component(s: string) {
    s != "" && '/' !in s
  }

  /** A directory written without a trailing `/`. */
  predicate Directory(d: string) {
    d != "" && d[|d| - 1] != '/'
  }

  /** For a subjects directory without a trailing slash and a plain subject name, the
      label directory is `sd/id/label`. */
  lemma LabelDirectoryPath(subjectId: string, sd: string)
    requires Directory(sd) && Component(subjectId)
    ensures LabelDirectory(subjectId, sd) == sd + "/" + subjectId + "/" + "label"
  {
    assert subjectId[0] != '/' && subjectId[|subjectId| - 1] != '/';
    PosixPath.JoinPlain(sd, subjectId);
    PosixPath.JoinPlain(sd + "/" + subjectId, "label");
  }

  /** The annotation is `label_dir/{hemi}.aparc.a2009s.annot`. */
  lemma A2009sFilePath(subjectId: string, sd: string, hemi: string)
    requires Directory(sd) && Component(subjectId) && Component(hemi)
    ensures A2009sFile(subjectId, sd, hemi)
      == sd + "/" + subjectId + "/" + "label" + "/" + hemi + ".aparc.a2009s.annot"
  {
    LabelDirectoryPath(subjectId, sd);
    assert hemi[0] != '/';
    assert (hemi + ".aparc.a2009s.annot")[0] == hemi[0];
    PosixPath.JoinPlain(sd + "/" + subjectId + "/" + "label", hemi + ".aparc.a2009s.annot");
  }

  /** The screenshot prefix of a hemisphere is `script_dir/{id}_screenshots/{hemi}`. */
  lemma TksurferBasepathPath(scriptDir: string, subjectId: string, hemi: string)
    requires Directory(scriptDir) && Component(subjectId) && Component(hemi)
    ensures TksurferScreenshotBasepath(scriptDir, subjectId, hemi)
      == scriptDir + "/" + subjectId + "_screenshots" + "/" + hemi
  {
    assert subjectId[0] != '/' && hemi[0] != '/';
    assert (subjectId + "_screenshots")[0] == subjectId[0];
    PosixPath.JoinPlain(scriptDir, subjectId + "_screenshots");
    var ss := scriptDir + "/" + (subjectId + "_screenshots");
    assert ss[|ss| - 1] == 's';
    PosixPath.JoinPlain(ss, hemi);
  }

  /** `recon_parts`: the `recon-all -i` and `recon-all -all` commands. */
  function ReconParts(subjectId: string, inputData: seq<string>, reconFlags: seq<string>): (string, string) {
    (ReconInputCommand(subjectId, inputData), ReconAllCommand(subjectId, reconFlags))
  }

  /** What a `wrap_with_xvfb` is known to do: its result starts with `xvfb-run` and ends
      with the command it wraps. */
  ghost predicate IsXvfbWrapper(wrap: string -> string) {
    forall c :: StartsWith(wrap(c), "xvfb-run") && EndsWith(wrap(c), c)
  }

  /** The command itself, or wrapped with `wrap_with_xvfb` when `use_xvfb` is set. */
  function Wrapped(useXvfb: bool, wrap: string -> string, cmd: string): string {
    if useXvfb then wrap(cmd) else cmd
  }

  /** The directory the screenshots go to: `script_dir/{id}_screenshots`. */
  function ScreenshotsPath(scriptDir: string, subjectId: string): string {
    PosixPath.Join(scriptDir, ScreenshotsDir(subjectId))
  }

  function MainScriptPath(scriptDir: string, subjectId: string): string {
    PosixPath.Join(scriptDir, ReconScriptName(subjectId))
  }

  function TkmeditTclPath(scriptDir: string, subjectId: string): string {
    PosixPath.Join(scriptDir, TkmeditTclName(subjectId))
  }

  /** The `tkmedit` script of the recipe, saving into the screenshots directory. */
  function TkmeditScript(scriptDir: string, subjectId: string): string {
    TkmeditScreenshotTcl(ScreenshotsPath(scriptDir, subjectId))
  }

  /** The unwrapped `tkmedit` command of the recipe: the brain volume with the
      segmentation and surfaces, running the script at `tclPath`. */
  function TkmeditCommand(subjectId: string, tclPath: string): string {
    var r := TkmeditScreenshotCmd(subjectId, "brain.finalsurfs.mgz", tclPath, ["-aseg", "-surfs"]);
    assert r.Success?;
    r.value
  }

  /** `tkmedit_parts`: the Tcl script, its path and the (optionally wrapped) command. */
  function TkmeditParts(subjectId: string, scriptDir: string, useXvfb: bool, wrap: string -> string)
    : (string, string, string)
  {
    (TkmeditScript(scriptDir, subjectId), TkmeditTclPath(scriptDir, subjectId),
     Wrapped(useXvfb, wrap, TkmeditCommand(subjectId, TkmeditTclPath(scriptDir, subjectId))))
  }

  function TksurferTclPath(scriptDir: string, subjectId: string, hemi: string): string {
    PosixPath.Join(scriptDir, TksurferTclName(subjectId, hemi))
  }

  /** The `tksurfer` script of one hemisphere, saving under its screenshot prefix. */
  function TksurferScript(scriptDir: string, subjectId: string, hemi: string): string {
    TksurferScreenshotTcl(TksurferScreenshotBasepath(scriptDir, subjectId, hemi))
  }

  /** The unwrapped `tksurfer` command of the recipe: the inflated surface in grey. */
  function TksurferCommand(subjectId: string, hemi: string, tclPath: string): string {
    TksurferScreenshotCmd(subjectId, hemi, "inflated", tclPath, ["-gray"])
  }

  /** `tksurfer_parts`: the hemisphere's Tcl script, its path and the (optionally wrapped)
      command. */
  function TksurferParts(subjectId: string, scriptDir: string, hemi: string, useXvfb: bool,
                         wrap: string -> string): (string, string, string)
  {
    (TksurferScript(scriptDir, subjectId, hemi), TksurferTclPath(scriptDir, subjectId, hemi),
     Wrapped(useXvfb, wrap, TksurferCommand(subjectId, hemi, TksurferTclPath(scriptDir, subjectId, hemi))))
  }

  /** The `annot2label` command of one hemisphere: its annotation to labels in the
      subject's label directory, on the white surface. */
  function Annot2LabelFor(subjectId: string, sd: string, hemi: string): string {
    Annot2LabelCmd(subjectId, hemi, A2009sFile(subjectId, sd, hemi), LabelDirectory(subjectId, sd), "white")
  }

  /** `$SUBJECTS_DIR` when the environment sets it, the script directory when it does not. */
  function SubjectsDir(env: Option<string>, scriptDir: string): string {
    if env.Some? then env.value else scriptDir
  }

  function FallbackWarning(scriptDir: string): string {
    "You have not set your $SUBJECTS_DIR environment variable.\n\nUsing " + scriptDir + " as your SUBJECTS_DIR"
  }

  /** `S_IRWXU`: read, write and execute for the owner (octal 700). */
  const S_IRWXU: int := 448

  const Hemis: seq<string> := ["lh", "rh"]

  /** The first eleven lines of the main script: the shebang, the provenance comment, and
      the recon input, recon-all and tkmedit commands, each after a blank line and a comment. */
  function HeadLines(version: string, now: string, inputCmd: string, allCmd: string, tkmCmd: string)
    : seq<string>
  {
    ["#!/bin/bash",
     "# Generated by seam version " + version + " at " + now,
     "",
     "# Recon Input Command",
     inputCmd,
     "",
     "# Recon All command",
     allCmd,
     "",
     "# TKMedit Screenshots command",
     tkmCmd]
  }

  /** The six lines one hemisphere adds: its `annot2label` and its `tksurfer` command,
      each after a blank line and a comment. */
  function HemiLines(hemi: string, a2lCmd: string, tksCmd: string): seq<string> {
    ["", "# Convert 2009 " + hemi + " annotation to labels", a2lCmd,
     "", "# TKSurfer " + hemi + " Screenshot command", tksCmd]
  }

  /** The lines `lines` extended by the lines of the hemispheres `hs`, in order. */
  function HemiBlocks(lines: seq<string>, subjectId: string, sd: string, scriptDir: string, useXvfb: bool,
                      wrap: string -> string, hs: seq<string>): seq<string>
    decreases |hs|
  {
    if hs == [] then lines
    else
      var h := hs[|hs| - 1];
      HemiBlocks(lines, subjectId, sd, scriptDir, useXvfb, wrap, hs[..|hs| - 1])
      + HemiLines(h, Annot2LabelFor(subjectId, sd, h),
                  Wrapped(useXvfb, wrap, TksurferCommand(subjectId, h, TksurferTclPath(scriptDir, subjectId, h))))
  }

  /** The lines of the main script. */
  function Ingredients(subjectId: string, inputData: seq<string>, scriptDir: string, useXvfb: bool,
                       reconFlags: seq<string>, wrap: string -> string, sd: string,
                       version: string, now: string): seq<string>
  {
    HemiBlocks(HeadLines(version, now, ReconInputCommand(subjectId, inputData), ReconAllCommand(subjectId, reconFlags),
                         Wrapped(useXvfb, wrap, TkmeditCommand(subjectId, TkmeditTclPath(scriptDir, subjectId)))),
               subjectId, sd, scriptDir, useXvfb, wrap, Hemis)
  }

  /** The main script: its lines joined by newlines, and a final newline. */
  function MainScript(subjectId: string, inputData: seq<string>, scriptDir: string, useXvfb: bool,
                      reconFlags: seq<string>, wrap: string -> string, sd: string,
                      version: string, now: string): string
  {
    Join("\n", Ingredients(subjectId, inputData, scriptDir, useXvfb, reconFlags, wrap, sd, version, now)) + "\n"
  }

  /** The Tcl files of the hemispheres `hs`, written in order over `files`. */
  function TksurferWrites(files: map<string, string>, subjectId: string, scriptDir: string,
                          hs: seq<string>): map<string, string>
    decreases |hs|
  {
    if hs == [] then files
    else
      var h := hs[|hs| - 1];
      TksurferWrites(files, subjectId, scriptDir, hs[..|hs| - 1])
        [TksurferTclPath(scriptDir, subjectId, h) := TksurferScript(scriptDir, subjectId, h)]
  }

  /** The paths `paths` followed by the paths of the Tcl files of the hemispheres `hs`, in order. */
  function TksurferPaths(paths: seq<string>, subjectId: string, scriptDir: string, hs: seq<string>): seq<string>
    decreases |hs|
  {
    if hs == [] then paths
    else
      TksurferPaths(paths, subjectId, scriptDir, hs[..|hs| - 1])
      + [TksurferTclPath(scriptDir, subjectId, hs[|hs| - 1])]
  }

  /** The four paths `build_recipe` returns: main script, tkmedit script, then the left and
      right tksurfer scripts, all in the script directory. */
  function RecipePaths(scriptDir: string, subjectId: string): seq<string> {
    [MainScriptPath(scriptDir, subjectId), TkmeditTclPath(scriptDir, subjectId),
     TksurferTclPath(scriptDir, subjectId, "lh"), TksurferTclPath(scriptDir, subjectId, "rh")]
  }

  /** The files after `build_recipe`: the tkmedit script, the two tksurfer scripts and then
      the main script written over the files before. */
  function RecipeFiles(files: map<string, string>, subjectId: string, inputData: seq<string>,
                       scriptDir: string, useXvfb: bool, reconFlags: seq<string>,
                       wrap: string -> string, sd: string, version: string, now: string)
    : map<string, string>
  {
    TksurferWrites(files[TkmeditTclPath(scriptDir, subjectId) := TkmeditScript(scriptDir, subjectId)],
                   subjectId, scriptDir, Hemis)
      [MainScriptPath(scriptDir, subjectId)
         := MainScript(subjectId, inputData, scriptDir, useXvfb, reconFlags, wrap, sd, version, now)]
  }

  /** The four returned paths are pairwise different, so no file the recipe writes
      overwrites another. */
  lemma RecipePathsDistinct(scriptDir: string, subjectId: string)
    ensures var ps := RecipePaths(scriptDir, subjectId);
      |ps| == 4 && forall i, j :: 0 <= i < j < |ps| ==> ps[i] != ps[j]
  {
    var recon, tkm := ".recon.sh", ".tkmedit.tcl";
    var lh, rh := ".tksurfer." + "lh" + ".tcl", ".tksurfer." + "rh" + ".tcl";
    assert TksurferTclName(subjectId, "lh") == subjectId + lh;
    assert TksurferTclName(subjectId, "rh") == subjectId + rh;
    assert |recon| == 9 && |tkm| == 12 && |lh| == 16 && |rh| == 16;
    assert lh[10] != rh[10];
    PosixPath.JoinDistinct(scriptDir, subjectId, recon, tkm);
    PosixPath.JoinDistinct(scriptDir, subjectId, recon, lh);
    PosixPath.JoinDistinct(scriptDir, subjectId, recon, rh);
    PosixPath.JoinDistinct(scriptDir, subjectId, tkm, lh);
    PosixPath.JoinDistinct(scriptDir, subjectId, tkm, rh);
    PosixPath.JoinDistinct(scriptDir, subjectId, lh, rh);
  }

  /** The hemisphere loop runs over `lh` and then `rh`. */
  lemma HemisInOrder()
    ensures Hemis[..0] == [] && Hemis[..1] == ["lh"] && Hemis[..2] == Hemis
    ensures Hemis[0] == "lh" && Hemis[1] == "rh"
  {
  }

  /** The two hemispheres' Tcl files, written over `files`. */
  lemma TksurferWritesBoth(files: map<string, string>, subjectId: string, scriptDir: string)
    ensures TksurferWrites(files, subjectId, scriptDir, Hemis)
      == files[TksurferTclPath(scriptDir, subjectId, "lh") := TksurferScript(scriptDir, subjectId, "lh")]
              [TksurferTclPath(scriptDir, subjectId, "rh") := TksurferScript(scriptDir, subjectId, "rh")]
  {
    HemisInOrder();
  }

  /** The lines of the two hemispheres: `lh` first, then `rh`. */
  lemma HemiBlocksBoth(lines: seq<string>, subjectId: string, sd: string, scriptDir: string, useXvfb: bool,
                       wrap: string -> string)
    ensures HemiBlocks(lines, subjectId, sd, scriptDir, useXvfb, wrap, Hemis)
      == lines
       + HemiLines("lh", Annot2LabelFor(subjectId, sd, "lh"),
                   Wrapped(useXvfb, wrap, TksurferCommand(subjectId, "lh", TksurferTclPath(scriptDir, subjectId, "lh"))))
       + HemiLines("rh", Annot2LabelFor(subjectId, sd, "rh"),
                   Wrapped(useXvfb, wrap, TksurferCommand(subjectId, "rh", TksurferTclPath(scriptDir, subjectId, "rh"))))
  {
    HemisInOrder();
    var l := HemiLines("lh", Annot2LabelFor(subjectId, sd, "lh"),
                       Wrapped(useXvfb, wrap, TksurferCommand(subjectId, "lh", TksurferTclPath(scriptDir, subjectId, "lh"))));
    assert HemiBlocks(lines, subjectId, sd, scriptDir, useXvfb, wrap, Hemis[..1]) == lines + l;
  }

  /** The paths of the two hemispheres' Tcl files: `lh` first, then `rh`. */
  lemma TksurferPathsBoth(paths: seq<string>, subjectId: string, scriptDir: string)
    ensures TksurferPaths(paths, subjectId, scriptDir, Hemis)
      == paths + [TksurferTclPath(scriptDir, subjectId, "lh")] + [TksurferTclPath(scriptDir, subjectId, "rh")]
  {
    HemisInOrder();
  }

  /** Writing four texts to four different paths: each path holds its text, the paths are
      added to the keys, and every other file keeps its text. */
  lemma FourWrites(files: map<string, string>, ps: seq<string>, ts: seq<string>)
    requires |ps| == 4 && |ts| == 4
    requires forall i, j :: 0 <= i < j < 4 ==> ps[i] != ps[j]
    ensures var f := files[ps[1] := ts[1]][ps[2] := ts[2]][ps[3] := ts[3]][ps[0] := ts[0]];
      && f.Keys == files.Keys + {ps[0], ps[1], ps[2], ps[3]}
      && (forall i :: 0 <= i < 4 ==> f[ps[i]] == ts[i])
      && forall q :: q in files && q !in ps ==> f[q] == files[q]
  {
  }

  /** After `build_recipe`, each returned path holds exactly the text written for it, the
      files it writes are the only ones added, and every other file is as it was. */
  lemma RecipeFilesContent(files: map<string, string>, subjectId: string, inputData: seq<string>,
                           scriptDir: string, useXvfb: bool, reconFlags: seq<string>,
                           wrap: string -> string, sd: string, version: string, now: string)
    ensures var f := RecipeFiles(files, subjectId, inputData, scriptDir, useXvfb, reconFlags, wrap, sd, version, now);
      var ps := RecipePaths(scriptDir, subjectId);
      && f.Keys == files.Keys + {ps[0], ps[1], ps[2], ps[3]}
      && f[ps[0]] == MainScript(subjectId, inputData, scriptDir, useXvfb, reconFlags, wrap, sd, version, now)
      && f[ps[1]] == TkmeditScript(scriptDir, subjectId)
      && f[ps[2]] == TksurferScript(scriptDir, subjectId, "lh")
      && f[ps[3]] == TksurferScript(scriptDir, subjectId, "rh")
      && forall q :: q in files && q !in ps ==> f[q] == files[q]
  {
    var ps := RecipePaths(scriptDir, subjectId);
    var ts := [MainScript(subjectId, inputData, scriptDir, useXvfb, reconFlags, wrap, sd, version, now),
               TkmeditScript(scriptDir, subjectId), TksurferScript(scriptDir, subjectId, "lh"),
               TksurferScript(scriptDir, subjectId, "rh")];
    TksurferWritesBoth(files[ps[1] := ts[1]], subjectId, scriptDir);
    RecipePathsDistinct(scriptDir, subjectId);
    FourWrites(files, ps, ts);
  }

  /** Where each command sits among the lines of a script laid out by `HeadLines` and two
      `HemiLines`. */
  lemma Layout(version: string, now: string, inputCmd: string, allCmd: string, tkmCmd: string,
               lhLabels: string, lhTks: string, rhLabels: string, rhTks: string)
    ensures var ing := HeadLines(version, now, inputCmd, allCmd, tkmCmd)
                       + HemiLines("lh", lhLabels, lhTks) + HemiLines("rh", rhLabels, rhTks);
      && |ing| == 23
      && ing[0] == "#!/bin/bash"
      && ing[1] == "# Generated by seam version " + version + " at " + now
      && ing[4] == inputCmd && ing[7] == allCmd && ing[10] == tkmCmd
      && ing[13] == lhLabels && ing[16] == lhTks && ing[19] == rhLabels && ing[22] == rhTks
  {
  }

  /** The main script is `#!/bin/bash`, the provenance line, the recon input, recon-all and
      tkmedit commands, then for `lh` and then `rh` the annot2label and tksurfer commands;
      labels come from the subjects directory, whichever way it was found. */
  lemma IngredientsOrder(subjectId: string, inputData: seq<string>, scriptDir: string, useXvfb: bool,
                         reconFlags: seq<string>, wrap: string -> string, sd: string,
                         version: string, now: string)
    ensures var ing := Ingredients(subjectId, inputData, scriptDir, useXvfb, reconFlags, wrap, sd, version, now);
      && |ing| == 23
      && ing[0] == "#!/bin/bash"
      && ing[1] == "# Generated by seam version " + version + " at " + now
      && ing[4] == ReconInputCommand(subjectId, inputData)
      && ing[7] == ReconAllCommand(subjectId, reconFlags)
      && ing[10] == Wrapped(useXvfb, wrap, TkmeditCommand(subjectId, TkmeditTclPath(scriptDir, subjectId)))
      && ing[13] == Annot2LabelFor(subjectId, sd, "lh")
      && ing[16] == Wrapped(useXvfb, wrap, TksurferCommand(subjectId, "lh", TksurferTclPath(scriptDir, subjectId, "lh")))
      && ing[19] == Annot2LabelFor(subjectId, sd, "rh")
      && ing[22] == Wrapped(useXvfb, wrap, TksurferCommand(subjectId, "rh", TksurferTclPath(scriptDir, subjectId, "rh")))
  {
    HemiBlocksBoth(HeadLines(version, now, ReconInputCommand(subjectId, inputData), ReconAllCommand(subjectId, reconFlags),
                             Wrapped(useXvfb, wrap, TkmeditCommand(subjectId, TkmeditTclPath(scriptDir, subjectId)))),
                   subjectId, sd, scriptDir, useXvfb, wrap);
    Layout(version, now, ReconInputCommand(subjectId, inputData), ReconAllCommand(subjectId, reconFlags),
           Wrapped(useXvfb, wrap, TkmeditCommand(subjectId, TkmeditTclPath(scriptDir, subjectId))),
           Annot2LabelFor(subjectId, sd, "lh"),
           Wrapped(useXvfb, wrap, TksurferCommand(subjectId, "lh", TksurferTclPath(scriptDir, subjectId, "lh"))),
           Annot2LabelFor(subjectId, sd, "rh"),
           Wrapped(useXvfb, wrap, TksurferCommand(subjectId, "rh", TksurferTclPath(scriptDir, subjectId, "rh"))));
  }

  /** The lines of the main script file are the ingredients in order, when none holds a
      newline itself. */
  lemma MainScriptLines(subjectId: string, inputData: seq<string>, scriptDir: string, useXvfb: bool,
                        reconFlags: seq<string>, wrap: string -> string, sd: string,
                        version: string, now: string)
    requires Avoids(Ingredients(subjectId, inputData, scriptDir, useXvfb, reconFlags, wrap, sd, version, now), '\n')
    ensures Split(MainScript(subjectId, inputData, scriptDir, useXvfb, reconFlags, wrap, sd, version, now), '\n')
      == Ingredients(subjectId, inputData, scriptDir, useXvfb, reconFlags, wrap, sd, version, now) + [""]
  {
    var ing := Ingredients(subjectId, inputData, scriptDir, useXvfb, reconFlags, wrap, sd, version, now);
    JoinLines(ing);
    SplitLines(ing);
  }

  /** An `annot2label` command starts with `mri_annotation2label`, never with `xvfb-run`. */
  lemma Annot2LabelUnwrapped(subjectId: string, sd: string, hemi: string)
    ensures !StartsWith(Annot2LabelFor(subjectId, sd, hemi), "xvfb-run")
  {
    var c := Annot2LabelFor(subjectId, sd, hemi);
    assert c[0] == 'm';
  }

  /** With `use_xvfb` the tkmedit and both tksurfer commands are wrapped in `xvfb-run` and
      still end with the plain command, while the annot2label commands are left as they are. */
  lemma XvfbWrapsViewersOnly(subjectId: string, inputData: seq<string>, scriptDir: string,
                             reconFlags: seq<string>, wrap: string -> string, sd: string,
                             version: string, now: string)
    requires IsXvfbWrapper(wrap)
    ensures var ing := Ingredients(subjectId, inputData, scriptDir, true, reconFlags, wrap, sd, version, now);
      && |ing| == 23
      && StartsWith(ing[10], "xvfb-run")
      && EndsWith(ing[10], TkmeditCommand(subjectId, TkmeditTclPath(scriptDir, subjectId)))
      && StartsWith(ing[16], "xvfb-run")
      && EndsWith(ing[16], TksurferCommand(subjectId, "lh", TksurferTclPath(scriptDir, subjectId, "lh")))
      && StartsWith(ing[22], "xvfb-run")
      && EndsWith(ing[22], TksurferCommand(subjectId, "rh", TksurferTclPath(scriptDir, subjectId, "rh")))
      && ing[13] == Annot2LabelFor(subjectId, sd, "lh") && !StartsWith(ing[13], "xvfb-run")
      && ing[19] == Annot2LabelFor(subjectId, sd, "rh") && !StartsWith(ing[19], "xvfb-run")
  {
    IngredientsOrder(subjectId, inputData, scriptDir, true, reconFlags, wrap, sd, version, now);
    Annot2LabelUnwrapped(subjectId, sd, "lh");
    Annot2LabelUnwrapped(subjectId, sd, "rh");
  }

  /** Without `use_xvfb` every command appears as built. */
  lemma NoXvfbPlain(subjectId: string, inputData: seq<string>, scriptDir: string,
                    reconFlags: seq<string>, wrap: string -> string, sd: string,
                    version: string, now: string)
    ensures var ing := Ingredients(subjectId, inputData, scriptDir, false, reconFlags, wrap, sd, version, now);
      && |ing| == 23
      && ing[10] == TkmeditCommand(subjectId, TkmeditTclPath(scriptDir, subjectId))
      && ing[16] == TksurferCommand(subjectId, "lh", TksurferTclPath(scriptDir, subjectId, "lh"))
      && ing[22] == TksurferCommand(subjectId, "rh", TksurferTclPath(scriptDir, subjectId, "rh"))
  {
    IngredientsOrder(subjectId, inputData, scriptDir, false, reconFlags, wrap, sd, version, now);
  }

  /** Two line lists that agree except on their second line still do so with the same lines
      appended. */
  lemma SameBut1(x: seq<string>, y: seq<string>, z: seq<string>)
    requires |x| == |y| > 1 && forall k :: 0 <= k < |x| && k != 1 ==> x[k] == y[k]
    ensures |x + z| == |y + z| && (x + z)[1] == x[1] && (y + z)[1] == y[1]
    ensures forall k :: 0 <= k < |x + z| && k != 1 ==> (x + z)[k] == (y + z)[k]
  {
  }

  /** The stamp line is the only head line that depends on the time, and it shows the time. */
  lemma HeadLinesStamp(version: string, now1: string, now2: string, inputCmd: string, allCmd: string,
                       tkmCmd: string)
    ensures var x, y := HeadLines(version, now1, inputCmd, allCmd, tkmCmd), HeadLines(version, now2, inputCmd, allCmd, tkmCmd);
      && |x| == |y| == 11
      && (forall k :: 0 <= k < 11 && k != 1 ==> x[k] == y[k])
      && (x[1] == y[1] <==> now1 == now2)
  {
    var x, y := HeadLines(version, now1, inputCmd, allCmd, tkmCmd), HeadLines(version, now2, inputCmd, allCmd, tkmCmd);
    var p := "# Generated by seam version " + version + " at ";
    assert x[1] == p + now1 && y[1] == p + now2;
    if x[1] == y[1] {
      assert now1 == x[1][|p|..] == y[1][|p|..] == now2;
    }
  }

  /** Two builds at different times give main scripts that differ only in the time stamped
      on their second line. */
  lemma StampOnly(subjectId: string, inputData: seq<string>, scriptDir: string, useXvfb: bool,
                  reconFlags: seq<string>, wrap: string -> string, sd: string, version: string,
                  now1: string, now2: string)
    ensures var a := Ingredients(subjectId, inputData, scriptDir, useXvfb, reconFlags, wrap, sd, version, now1);
      var b := Ingredients(subjectId, inputData, scriptDir, useXvfb, reconFlags, wrap, sd, version, now2);
      && |a| == |b| == 23
      && (forall k :: 0 <= k < 23 && k != 1 ==> a[k] == b[k])
      && (a[1] == b[1] <==> now1 == now2)
  {
    var i, r := ReconInputCommand(subjectId, inputData), ReconAllCommand(subjectId, reconFlags);
    var t := Wrapped(useXvfb, wrap, TkmeditCommand(subjectId, TkmeditTclPath(scriptDir, subjectId)));
    var h1, h2 := HeadLines(version, now1, i, r, t), HeadLines(version, now2, i, r, t);
    HeadLinesStamp(version, now1, now2, i, r, t);
    HemiBlocksBoth(h1, subjectId, sd, scriptDir, useXvfb, wrap);
    HemiBlocksBoth(h2, subjectId, sd, scriptDir, useXvfb, wrap);
    var lh := HemiLines("lh", Annot2LabelFor(subjectId, sd, "lh"),
                        Wrapped(useXvfb, wrap, TksurferCommand(subjectId, "lh", TksurferTclPath(scriptDir, subjectId, "lh"))));
    var rh := HemiLines("rh", Annot2LabelFor(subjectId, sd, "rh"),
                        Wrapped(useXvfb, wrap, TksurferCommand(subjectId, "rh", TksurferTclPath(scriptDir, subjectId, "rh"))));
    SameBut1(h1, h2, lh);
    SameBut1(h1 + lh, h2 + lh, rh);
  }

  /** The part of the machine `build_recipe` touches: file contents by path, the existing
      directories, file modes set by `chmod`, and the warnings issued. */
  class Host {
    var files: map<string, string>
    var dirs: set<string>
    var modes: map<string, int>
    var warnings: seq<string>

    constructor(files: map<string, string>, dirs: set<string>)
      ensures this.files == files && this.dirs == dirs && modes == map[] && warnings == []
    {
      this.files := files;
      this.dirs := dirs;
      modes := map[];
      warnings := [];
    }

    /** `os.makedirs(path)`. */
    method MakeDirs(path: string)
      modifies this
      ensures dirs == old(dirs) + {path}
      ensures files == old(files) && modes == old(modes) && warnings == old(warnings)
    {
      dirs := dirs + {path};
    }

    /** `if not os.path.isdir(path): os.makedirs(path)`. */
    method EnsureDir(path: string)
      modifies this
      ensures dirs == old(dirs) + {path}
      ensures files == old(files) && modes == old(modes) && warnings == old(warnings)
    {
      if path !in dirs {
        MakeDirs(path);
      }
    }

    /** `open(path, 'w')` followed by writing `text`: the file is created or truncated. */
    method Write(path: string, text: string)
      modifies this
      ensures files == old(files)[path := text]
      ensures dirs == old(dirs) && modes == old(modes) && warnings == old(warnings)
    {
      files := files[path := text];
    }

    /** A further `write` to an open file. */
    method Append(path: string, text: string)
      requires path in files
      modifies this
      ensures files == old(files)[path := old(files)[path] + text]
      ensures dirs == old(dirs) && modes == old(modes) && warnings == old(warnings)
    {
      files := files[path := files[path] + text];
    }

    /** `open(path, 'w')` followed by writing the lines joined by newlines and then one
        more newline. */
    method WriteLines(path: string, lines: seq<string>)
      modifies this
      ensures files == old(files)[path := Join("\n", lines) + "\n"]
      ensures dirs == old(dirs) && modes == old(modes) && warnings == old(warnings)
    {
      var text := Join("\n", lines);
      Write(path, text);
      Append(path, "\n");
      Overwrite(old(files), path, text, text + "\n");
    }

    /** `os.chmod(path, mode)`. */
    method Chmod(path: string, mode: int)
      modifies this
      ensures modes == old(modes)[path := mode]
      ensures files == old(files) && dirs == old(dirs) && warnings == old(warnings)
    {
      modes := modes[path := mode];
    }

    /** `warnings.warn(msg, category=UserWarning)`. */
    method Warn(msg: string)
      modifies this
      ensures warnings == old(warnings) + [msg]
      ensures files == old(files) && dirs == old(dirs) && modes == old(modes)
    {
      warnings := warnings + [msg];
    }
  }

  /** One more hemisphere extends the lines by its own six. */
  lemma HemiBlocksStep(lines: seq<string>, subjectId: string, sd: string, scriptDir: string, useXvfb: bool,
                       wrap: string -> string, hs: seq<string>, i: nat)
    requires i < |hs|
    ensures HemiBlocks(lines, subjectId, sd, scriptDir, useXvfb, wrap, hs[..i + 1])
         == HemiBlocks(lines, subjectId, sd, scriptDir, useXvfb, wrap, hs[..i])
            + HemiLines(hs[i], Annot2LabelFor(subjectId, sd, hs[i]),
                        Wrapped(useXvfb, wrap, TksurferCommand(subjectId, hs[i], TksurferTclPath(scriptDir, subjectId, hs[i]))))
  {
    assert hs[..i + 1][..i] == hs[..i];
  }

  /** One more hemisphere adds the path of its Tcl file. */
  lemma TksurferPathsStep(paths: seq<string>, subjectId: string, scriptDir: string, hs: seq<string>, i: nat)
    requires i < |hs|
    ensures TksurferPaths(paths, subjectId, scriptDir, hs[..i + 1])
         == TksurferPaths(paths, subjectId, scriptDir, hs[..i]) + [TksurferTclPath(scriptDir, subjectId, hs[i])]
  {
    assert hs[..i + 1][..i] == hs[..i];
  }

  /** One more hemisphere writes its Tcl file. */
  lemma TksurferWritesStep(files: map<string, string>, subjectId: string, scriptDir: string, hs: seq<string>, i: nat)
    requires i < |hs|
    ensures TksurferWrites(files, subjectId, scriptDir, hs[..i + 1])
         == TksurferWrites(files, subjectId, scriptDir, hs[..i])
              [TksurferTclPath(scriptDir, subjectId, hs[i]) := TksurferScript(scriptDir, subjectId, hs[i])]
  {
    assert hs[..i + 1][..i] == hs[..i];
  }

  /** One pass of the `for hemi in ('lh', 'rh')` loop of `build_recipe`: the annot2label
      lines, the hemisphere's tksurfer Tcl file and its path, and the tksurfer lines. */
  method AddHemisphere(host: Host, subjectId: string, sd: string, scriptDir: string, hemi: string,
                       useXvfb: bool, wrap: string -> string, ingredients: seq<string>, toReturn: seq<string>)
    returns (lines: seq<string>, paths: seq<string>)
    modifies host
    ensures lines == ingredients + HemiLines(hemi, Annot2LabelFor(subjectId, sd, hemi),
                                             Wrapped(useXvfb, wrap, TksurferCommand(subjectId, hemi,
                                               TksurferTclPath(scriptDir, subjectId, hemi))))
    ensures paths == toReturn + [TksurferTclPath(scriptDir, subjectId, hemi)]
    ensures host.files == old(host.files)[TksurferTclPath(scriptDir, subjectId, hemi)
                                            := TksurferScript(scriptDir, subjectId, hemi)]
    ensures host.dirs == old(host.dirs) && host.modes == old(host.modes) && host.warnings == old(host.warnings)
  {
    var annotFile := A2009sFile(subjectId, sd, hemi);
    var labelDir := LabelDirectory(subjectId, sd);
    var a2lCmd := Annot2LabelCmd(subjectId, hemi, annotFile, labelDir, "white");
    lines := ingredients + ["", "# Convert 2009 " + hemi + " annotation to labels", a2lCmd];
    var tks := TksurferParts(subjectId, scriptDir, hemi, useXvfb, wrap);
    host.Write(tks.1, tks.0);
    paths := toReturn + [tks.1];
    lines := lines + ["", "# TKSurfer " + hemi + " Screenshot command", tks.2];
  }

  /** The `for hemi in ('lh', 'rh')` loop of `build_recipe`. */
  method AddHemispheres(host: Host, subjectId: string, sd: string, scriptDir: string, useXvfb: bool,
                        wrap: string -> string, ingredients: seq<string>, toReturn: seq<string>)
    returns (lines: seq<string>, paths: seq<string>)
    modifies host
    ensures lines == HemiBlocks(ingredients, subjectId, sd, scriptDir, useXvfb, wrap, Hemis)
    ensures paths == TksurferPaths(toReturn, subjectId, scriptDir, Hemis)
    ensures host.files == TksurferWrites(old(host.files), subjectId, scriptDir, Hemis)
    ensures host.dirs == old(host.dirs) && host.modes == old(host.modes) && host.warnings == old(host.warnings)
  {
    lines, paths := ingredients, toReturn;
    ghost var lines0, paths0, files0 := ingredients, toReturn, host.files;
    var i := 0;
    while i < |Hemis|
      invariant 0 <= i <= |Hemis|
      invariant lines == HemiBlocks(ingredients, subjectId, sd, scriptDir, useXvfb, wrap, Hemis[..i])
      invariant paths == TksurferPaths(toReturn, subjectId, scriptDir, Hemis[..i])
      invariant host.files == TksurferWrites(old(host.files), subjectId, scriptDir, Hemis[..i])
      invariant host.dirs == old(host.dirs) && host.modes == old(host.modes) && host.warnings == old(host.warnings)
    {
      HemiBlocksStep(lines0, subjectId, sd, scriptDir, useXvfb, wrap, Hemis, i);
      TksurferPathsStep(paths0, subjectId, scriptDir, Hemis, i);
      TksurferWritesStep(files0, subjectId, scriptDir, Hemis, i);
      lines, paths := AddHemisphere(host, subjectId, sd, scriptDir, Hemis[i], useXvfb, wrap, lines, paths);
      i := i + 1;
    }
    assert Hemis[..|Hemis|] == Hemis;
  }

  /** A second write to the same key leaves only the second value. */
  lemma Overwrite(m: map<string, string>, k: string, a: string, b: string)
    ensures m[k := a][k := b] == m[k := b]
  {
  }

  /** The returned paths: the main script, the tkmedit script, then the hemispheres' scripts. */
  lemma RecipePathsSplit(scriptDir: string, subjectId: string)
    ensures RecipePaths(scriptDir, subjectId)
         == TksurferPaths([MainScriptPath(scriptDir, subjectId), TkmeditTclPath(scriptDir, subjectId)],
                          subjectId, scriptDir, Hemis)
  {
    TksurferPathsBoth([MainScriptPath(scriptDir, subjectId), TkmeditTclPath(scriptDir, subjectId)],
                      subjectId, scriptDir);
  }

  /** The recipe's files, given the main script's lines. */
  lemma RecipeFilesSplit(files: map<string, string>, subjectId: string, inputData: seq<string>,
                         scriptDir: string, useXvfb: bool, reconFlags: seq<string>,
                         wrap: string -> string, sd: string, version: string, now: string,
                         lines: seq<string>)
    requires lines == HemiBlocks(HeadLines(version, now, ReconParts(subjectId, inputData, reconFlags).0,
                                           ReconParts(subjectId, inputData, reconFlags).1,
                                           TkmeditParts(subjectId, scriptDir, useXvfb, wrap).2),
                                 subjectId, sd, scriptDir, useXvfb, wrap, Hemis)
    ensures RecipeFiles(files, subjectId, inputData, scriptDir, useXvfb, reconFlags, wrap, sd, version, now)
         == TksurferWrites(files[TkmeditParts(subjectId, scriptDir, useXvfb, wrap).1
                                   := TkmeditParts(subjectId, scriptDir, useXvfb, wrap).0],
                           subjectId, scriptDir, Hemis)
              [MainScriptPath(scriptDir, subjectId) := Join("\n", lines) + "\n"]
  {
  }

  /** The subjects directory `build_recipe` uses: `$SUBJECTS_DIR` when the environment `env`
      sets it; otherwise the script directory, after a warning saying so. */
  method ResolveSubjectsDir(host: Host, env: Option<string>, scriptDir: string) returns (sd: string)
    modifies host
    ensures sd == SubjectsDir(env, scriptDir)
    ensures host.warnings == old(host.warnings) + (if env.None? then [FallbackWarning(scriptDir)] else [])
    ensures host.files == old(host.files) && host.dirs == old(host.dirs) && host.modes == old(host.modes)
  {
    if env.None? {
      host.Warn(FallbackWarning(scriptDir));
      sd := scriptDir;
    } else {
      sd := env.value;
    }
  }

  /** The part of `build_recipe` after the directories exist: the recon, tkmedit and
      per-hemisphere parts, the Tcl files, the executable main script, and the paths. */
  method WriteScripts(host: Host, subjectId: string, inputData: seq<string>, scriptDir: string,
                      useXvfb: bool, reconFlags: seq<string>, wrap: string -> string,
                      sd: string, version: string, now: string)
    returns (paths: seq<string>)
    requires AllNoBraces(inputData) && AllNoBraces(reconFlags)
    modifies host
    ensures paths == RecipePaths(scriptDir, subjectId)
    ensures host.files == RecipeFiles(old(host.files), subjectId, inputData, scriptDir, useXvfb, reconFlags,
                                      wrap, sd, version, now)
    ensures host.modes == old(host.modes)[MainScriptPath(scriptDir, subjectId) := S_IRWXU]
    ensures host.dirs == old(host.dirs) && host.warnings == old(host.warnings)
  {
    var toReturn: seq<string> := [];
    var recon := ReconParts(subjectId, inputData, reconFlags);
    var tkm := TkmeditParts(subjectId, scriptDir, useXvfb, wrap);
    host.Write(tkm.1, tkm.0);
    var finalScript := MainScriptPath(scriptDir, subjectId);
    toReturn := toReturn + [finalScript];
    toReturn := toReturn + [tkm.1];
    assert toReturn == [finalScript, tkm.1];
    var ingredients := HeadLines(version, now, recon.0, recon.1, tkm.2);
    ingredients, toReturn := AddHemispheres(host, subjectId, sd, scriptDir, useXvfb, wrap, ingredients, toReturn);
    RecipeFilesSplit(old(host.files), subjectId, inputData, scriptDir, useXvfb, reconFlags, wrap, sd, version,
                     now, ingredients);
    host.WriteLines(finalScript, ingredients);
    host.Chmod(finalScript, S_IRWXU);
    RecipePathsSplit(scriptDir, subjectId);
    paths := toReturn;
  }

  /** `build_recipe`. The environment's `SUBJECTS_DIR` is `env`, the clock's reading is
      `now`, and `wrap` stands for `wrap_with_xvfb`. */
  method BuildRecipe(host: Host, subjectId: string, inputData: seq<string>, scriptDir: string,
                     useXvfb: bool, reconFlags: seq<string>, wrap: string -> string,
                     env: Option<string>, version: string, now: string)
    returns (paths: seq<string>)
    requires AllNoBraces(inputData) && AllNoBraces(reconFlags)
    modifies host
    ensures paths == RecipePaths(scriptDir, subjectId)
    ensures host.files == RecipeFiles(old(host.files), subjectId, inputData, scriptDir, useXvfb, reconFlags,
                                      wrap, SubjectsDir(env, scriptDir), version, now)
    ensures host.dirs == old(host.dirs) + {scriptDir} + {ScreenshotsPath(scriptDir, subjectId)}
    ensures host.modes == old(host.modes)[MainScriptPath(scriptDir, subjectId) := S_IRWXU]
    ensures host.warnings == old(host.warnings) + (if env.None? then [FallbackWarning(scriptDir)] else [])
  {
    var sd := ResolveSubjectsDir(host, env, scriptDir);
    host.EnsureDir(scriptDir);
    var ssDir := ScreenshotsPath(scriptDir, subjectId);
    host.EnsureDir(ssDir);
    paths := WriteScripts(host, subjectId, inputData, scriptDir, useXvfb, reconFlags, wrap, sd, version, now);
  }
}
