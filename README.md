# seam, modelled in Dafny

seam (VUIIS) builds command lines and small scripts for neuroimaging tools. This project
models its core in Dafny and proves what each piece produces.

The core has four parts:

- **FslCore** (`fsl.dfy`) models the FSL builders `flirt`, `fnirt`, `invwarp`, `applywarp`,
  `convert_xfm`, `bet` and `probtrackx2`.
  - Each builder is a method that grows a token list step by step, as the source does.
  - Each method is proved to return a spec function: the join of the tokens, or the error the
    source raises.
  - Lemmas show the joined text is the command in the documented order.
- **FreesurferCore** (`freesurfer_core.dfy`) models `recon_all`, `recon_input`, the two Tcl
  screenshot templates, and the `tkmedit`, `tksurfer` and `mri_annotation2label` commands.
- **FreesurferV1** (`freesurfer_v1.dfy`) holds the copies of `recon_all` and `recon_input` in
  `seam/freesurfer/v1/__init__.py`. Each copy is proved equal to the core one.
- **Recipe** (`recipe.dfy`) models the name and path helpers, `recon_parts`, `tkmedit_parts`,
  `tksurfer_parts` and `build_recipe`.
  - The machine is the class `Host`. It holds file contents by path, the existing directories,
    file modes and the warnings issued.
  - `build_recipe` is a method on it. Its contract gives the four returned paths, the files
    afterwards, the directories, the mode of the main script and the warning.
- **DtiQa** (`dti_qa.dfy`) models `dtiqa_mcode`: how the template is chosen, the image
  argument string, the thirteen result paths and the shared frame of the two templates.

Shared modules:

- **Results** (`results.dfy`) holds Option, Result and the Python exceptions raised.
- **Text** (`text.dfy`) models `sep.join`, `str.split` on one character, templates of
  newline-ended lines, and `str` of an integer.
- **PosixPath** (`posix_path.dfy`) models POSIX `os.path.join`. An absolute right side
  replaces the left one. Otherwise one `/` goes between the two, unless the left side is empty
  or already ends in `/`.

Python truthiness of an optional string is `Given`: `None` and `""` are both false. An
omitted list of flags is the empty sequence, since `None` and `[]` behave alike (`if flags:`).

Where the documentation and the code disagree, the model follows the code:

- **applywarp.** The docstring example puts `-r` before `-o`. The code emits
  `-i -o -r -w` (seam/fsl/v1/core.py:118).
- **probtrackx2.** The docstring example has no `--forcedir` and shows `-c` and `--randib`.
  The code always emits `--forcedir`, `--cthr=` and `--randfib=` (seam/fsl/v1/core.py:223-228).
- **tkmedit_screenshot_tcl.** The docstring says slices run while `beg <= i <= end`. The Tcl
  loop tests `$i < end` (seam/freesurfer/v1/core.py:98).
- **Main script inputs.** The main script depends on more than the identifier, inputs, flags,
  headless flag and time. It also depends on the subjects directory, through the annot2label
  lines, and on the package version. `Recipe.StampOnly` proves the narrower claim that only the
  time line differs between two builds.

## Model

| member | source | states |
|---|---|---|
| FslCore.JoinOpt | seam/fsl/v1/core.py:36-37 | a conditional `if o: parts.append(option + o)` adds ` option value` to the joined line exactly when `o` is given, and nothing otherwise |
| FslCore.JoinSwitch | seam/fsl/v1/core.py:168 | a conditional switch append adds ` switch` to the joined line exactly when the switch is on |
| FslCore.FlirtCommand | seam/fsl/v1/core.py:32-34 | `flirt` fails with the ValueError "flirt requires at least one output (omat or out)" if and only if neither `omat` nor `out` is given |
| FslCore.Flirt | seam/fsl/v1/core.py:31-40 | the step-by-step token building returns the error or the join of the flirt tokens of `FlirtCommand` |
| FslCore.FlirtText | seam/fsl/v1/core.py:35-40 | the flirt command reads `flirt -in I -ref R`, then `-omat M` and `-out O` when given, then `-inter T`, then the flags in order |
| FslCore.FnirtCommand | seam/fsl/v1/core.py:63-65 | `fnirt` fails with its ValueError if and only if neither `cout` nor `iout` is given |
| FslCore.Fnirt | seam/fsl/v1/core.py:63-71 | the step-by-step token building returns what `FnirtCommand` specifies |
| FslCore.FnirtText | seam/fsl/v1/core.py:66-71 | the fnirt command reads `fnirt --in=I --ref=R`, then `--cout=`, `--iout=`, `--aff=` for those given, in that order, then the flags |
| FslCore.InvwarpCommand | seam/fsl/v1/core.py:74-89 | `invwarp`, as the join of its tokens; `FslCore.InvwarpText` states the text |
| FslCore.Invwarp | seam/fsl/v1/core.py:87-89 | the method returns the join of the `invwarp` tokens |
| FslCore.InvwarpText | seam/fsl/v1/core.py:87-89 | the invwarp command is exactly `invwarp -w W -r R -o O`, followed by the flags when there are any |
| FslCore.ApplywarpCommand | seam/fsl/v1/core.py:112-115 | `applywarp` fails with "interp param must be in nn trilinear sinc spline" if and only if `interp` is not one of the four |
| FslCore.ApplywarpInterps | seam/fsl/v1/core.py:112-115 | the call succeeds if and only if `interp` is `nn`, `trilinear`, `sinc` or `spline` |
| FslCore.Applywarp | seam/fsl/v1/core.py:112-121 | the step-by-step building, including the default flags, returns what `ApplywarpCommand` specifies |
| FslCore.ApplywarpHead | seam/fsl/v1/core.py:116-119 | the fixed tokens join to `applywarp -i I -o O -r R -w W --interp=T` in that order |
| FslCore.ApplywarpText | seam/fsl/v1/core.py:116-121 | the command is the fixed head, then `-s --superlevel=L` only when `super` holds, then the flags |
| FslCore.ConvertXfmCommand | seam/fsl/v1/core.py:139-148 | the ValueError arises if and only if `inverse` and `concat` are both passed or both `None`; the call succeeds if and only if exactly one is passed and either the inverse is non-empty or the concat holds at least two matrices |
| FslCore.ConvertXfm | seam/fsl/v1/core.py:139-148 | the method, with its guard on `is None` and its branch on truthiness, returns what `ConvertXfmCommand` specifies |
| FslCore.ConvertXfmJoin | seam/fsl/v1/core.py:142-148 | the tokens join to `convert_xfm -omat M`, then the operation, then `-fixscaleskew F` last when given |
| FslCore.ConvertXfmText | seam/fsl/v1/core.py:142-148 | an inverse gives `... -inverse I ...`; a concat gives `... -concat B A ...` with the first two matrices in the order given; `-fixscaleskew` comes last |
| FslCore.BetCommand | seam/fsl/v1/core.py:151-170 | `bet`, as the join of its tokens; `FslCore.BetText` states the text |
| FslCore.Bet | seam/fsl/v1/core.py:167-170 | the method returns the join of the bet tokens |
| FslCore.BetText | seam/fsl/v1/core.py:167-170 | the bet command reads `bet IN OUT -f F`, then `-m` exactly when `mask` holds, then the flags |
| FslCore.Probtrackx2Tokens | seam/fsl/v1/core.py:223-241 | the token list of `probtrackx2`; `FslCore.Probtrackx2Forcedir`, `FslCore.SwitchesExact` and `FslCore.Probtrackx2Text` state its contents |
| FslCore.Probtrackx2Command | seam/fsl/v1/core.py:222 | `probtrackx2` fails (the `assert`) if and only if `meshspace` is not one of caret, freesurfer, first and voxel |
| FslCore.Probtrackx2 | seam/fsl/v1/core.py:222-241 | the sequence of conditional appends returns what `Probtrackx2Command` specifies |
| FslCore.Probtrackx2Forcedir | seam/fsl/v1/core.py:223-228 | whatever the options, every probtrackx2 token list starts with the sixteen fixed tokens in the source's order: `probtrackx2`, `-s`, `-m`, `-x`, `-o`, `--dir=`, `--forcedir`, `-P`, `-S`, `--steplength=`, `--distthresh=`, `--cthr=`, `--fibthresh=`, `--randfib=`, `--sampvox=`, `--verbose=`, each with its value |
| FslCore.SwitchesJoin | seam/fsl/v1/core.py:233-239 | each set switch adds one space and its name to the line, in the fixed order |
| FslCore.Probtrackx2Text | seam/fsl/v1/core.py:223-241 | the command text is the fixed part, the given `--xfm=`, `--invxfm=`, `--seedref=`, then `--meshspace=`, the set switches and the flags |
| FslCore.Rank | seam/fsl/v1/core.py:233-239 | the position of a switch in the fixed order `--opd ... --s2tastext`, and 7 for any other token |
| FslCore.RankOfNames | seam/fsl/v1/core.py:233-239 | the k-th switch name has rank k |
| FslCore.ChainMembers | seam/fsl/v1/core.py:233-239 | a token is among the first r switches kept if and only if its rank is below r and its flag is set |
| FslCore.ChainRanked | seam/fsl/v1/core.py:233-239 | the switches kept come in strictly increasing rank |
| FslCore.SwitchesChain | seam/fsl/v1/core.py:233-239 | the seven conditional appends equal the independent rank-ordered reading |
| FslCore.SwitchesExact | seam/fsl/v1/core.py:233-239 | every switch token is one of the seven; each is present exactly when its flag is set; and they come in the order `--opd --pd --usef --loopcheck --modeuler --os2t --s2tastext` |
| FreesurferCore.ReconAllCommand | seam/freesurfer/v1/core.py:18-44 | `recon_all`; `FreesurferCore.ReconAllText` states the text |
| FreesurferCore.ReconInputCommand | seam/freesurfer/v1/core.py:47-74 | `recon_input`; `FreesurferCore.ReconInputText` states the text |
| FreesurferCore.ReconAll | seam/freesurfer/v1/core.py:35-44 | the method returns the join of the base, fixed and flag tokens |
| FreesurferCore.ReconAllText | seam/freesurfer/v1/core.py:35-44 | `recon_all` is `recon-all -s id -all -qcache` and the five `-measure` tokens, then the flags in order, one space apart |
| FreesurferCore.ReconAllNoFlags | seam/freesurfer/v1/core.py:42-44 | without flags `recon_all` is exactly the fixed prefix |
| FreesurferCore.InputTokens | seam/freesurfer/v1/core.py:73 | as many `-i` tokens as input paths |
| FreesurferCore.ReconInput | seam/freesurfer/v1/core.py:68-74 | the method returns the join of the base tokens and the `-i` tokens |
| FreesurferCore.ReconInputText | seam/freesurfer/v1/core.py:68-74 | `recon_input` is `recon-all -s id` followed by one ` -i path` per path, in input order |
| FreesurferCore.InputTokensSnoc | seam/freesurfer/v1/core.py:73 | one more path adds exactly its ` -i path` at the end |
| FreesurferCore.ReconInputSingle | seam/freesurfer/v1/core.py:69-70 | a single path gives `recon-all -s id -i path` |
| FreesurferCore.TkmeditScreenshotTcl | seam/freesurfer/v1/core.py:77-106 | `tkmedit_screenshot_tcl`; `FreesurferCore.TkmeditTclLines` states its lines |
| FreesurferCore.TkmeditLinesOneEach | seam/freesurfer/v1/core.py:98-105 | no line of the tkmedit script holds a newline when the base path holds none |
| FreesurferCore.HeaderOneLine | seam/freesurfer/v1/core.py:98 | the loop header holds no newline for any three integers |
| FreesurferCore.SaveOneLine | seam/freesurfer/v1/core.py:101-105 | the SaveTIFF line is one line |
| FreesurferCore.TkmeditTclLines | seam/freesurfer/v1/core.py:98-106 | the script splits into its six lines and an empty piece after the final newline; the first is the loop header, the fourth saves to `join(basepath, "tkmedit-$i.tiff")`, and the last is `exit` |
| FreesurferCore.TkmeditDefaults | seam/freesurfer/v1/core.py:77 | with the default arguments the loop runs from 5 while below 256, in steps of 10 |
| FreesurferCore.DefaultNumerals | seam/freesurfer/v1/core.py:77 | the three default numbers print as `5`, `256` and `10` |
| FreesurferCore.TkmeditScreenshotCmd | seam/freesurfer/v1/core.py:125-128 | the command fails with `KeyError('flag_string')` if and only if there are no flags |
| FreesurferCore.TkmeditCmdTokens | seam/freesurfer/v1/core.py:125-128 | with flags the command is the space-join of `tkmedit`, the subject, the volume, the flags, `-tcl` and the script path |
| FreesurferCore.TksurferScreenshotTcl | seam/freesurfer/v1/core.py:131-170 | `tksurfer_screenshot_tcl`, as its fifteen commands joined by newlines; `FreesurferCore.TksurferSaves` states the commands |
| FreesurferCore.TksurferScreenshotCmd | seam/freesurfer/v1/core.py:173-195 | `tksurfer_screenshot_cmd`; `FreesurferCore.TksurferCmdTokens` states its tokens |
| FreesurferCore.Annot2LabelCmd | seam/freesurfer/v1/core.py:198-209 | `annot2label_cmd`; `FreesurferCore.Annot2LabelWords` states its words |
| FreesurferCore.RenderAll | seam/freesurfer/v1/core.py:155-169 | one Tcl line per step |
| FreesurferCore.TksurferSaves | seam/freesurfer/v1/core.py:155-170 | the script has exactly four saves: `-lateral`, `-medial`, `-annot-lateral` and `-annot-medial`, in that order; its one annotation import comes after the first two and before the last two; `exit` is last |
| FreesurferCore.TksurferCmdTokens | seam/freesurfer/v1/core.py:190-195 | the command is the space-join of its tokens with or without flags, so no doubled space appears without flags |
| FreesurferCore.Annot2LabelWords | seam/freesurfer/v1/core.py:208-209 | read word by word, the command has `--subject`, `--hemi`, `--annotation`, `--outdir` and `--surface` in that order, each followed by its value, when no value holds a space |
| FreesurferV1.ReconAll | seam/freesurfer/v1/__init__.py:14-40 | the copy returns what the core `recon_all` returns: the fixed prefix, then the flags in order |
| FreesurferV1.ReconInput | seam/freesurfer/v1/__init__.py:43-70 | the copy returns what the core `recon_input` returns: `recon-all -s id`, then one ` -i path` per path, in order |
| Recipe.ReconScriptName | seam/freesurfer/v1/recipe.py:25-26 | `recon_script_name`, `{id}.recon.sh` |
| Recipe.TkmeditTclName | seam/freesurfer/v1/recipe.py:28-29 | `tkmedit_tcl_name`, `{id}.tkmedit.tcl` |
| Recipe.TksurferTclName | seam/freesurfer/v1/recipe.py:31-32 | `tksurfer_tcl_name`, `{id}.tksurfer.{hemi}.tcl` |
| Recipe.ScreenshotsDir | seam/freesurfer/v1/recipe.py:34-35 | `screenshots_dir`, `{id}_screenshots` |
| Recipe.TksurferScreenshotBasepath | seam/freesurfer/v1/recipe.py:37-38 | `tksurfer_screenshot_basepath`; `Recipe.TksurferBasepathPath` states the path |
| Recipe.A2009sFile | seam/freesurfer/v1/recipe.py:40-41 | `a2009s_file`; `Recipe.A2009sFilePath` states the path |
| Recipe.LabelDirectory | seam/freesurfer/v1/recipe.py:43-44 | `label_directory`; `Recipe.LabelDirectoryPath` states the path |
| Recipe.ReconParts | seam/freesurfer/v1/recipe.py:46-50 | `recon_parts`: the `recon_input` and `recon_all` commands; `Recipe.IngredientsOrder` places them in the main script |
| Recipe.TkmeditParts | seam/freesurfer/v1/recipe.py:52-60 | `tkmedit_parts`: the script, its path and the command, wrapped when `use_xvfb`; `Recipe.XvfbWrapsViewersOnly` and `Recipe.NoXvfbPlain` state the wrapping |
| Recipe.TksurferParts | seam/freesurfer/v1/recipe.py:62-73 | `tksurfer_parts` for one hemisphere, wrapped when `use_xvfb`; `Recipe.XvfbWrapsViewersOnly` and `Recipe.NoXvfbPlain` state the wrapping |
| Recipe.Ingredients | seam/freesurfer/v1/recipe.py:135-162 | the `ingredients` list after the loop; `Recipe.IngredientsOrder` and `Recipe.StampOnly` state its lines |
| Recipe.MainScript | seam/freesurfer/v1/recipe.py:164-166 | the text of the main script; `Recipe.MainScriptLines` states its split into lines |
| Recipe.RecipeFiles | seam/freesurfer/v1/recipe.py:129-166 | the files after `build_recipe`; `Recipe.RecipeFilesContent` states them |
| Recipe.LabelDirectoryPath | seam/freesurfer/v1/recipe.py:43-44 | the label directory is `sd/id/label` |
| Recipe.A2009sFilePath | seam/freesurfer/v1/recipe.py:40-41 | the annotation file is `sd/id/label/{hemi}.aparc.a2009s.annot` |
| Recipe.TksurferBasepathPath | seam/freesurfer/v1/recipe.py:34-38 | the tksurfer screenshot base is `script_dir/{id}_screenshots/{hemi}` |
| Recipe.RecipePathsDistinct | seam/freesurfer/v1/recipe.py:25-32 | the four returned paths are pairwise different, so no written file overwrites another |
| Recipe.TksurferWritesBoth | seam/freesurfer/v1/recipe.py:155-158 | the loop writes the `lh` Tcl file and then the `rh` one |
| Recipe.HemiBlocksBoth | seam/freesurfer/v1/recipe.py:146-162 | the loop adds the `lh` lines and then the `rh` lines |
| Recipe.TksurferPathsBoth | seam/freesurfer/v1/recipe.py:159 | the loop appends the `lh` path and then the `rh` path |
| Recipe.FourWrites | seam/freesurfer/v1/recipe.py:129-166 | four writes to four different paths: each path holds its own text, and every other file is unchanged |
| Recipe.RecipeFilesContent | seam/freesurfer/v1/recipe.py:129-166 | afterwards each returned path holds exactly the script built for it; the four paths are the only keys added; every other file is unchanged |
| Recipe.Layout | seam/freesurfer/v1/recipe.py:135-162 | the 23 positions of the main script's lines |
| Recipe.IngredientsOrder | seam/freesurfer/v1/recipe.py:135-162 | the main script has 23 lines: `#!/bin/bash`, the version and time line, then recon input, recon-all, tkmedit, lh annot2label, lh tksurfer, rh annot2label and rh tksurfer at lines 4, 7, 10, 13, 16, 19 and 22 |
| Recipe.MainScriptLines | seam/freesurfer/v1/recipe.py:164-166 | the file splits at its newlines into the ingredient lines, plus an empty piece after the final newline |
| Recipe.Annot2LabelUnwrapped | seam/freesurfer/v1/recipe.py:150-151 | an annot2label command never starts with `xvfb-run` |
| Recipe.XvfbWrapsViewersOnly | seam/freesurfer/v1/recipe.py:58-72 | with `use_xvfb` the tkmedit and both tksurfer lines start with `xvfb-run` and end with the plain command, and the annot2label lines are left unwrapped |
| Recipe.NoXvfbPlain | seam/freesurfer/v1/recipe.py:58-72 | without `use_xvfb` the viewer commands appear unwrapped |
| Recipe.HeadLinesStamp | seam/freesurfer/v1/recipe.py:135-145 | the version and time line is the only head line that depends on the time, and it determines the time |
| Recipe.StampOnly | seam/freesurfer/v1/recipe.py:123-166 | two builds at different times differ only in the second line of the main script |
| Recipe.Host.MakeDirs | seam/freesurfer/v1/recipe.py:119 | the directory exists afterwards and nothing else changes |
| Recipe.Host.EnsureDir | seam/freesurfer/v1/recipe.py:118-122 | the directory exists afterwards whether or not it did before, so the call is idempotent; nothing else changes |
| Recipe.Host.Write | seam/freesurfer/v1/recipe.py:129-130 | the file is created or truncated to the text; nothing else changes |
| Recipe.Host.Append | seam/freesurfer/v1/recipe.py:166 | the text is appended to the open file |
| Recipe.Host.WriteLines | seam/freesurfer/v1/recipe.py:164-166 | the file holds the lines joined by newlines, then one more newline |
| Recipe.Host.Chmod | seam/freesurfer/v1/recipe.py:167 | the file's mode is set; nothing else changes |
| Recipe.Host.Warn | seam/freesurfer/v1/recipe.py:113 | the message is added to the warnings |
| Recipe.HemiBlocksStep | seam/freesurfer/v1/recipe.py:152-162 | one more hemisphere adds its six lines |
| Recipe.TksurferPathsStep | seam/freesurfer/v1/recipe.py:159 | one more hemisphere appends its Tcl path |
| Recipe.TksurferWritesStep | seam/freesurfer/v1/recipe.py:157-158 | one more hemisphere writes its Tcl file |
| Recipe.AddHemisphere | seam/freesurfer/v1/recipe.py:147-162 | one loop pass adds the hemisphere's six lines, writes its tksurfer script to its Tcl path, and appends that path |
| Recipe.AddHemispheres | seam/freesurfer/v1/recipe.py:146-162 | the loop leaves the lines, the paths and the files given by `HemiBlocks`, `TksurferPaths` and `TksurferWrites` over `lh`, `rh` |
| Recipe.ResolveSubjectsDir | seam/freesurfer/v1/recipe.py:109-116 | `$SUBJECTS_DIR` when set; otherwise the script directory, after exactly one warning naming it; no error |
| Recipe.WriteScripts | seam/freesurfer/v1/recipe.py:123-168 | the four paths in order, the files as in `RecipeFiles`, and the main script made mode 700 |
| Recipe.BuildRecipe | seam/freesurfer/v1/recipe.py:75-168 | returns the main, tkmedit, lh and rh script paths in that order; writes the files as in `RecipeFiles`; afterwards both `script_dir` and its screenshots directory exist; the main script is mode 700; one warning when `SUBJECTS_DIR` is unset |
| PosixPath.Join | seam/freesurfer/v1/recipe.py:37-44 | POSIX `os.path.join` of two parts; `PosixPath.JoinShape` states its result |
| PosixPath.JoinShape | seam/freesurfer/v1/recipe.py:38 | `join(a, b)` ends with `b`; an absolute `b` is the whole result; a relative `b` follows `a` with one `/`, except when `a` is empty or already ends in `/` |
| PosixPath.JoinDistinct | seam/freesurfer/v1/recipe.py:132 | joins of one directory with different names that share a leading part are different paths |
| Text.IntToString | seam/fsl/v1/core.py:224-228 | `str` of an integer is non-empty, and starts with `-` exactly when the integer is negative |
| Text.DecimalRoundTrip | seam/fsl/v1/core.py:224-228 | reading back the decimal text of a natural number gives that number |
| DtiQa.DtiqaMcode | seam/dti_qa/v1/__init__.py:14-90 | `dtiqa_mcode` on a list of images; `DtiQa.TemplateChoice`, `DtiQa.McodeCall`, `DtiQa.McodeFrame` and `DtiQa.McodeCallChar` state the program |
| DtiQa.SingleFrame | seam/dti_qa/v1/__init__.py:32-51 | the single template is the header, its fixed call, the export lines and the trailer |
| DtiQa.MultiFrame | seam/dti_qa/v1/__init__.py:52-71 | the multi template is the same header, export lines and trailer around its call |
| DtiQa.McodeCall | seam/dti_qa/v1/__init__.py:72-76 | the program lines are the header, one call line, the export lines and the trailer; the call line is the multi call when there is more than one image, and the fixed literal call otherwise |
| DtiQa.CallsDiffer | seam/dti_qa/v1/__init__.py:35-55 | the multi call opens with `DTI_QA_Pipeline_Multi(`, and the single call does not |
| DtiQa.TemplateChoice | seam/dti_qa/v1/__init__.py:72-76 | the program has 19 lines, and its call line opens as the multi call if and only if there is more than one image |
| DtiQa.McodeFrame | seam/dti_qa/v1/__init__.py:32-71 | both programs start with the `addpath(genpath('dtiqa_path'))`, `ec = 0;`, `try` lines and end with the same catch and `exit(ec);` trailer |
| DtiQa.MultiCallArgs | seam/dti_qa/v1/__init__.py:55 | the multi call's arguments are, in order, the quoted DTI_QA path, the quoted base directory, n_b0, `[]`, and one quoted argument per image |
| DtiQa.ImageStringCons | seam/dti_qa/v1/__init__.py:73 | for two or more images, the image string is the first quoted image, `, `, then the string of the rest |
| DtiQa.ImageStringPieces | seam/dti_qa/v1/__init__.py:73 | cut at its quotes, the image string gives back every image in order, with `, ` between neighbours, when no image holds a quote |
| DtiQa.ExtraPathShape | seam/dti_qa/v1/__init__.py:77-89 | each result path is `join(basedir, "extra", name)`: `extra/name` for an empty basedir, `basedir + "extra/" + name` after a trailing `/`, `basedir/extra/name` otherwise; an absolute basedir stays absolute |
| DtiQa.ExtraPathInjective | seam/dti_qa/v1/__init__.py:77-89 | two result paths of one run are equal if and only if their file names are |
| DtiQa.McodeCallChar | seam/dti_qa/v1/__init__.py:72-76 | in the program text, right after `    DTI_QA_Pipeline` comes `_` for more than one image and `(` otherwise |
| DtiQa.SingleMultiDiffer | seam/dti_qa/v1/__init__.py:72-76 | a program for at most one image differs from a program for several |
| DtiQa.BarePathAsWritten | seam/dti_qa/v1/__init__.py:72-76 | as written, a bare path of more than one character is taken as one image per character and yields the multi-image program, not the single template |
| DtiQa.BarePathTestCase | tests/test_dti_qa.py:80-82 | the single-image test's arguments, a bare `'/path/to/dti.nii'`, do not yield the single template |
| DtiQa.DtiqaMcodeFor | tests/test_dti_qa.py:80-86 | a bare path yields the single template, the same program as the one-element list holding it |

## Left out

- Real I/O in `build_recipe`. The host is a map of files, a set of directories, a map of modes and
  a list of warnings. `os.makedirs` creating parents, write and permission errors, and
  `makedirs("")` are not modelled.
- `datetime.now()` and the package `__version__` are the parameters `now` and `version`.
  `os.environ['SUBJECTS_DIR']` is the parameter `env`.
- `wrap_with_xvfb` is not among the files modelled. It is the function parameter `wrap`. The lemmas
  about it assume `Recipe.IsXvfbWrapper`: the result starts with `xvfb-run` and ends with the
  command, which are the facts in tests/test_util.py:29-33.
- `get_tmp_filename`, `seam/util.py`, `setup.py` and the re-export `__init__.py` files are not part
  of this model.
- The command-line entry points of recipe.py (lines 171-195) are argument parsing only.
- `:g` float formatting in `bet` and `probtrackx2`. Those values are taken as already-rendered
  strings. `:d` values are integers printed by `Text.IntToString`.
- FslCore.Applywarp: `superlevel` may be `'a'` or an integer. It is taken as already-rendered
  text. For an integer level, pass `Text.IntToString(level)`, which is how `str.format` renders it.
- The second `str.format` pass. Every builder has a `requires` that the strings spliced into the
  template before that pass hold no `{` or `}`:
  - the flags;
  - the `recon_input` paths;
  - the first two `convert_xfm` concat items, the only ones `format` uses.

  Braces in them would be read as fields by Python.
- The string-or-list union of `input_data`. A single path is the one-element list, which is what
  `recon_input` does with a string.
- The same union for `images` in `dtiqa_mcode`. The main model takes a list. The bare-string
  reading appears only in the Findings pair below.
- FslCore.Probtrackx2Text: the fixed sixteen tokens are left as a join, not spelled out as one
  literal line. `FslCore.Probtrackx2Forcedir` spells out those sixteen tokens and their order
  instead, at the token level.
- FreesurferCore.TksurferSaves: the tksurfer script is stated as its fifteen commands, not as a
  split of the produced text into lines.
- Whole-string comparisons with the expected strings of the test files are not stated. The
  lemmas state the same content by parts.
- DtiQa.McodeFrame: the program text is related to its nineteen lines by `Text.Lines`. Splitting
  the whole program text back into lines is not proved.
- `build_recipe` is modelled as several methods, one per block of the function:
  - `ResolveSubjectsDir`;
  - `Host.EnsureDir`;
  - `WriteScripts`;
  - `AddHemispheres` (the loop);
  - `AddHemisphere` (one pass);
  - `Host.WriteLines`.

  `BuildRecipe` runs them in the source's order.

## Findings

| source | as written | input that shows it | evidently intended | confidence | as-written member | corrected member |
|---|---|---|---|---|---|---|
| tests/test_dti_qa.py:80-82 | `dtiqa_mcode` tests `len(images) > 1` and iterates `images` (seam/dti_qa/v1/__init__.py:72-73), so a bare string counts as its characters | `dtiqa_mcode('/path/to/dti.nii', '/path/to/basedir', '/path/to/dti_qa', 6)`, the arguments of `single_args_factory` (tests/test_dti_qa.py:56-57), selects the multi template with one image per character; the test expects the single template | a bare path is one image, as for the one-element list, and gets the single template | not executed | DtiQa.BarePathAsWritten | DtiQa.DtiqaMcodeFor |
