/** `dtiqa_mcode`: the MATLAB program that runs the DTI_QA pipeline on one or several
    raw diffusion images and exports its results from `basedir/extra/` as CSV. */
module DtiQa {
  import opened Text
  import PosixPath

  /** A MATLAB character-array literal: the text between single quotes. */
  function Quote(s: string): string {
    "'" + s + "'"
  }

  /** Each image single-quoted, in order. */
  function QuoteAll(images: seq<string>): (r: seq<string>)
    ensures |r| == |images| && forall k :: 0 <= k < |images| ==> r[k] == Quote(images[k])
  {
    seq(|images|, k requires 0 <= k < |images| => Quote(images[k]))
  }

  /** `', '.join("'{}'".format(im) for im in images)`. */
  function ImageString(images: seq<string>): string {
    Join(", ", QuoteAll(images))
  }

  /** `os.path.join(basedir, 'extra', name)`: where DTI_QA leaves its results. */
  function ExtraPath(basedir: string, name: string): string {
    PosixPath.Join(PosixPath.Join(basedir, "extra"), name)
  }

  /** The pipeline call of the single-image template: a fixed example call that uses none
      of the arguments. */
  const SingleCall: string := SinglePrefix + "'/path/to/dti.nii', '/path/to/basedir', '/path/to/dti_qa', 6);"

  const SinglePrefix: string := "    DTI_QA_Pipeline("

  const MultiPrefix: string := "    DTI_QA_Pipeline_Multi("

  /** The pipeline call of the multi-image template. */
  function MultiCall(dtiqaPath: string, basedir: string, nB0: int, images: seq<string>): string {
    MultiPrefix + MultiArgs(dtiqaPath, basedir, nB0, images) + ");"
  }

  /** The arguments of the multi-image call, as the template spells them out. */
  function MultiArgs(dtiqaPath: string, basedir: string, nB0: int, images: seq<string>): string {
    Quote(dtiqaPath) + ", " + Quote(basedir) + ", " + IntToString(nB0) + ", " + "[]" + ", " + ImageString(images)
  }

  /** The single-image template with its fields filled in, line by line. */
  function SingleTemplateLines(basedir: string, dtiqaPath: string): seq<string> {
    ["addpath(genpath(" + Quote(dtiqaPath) + "))",
     "ec = 0;",
     "try",
     SingleCall,
     "    load " + ExtraPath(basedir, "Registration_motion.mat"),
     "    load " + ExtraPath(basedir, "Outliers.mat"),
     "    csvwrite(" + Quote(ExtraPath(basedir, "Rotation.csv")) + ", rotation);",
     "    csvwrite(" + Quote(ExtraPath(basedir, "Translation.csv")) + ", translation);",
     "    csvwrite(" + Quote(ExtraPath(basedir, "Outliers.csv")) + ", outs);",
     "    boxplotsmat_to_csv(" + Quote(ExtraPath(basedir, "BoxplotsBias.mat")) + ", "
       + Quote(ExtraPath(basedir, "BoxplotsBias.csv")) + ");",
     "    boxplotsmat_to_csv(" + Quote(ExtraPath(basedir, "BoxplotsFA.mat")) + ", "
       + Quote(ExtraPath(basedir, "BoxplotsFA.csv")) + ");",
     "    boxplotsmat_to_csv(" + Quote(ExtraPath(basedir, "BoxplotsFAsigma.mat")) + ", "
       + Quote(ExtraPath(basedir, "BoxplotsFAsigma.csv")) + ");",
     "    boxplotsmat_to_csv(" + Quote(ExtraPath(basedir, "BoxplotsMD.mat")) + ", "
       + Quote(ExtraPath(basedir, "BoxplotsMD.csv")) + ");",
     "catch exception",
     "    disp(exception.message)",
     "    ec = 1;",
     "end",
     "disp(['Exiting with status ' num2str(ec)]);",
     "exit(ec);"]
  }

  /** The multi-image template with its fields filled in, line by line. */
  function MultiTemplateLines(images: seq<string>, basedir: string, dtiqaPath: string, nB0: int): seq<string> {
    ["addpath(genpath(" + Quote(dtiqaPath) + "))",
     "ec = 0;",
     "try",
     MultiCall(dtiqaPath, basedir, nB0, images),
     "    load " + ExtraPath(basedir, "Registration_motion.mat"),
     "    load " + ExtraPath(basedir, "Outliers.mat"),
     "    csvwrite(" + Quote(ExtraPath(basedir, "Rotation.csv")) + ", rotation);",
     "    csvwrite(" + Quote(ExtraPath(basedir, "Translation.csv")) + ", translation);",
     "    csvwrite(" + Quote(ExtraPath(basedir, "Outliers.csv")) + ", outs);",
     "    boxplotsmat_to_csv(" + Quote(ExtraPath(basedir, "BoxplotsBias.mat")) + ", "
       + Quote(ExtraPath(basedir, "BoxplotsBias.csv")) + ");",
     "    boxplotsmat_to_csv(" + Quote(ExtraPath(basedir, "BoxplotsFA.mat")) + ", "
       + Quote(ExtraPath(basedir, "BoxplotsFA.csv")) + ");",
     "    boxplotsmat_to_csv(" + Quote(ExtraPath(basedir, "BoxplotsFAsigma.mat")) + ", "
       + Quote(ExtraPath(basedir, "BoxplotsFAsigma.csv")) + ");",
     "    boxplotsmat_to_csv(" + Quote(ExtraPath(basedir, "BoxplotsMD.mat")) + ", "
       + Quote(ExtraPath(basedir, "BoxplotsMD.csv")) + ");",
     "catch exception",
     "    disp(exception.message)",
     "    ec = 1;",
     "end",
     "disp(['Exiting with status ' num2str(ec)]);",
     "exit(ec);"]
  }

  /** The lines of the program: the multi-image template for more than one image, the
      single-image template otherwise. */
  function McodeLines(images: seq<string>, basedir: string, dtiqaPath: string, nB0: int): seq<string> {
    if |images| > 1 then MultiTemplateLines(images, basedir, dtiqaPath, nB0)
    else SingleTemplateLines(basedir, dtiqaPath)
  }

  /** `dtiqa_mcode(images, basedir, dtiqa_path, n_b0=1)`: both templates end in a newline. */
  function DtiqaMcode(images: seq<string>, basedir: string, dtiqaPath: string, nB0: int := 1): string {
    Lines(McodeLines(images, basedir, dtiqaPath, nB0))
  }

  // ---------------------------------------------------------------- the common frame

  /** The opening lines: DTI_QA on the MATLAB path, a zero exit code, and the `try`. */
  function HeaderLines(dtiqaPath: string): seq<string> {
    ["addpath(genpath(" + Quote(dtiqaPath) + "))", "ec = 0;", "try"]
  }

  /** The export lines after the pipeline call: the motion and outlier results loaded and
      written as CSV, and the four box-plot files converted. */
  function ExportLines(basedir: string): seq<string> {
    ["    load " + ExtraPath(basedir, "Registration_motion.mat"),
     "    load " + ExtraPath(basedir, "Outliers.mat"),
     "    csvwrite(" + Quote(ExtraPath(basedir, "Rotation.csv")) + ", rotation);",
     "    csvwrite(" + Quote(ExtraPath(basedir, "Translation.csv")) + ", translation);",
     "    csvwrite(" + Quote(ExtraPath(basedir, "Outliers.csv")) + ", outs);",
     "    boxplotsmat_to_csv(" + Quote(ExtraPath(basedir, "BoxplotsBias.mat")) + ", "
       + Quote(ExtraPath(basedir, "BoxplotsBias.csv")) + ");",
     "    boxplotsmat_to_csv(" + Quote(ExtraPath(basedir, "BoxplotsFA.mat")) + ", "
       + Quote(ExtraPath(basedir, "BoxplotsFA.csv")) + ");",
     "    boxplotsmat_to_csv(" + Quote(ExtraPath(basedir, "BoxplotsFAsigma.mat")) + ", "
       + Quote(ExtraPath(basedir, "BoxplotsFAsigma.csv")) + ");",
     "    boxplotsmat_to_csv(" + Quote(ExtraPath(basedir, "BoxplotsMD.mat")) + ", "
       + Quote(ExtraPath(basedir, "BoxplotsMD.csv")) + ");"]
  }

  /** The closing lines: a failure's message shown and exit code 1, then the exit. */
  const TrailerLines: seq<string> :=
    ["catch exception", "    disp(exception.message)", "    ec = 1;", "end",
     "disp(['Exiting with status ' num2str(ec)]);", "exit(ec);"]

  /** The single-image template is the frame around its fixed call. */
  lemma SingleFrame(basedir: string, dtiqaPath: string)
    ensures SingleTemplateLines(basedir, dtiqaPath)
         == HeaderLines(dtiqaPath) + [SingleCall] + ExportLines(basedir) + TrailerLines
  {
  }

  /** The multi-image template is the same frame around its call. */
  lemma MultiFrame(images: seq<string>, basedir: string, dtiqaPath: string, nB0: int)
    ensures MultiTemplateLines(images, basedir, dtiqaPath, nB0)
         == HeaderLines(dtiqaPath) + [MultiCall(dtiqaPath, basedir, nB0, images)] + ExportLines(basedir)
            + TrailerLines
  {
  }

  /** The program has the frame's nineteen lines; its fourth line is the pipeline call, the
      multi-image call exactly when there is more than one image. */
  lemma McodeCall(images: seq<string>, basedir: string, dtiqaPath: string, nB0: int)
    ensures var ls := McodeLines(images, basedir, dtiqaPath, nB0);
      && ls == HeaderLines(dtiqaPath) + [ls[3]] + ExportLines(basedir) + TrailerLines
      && (|images| > 1 ==> ls[3] == MultiCall(dtiqaPath, basedir, nB0, images))
      && (|images| <= 1 ==> ls[3] == SingleCall)
  {
    if |images| > 1 {
      MultiFrame(images, basedir, dtiqaPath, nB0);
    } else {
      SingleFrame(basedir, dtiqaPath);
    }
  }

  /** The multi-image call is told apart from the fixed single-image call by its opening. */
  lemma CallsDiffer(dtiqaPath: string, basedir: string, nB0: int, images: seq<string>)
    ensures StartsWith(MultiCall(dtiqaPath, basedir, nB0, images), MultiPrefix)
    ensures !StartsWith(SingleCall, MultiPrefix)
  {
    var m := MultiCall(dtiqaPath, basedir, nB0, images);
    assert m == MultiPrefix + (MultiArgs(dtiqaPath, basedir, nB0, images) + ");");
    assert m[..|MultiPrefix|] == MultiPrefix;
    assert SingleCall[19] == SinglePrefix[19] == '(';
    assert MultiPrefix[19] == '_';
  }

  /** The template is chosen by the number of images: the program's call opens as the
      multi-image call if and only if there is more than one image. */
  lemma TemplateChoice(images: seq<string>, basedir: string, dtiqaPath: string, nB0: int)
    ensures var ls := McodeLines(images, basedir, dtiqaPath, nB0);
      |ls| == 19 && (StartsWith(ls[3], MultiPrefix) <==> |images| > 1)
  {
    McodeCall(images, basedir, dtiqaPath, nB0);
    CallsDiffer(dtiqaPath, basedir, nB0, images);
  }

  /** The program starts with the header lines and ends with the trailer lines, whichever
      template was chosen. */
  lemma McodeFrame(images: seq<string>, basedir: string, dtiqaPath: string, nB0: int)
    ensures var m := DtiqaMcode(images, basedir, dtiqaPath, nB0);
      && StartsWith(m, Lines(HeaderLines(dtiqaPath)))
      && EndsWith(m, Lines(TrailerLines))
  {
    McodeCall(images, basedir, dtiqaPath, nB0);
    var ls := McodeLines(images, basedir, dtiqaPath, nB0);
    var h, mid, t := HeaderLines(dtiqaPath), [ls[3]] + ExportLines(basedir), TrailerLines;
    assert ls == h + mid + t;
    assert ls == h + (mid + t);
    LinesConcat(h, mid + t);
    LinesConcat(h + mid, t);
    var m := Lines(ls);
    assert m == Lines(h) + Lines(mid + t);
    assert m[..|Lines(h)|] == Lines(h);
    assert m == Lines(h + mid) + Lines(t);
    assert m[|m| - |Lines(t)|..] == Lines(t);
  }

  /** The multi-image call passes, in order, the quoted DTI_QA path, the quoted base
      directory, the number of b0 averages, an empty matrix, and one quoted argument per image. */
  lemma MultiCallArgs(dtiqaPath: string, basedir: string, nB0: int, images: seq<string>)
    requires images != []
    ensures MultiArgs(dtiqaPath, basedir, nB0, images)
         == Join(", ", [Quote(dtiqaPath), Quote(basedir), IntToString(nB0), "[]"] + QuoteAll(images))
  {
    var q, b, n := Quote(dtiqaPath), Quote(basedir), IntToString(nB0);
    assert [q] + [b] == [q, b] && [q, b] + [n] == [q, b, n] && [q, b, n] + ["[]"] == [q, b, n, "[]"];
    JoinSnoc(", ", [q], b);
    JoinSnoc(", ", [q, b], n);
    JoinSnoc(", ", [q, b, n], "[]");
    JoinConcat(", ", [q, b, n, "[]"], QuoteAll(images));
  }

  /** The image string opens with the quote of the first image. */
  lemma ImageStringStart(images: seq<string>)
    requires images != []
    ensures var s := ImageString(images); |s| > 0 && s[0] == '\''
  {
    var qs := QuoteAll(images);
    if |images| > 1 {
      assert ImageString(images) == qs[0] + (", " + Join(", ", qs[1..]));
    }
  }

  /** `ps` are the pieces of the quoted images `images` cut at their quotes: an empty piece,
      then each image, with `, ` between consecutive images, and an empty piece at the end. */
  predicate Pieces(ps: seq<string>, images: seq<string>) {
    && |ps| == 2 * |images| + 1
    && ps[0] == "" && ps[2 * |images|] == ""
    && (forall k :: 0 <= k < |images| ==> ps[2 * k + 1] == images[k])
    && (forall k :: 0 < k < |images| ==> ps[2 * k] == ", ")
  }

  /** A new first image puts its own piece and a separator in front of the other pieces. */
  lemma PiecesCons(a: string, r: seq<string>, tail: seq<string>)
    requires r != [] && Pieces(tail, r)
    ensures Pieces(["", a, ", "] + tail[1..], [a] + r)
  {
    var ps, images, w := ["", a, ", "] + tail[1..], [a] + r, tail[1..];
    var n := |r|;
    assert ps[2 * n + 2] == w[2 * n - 1] == tail[2 * n];
    forall k | 0 <= k < |images|
      ensures ps[2 * k + 1] == images[k]
    {
      if k > 0 {
        assert ps[2 * k + 1] == w[2 * k - 2] == tail[2 * (k - 1) + 1];
      }
    }
    forall k | 0 < k < |images|
      ensures ps[2 * k] == ", "
    {
      if k > 1 {
        assert ps[2 * k] == w[2 * k - 3] == tail[2 * (k - 1)];
      }
    }
  }

  /** The pieces of the image string of a single image. */
  lemma ImageStringSplitOne(a: string)
    requires '\'' !in a
    ensures Split(ImageString([a]), '\'') == ["", a, ""]
  {
    var q := ['\''];
    assert ImageString([a]) == [] + q + (a + q + []);
    SplitAt([], '\'', a + q + []);
    SplitAt(a, '\'', []);
  }

  /** Three quote-free pieces between quotes, then the rest: the split yields the pieces and
      continues with the rest's split. */
  lemma SplitThree(c: char, a: string, sep: string, x: string)
    requires c !in a && c !in sep
    ensures Split([c] + a + [c] + sep + [c] + x, c) == ["", a, sep] + Split(x, c)
  {
    assert [c] + a + [c] + sep + [c] + x == [] + [c] + (a + [c] + (sep + [c] + x));
    SplitAt([], c, a + [c] + (sep + [c] + x));
    SplitAt(a, c, sep + [c] + x);
    SplitAt(sep, c, x);
  }

  /** The image string of one more image: its quoted name, the separator, then the rest. */
  lemma ImageStringCons(a: string, r: seq<string>)
    requires r != []
    ensures ImageString([a] + r) == Quote(a) + ", " + ImageString(r)
  {
    assert QuoteAll([a] + r) == [Quote(a)] + QuoteAll(r);
  }

  /** The pieces of the image string when one more image comes first. */
  lemma ImageStringSplitCons(a: string, r: seq<string>)
    requires '\'' !in a && r != []
    ensures Split(ImageString([a] + r), '\'') == ["", a, ", "] + Split(ImageString(r), '\'')[1..]
  {
    var rs := ImageString(r);
    ImageStringStart(r);
    var x := rs[1..];
    assert rs == [] + ['\''] + x;
    SplitAt([], '\'', x);
    ImageStringCons(a, r);
    assert ImageString([a] + r) == ['\''] + a + ['\''] + ", " + ['\''] + x;
    SplitThree('\'', a, ", ", x);
  }

  /** Splitting the image string at its quotes gives back every image, in order, with the
      separator `, ` between consecutive ones, when no image holds a quote itself: no image is
      lost, merged or reordered. */
  lemma {:induction false} ImageStringPieces(images: seq<string>)
    requires images != [] && forall k :: 0 <= k < |images| ==> '\'' !in images[k]
    ensures Pieces(Split(ImageString(images), '\''), images)
    decreases |images|
  {
    var a, r := images[0], images[1..];
    assert '\'' !in a;
    assert images == [a] + r;
    if r == [] {
      ImageStringSplitOne(a);
    } else {
      assert forall k :: 0 <= k < |r| ==> '\'' !in r[k] by {
        forall k | 0 <= k < |r| ensures '\'' !in r[k] {
          assert r[k] == images[k + 1];
        }
      }
      ImageStringPieces(r);
      ImageStringSplitCons(a, r);
      PiecesCons(a, r, Split(ImageString(r), '\''));
    }
  }

  // ---------------------------------------------------------------- result paths

  /** Every result path is the base directory's `extra/` sub-directory followed by the file
      name: `extra/name` for an empty base directory, no doubled `/` after a base directory
      that already ends in one, and a single `/` inserted otherwise. An absolute base directory
      stays absolute. */
  lemma ExtraPathShape(basedir: string, name: string)
    requires name != "" && name[0] != '/'
    ensures ExtraPath(basedir, name) == PosixPath.Lead(basedir, "extra") + "extra/" + name
    ensures basedir == "" ==> ExtraPath(basedir, name) == "extra/" + name
    ensures basedir != "" && basedir[|basedir| - 1] == '/' ==> ExtraPath(basedir, name) == basedir + "extra/" + name
    ensures basedir != "" && basedir[|basedir| - 1] != '/' ==> ExtraPath(basedir, name) == basedir + "/extra/" + name
    ensures PosixPath.IsAbsolute(basedir) ==> PosixPath.IsAbsolute(ExtraPath(basedir, name))
  {
    var e := PosixPath.Join(basedir, "extra");
    assert e == PosixPath.Lead(basedir, "extra") + "extra";
    assert e != "" && e[|e| - 1] == 'a';
    PosixPath.JoinPlain(e, name);
  }

  /** Different result files of one run get different paths. */
  lemma ExtraPathInjective(basedir: string, n1: string, n2: string)
    requires n1 != "" && n1[0] != '/' && n2 != "" && n2[0] != '/'
    ensures ExtraPath(basedir, n1) == ExtraPath(basedir, n2) <==> n1 == n2
  {
    ExtraPathShape(basedir, n1);
    ExtraPathShape(basedir, n2);
    var l := PosixPath.Lead(basedir, "extra") + "extra/";
    if ExtraPath(basedir, n1) == ExtraPath(basedir, n2) {
      assert ExtraPath(basedir, n1)[|l|..] == n1;
      assert ExtraPath(basedir, n2)[|l|..] == n2;
    }
  }

  // ---------------------------------------------------------------- the program text

  /** The twentieth character of a call: `_` of `_Multi(` in the multi-image call, `(` in the
      single-image one. */
  lemma CallChar(dtiqaPath: string, basedir: string, nB0: int, images: seq<string>)
    ensures |MultiCall(dtiqaPath, basedir, nB0, images)| > 19 && MultiCall(dtiqaPath, basedir, nB0, images)[19] == '_'
    ensures |SingleCall| > 19 && SingleCall[19] == '('
  {
    CallsDiffer(dtiqaPath, basedir, nB0, images);
    assert MultiPrefix[19] == '_';
    assert SingleCall[19] == SinglePrefix[19] == '(';
  }

  /** In the program text, the character after the call's common `    DTI_QA_Pipeline` opening
      is `_` (of `_Multi(`) when there is more than one image and `(` otherwise: the two
      templates give different programs. */
  lemma McodeCallChar(images: seq<string>, basedir: string, dtiqaPath: string, nB0: int)
    ensures var m, h := DtiqaMcode(images, basedir, dtiqaPath, nB0), |Lines(HeaderLines(dtiqaPath))|;
      |m| > h + 19 && m[h + 19] == (if |images| > 1 then '_' else '(')
  {
    CallChar(dtiqaPath, basedir, nB0, images);
    var h, e := HeaderLines(dtiqaPath), ExportLines(basedir);
    if |images| > 1 {
      MultiFrame(images, basedir, dtiqaPath, nB0);
      LinesAt(h, MultiCall(dtiqaPath, basedir, nB0, images), e, TrailerLines, 19);
    } else {
      SingleFrame(basedir, dtiqaPath);
      LinesAt(h, SingleCall, e, TrailerLines, 19);
    }
  }

  /** Whichever template is chosen, a single image's program and a several-image program
      differ. */
  lemma SingleMultiDiffer(one: seq<string>, many: seq<string>, basedir: string, dtiqaPath: string, nB0: int)
    requires |one| <= 1 < |many|
    ensures DtiqaMcode(one, basedir, dtiqaPath, nB0) != DtiqaMcode(many, basedir, dtiqaPath, nB0)
  {
    McodeCallChar(one, basedir, dtiqaPath, nB0);
    McodeCallChar(many, basedir, dtiqaPath, nB0);
  }

  // ---------------------------------------------------------------- a bare path as argument

  /** What a caller may pass as `images`: a list of paths, or one path as a bare string. */
  datatype ImagesArg = ImageList(paths: seq<string>) | BarePath(path: string)

  /** The images the code sees in its argument as written: `len()` and a loop over a bare
      string walk its characters, so each character is taken as an image of its own. */
  function ImagesAsWritten(arg: ImagesArg): (r: seq<string>)
    ensures arg.BarePath? ==> |r| == |arg.path| && forall k :: 0 <= k < |r| ==> r[k] == [arg.path[k]]
    ensures arg.ImageList? ==> r == arg.paths
  {
    match arg
    case ImageList(paths) => paths
    case BarePath(path) => seq(|path|, k requires 0 <= k < |path| => [path[k]])
  }

  /** The program for the argument as the code is written. */
  function DtiqaMcodeAsWritten(arg: ImagesArg, basedir: string, dtiqaPath: string, nB0: int): string {
    DtiqaMcode(ImagesAsWritten(arg), basedir, dtiqaPath, nB0)
  }

  /** A bare path of more than one character is taken as that many one-character images and
      gets the several-image program, not the single-image one its test expects. */
  lemma BarePathAsWritten(path: string, basedir: string, dtiqaPath: string, nB0: int)
    requires |path| > 1
    ensures DtiqaMcodeAsWritten(BarePath(path), basedir, dtiqaPath, nB0)
         != Lines(SingleTemplateLines(basedir, dtiqaPath))
  {
    McodeCallChar([path], basedir, dtiqaPath, nB0);
    McodeCallChar(ImagesAsWritten(BarePath(path)), basedir, dtiqaPath, nB0);
  }

  /** The arguments of the single-image test: a bare path and the single template differ. */
  lemma BarePathTestCase()
    ensures DtiqaMcodeAsWritten(BarePath("/path/to/dti.nii"), "/path/to/basedir", "/path/to/dti_qa", 6)
         != Lines(SingleTemplateLines("/path/to/basedir", "/path/to/dti_qa"))
  {
    BarePathAsWritten("/path/to/dti.nii", "/path/to/basedir", "/path/to/dti_qa", 6);
  }

  /** The images the argument evidently means: a bare string is one path. */
  function IntendedImages(arg: ImagesArg): (r: seq<string>)
    ensures arg.BarePath? ==> r == [arg.path]
    ensures arg.ImageList? ==> r == arg.paths
  {
    match arg
    case ImageList(paths) => paths
    case BarePath(path) => [path]
  }

  /** The program for the argument read as intended: a bare path gets the single-image
      program, exactly as the one-element list holding it does. */
  function DtiqaMcodeFor(arg: ImagesArg, basedir: string, dtiqaPath: string, nB0: int): (m: string)
    ensures arg.BarePath? ==> m == Lines(SingleTemplateLines(basedir, dtiqaPath))
    ensures arg.BarePath? ==> m == DtiqaMcode([arg.path], basedir, dtiqaPath, nB0)
    ensures arg.ImageList? ==> m == DtiqaMcode(arg.paths, basedir, dtiqaPath, nB0)
  {
    DtiqaMcode(IntendedImages(arg), basedir, dtiqaPath, nB0)
  }
}
