/** The copies of `recon_all` and `recon_input` in seam/freesurfer/v1/__init__.py. Each
    builds its token list step by step, as the copies in seam/freesurfer/v1/core.py do,
    and is proved to return what the core versions return. */
module FreesurferV1 {
  import opened Text
  import Core = FreesurferCore

  /** `recon_all`: the base tokens and the fixed `-all -qcache -measure ...` tokens, then
      the flags when there are any. */
  method ReconAll(subjectId: string, flags: seq<string>) returns (r: string)
    requires AllNoBraces(flags)
    ensures r == Core.ReconAllCommand(subjectId, flags)
    ensures r == WithFlags(Core.ReconAllPrefix(subjectId), flags)
  {
    var parts := Core.BaseParts(subjectId) + Core.ReconAllFixed;
    if flags != [] {
      parts := parts + flags;
    } else {
      assert parts == parts + flags;
    }
    r := Join(" ", parts);
    Core.ReconAllText(subjectId, flags);
  }

  /** `recon_input`: the base tokens, then one `-i path` per path. A single path given as
      a string is the one-element list. */
  method ReconInput(subjectId: string, data: seq<string>) returns (r: string)
    requires AllNoBraces(data)
    ensures r == Core.ReconInputCommand(subjectId, data)
    ensures r == "recon-all" + Arg("-s ", subjectId) + Core.InputArgs(data)
  {
    var parts := Core.BaseParts(subjectId);
    parts := parts + Core.InputTokens(data);
    r := Join(" ", parts);
    Core.ReconInputText(subjectId, data);
  }
}
