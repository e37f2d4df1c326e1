/** `os.path.join` of POSIX Python, for two components; a longer call
    `join(a, b, c)` is `Join(Join(a, b), c)`, as the library folds left. */
module PosixPath {

  predicate IsAbsolute(p: string) {
    |p| > 0 && p[0] == '/'
  }

  /** What `join(a, b)` keeps of `a` before appending `b`. */
  function Lead(a: string, b: string): string {
    if IsAbsolute(b) then ""
    else if a == "" || a[|a| - 1] == '/' then a
    else a + "/"
  }

  /** `os.path.join(a, b)`: an absolute `b` replaces `a`; otherwise one `/` is put
      between them unless `a` is empty or already ends in `/`. */
  function Join(a: string, b: string): string {
    Lead(a, b) + b
  }

  /** The joined path ends with `b`; a relative `b` keeps `a` in front, with one `/` between
      them unless `a` is empty or already ends in `/`; an absolute `b` is the whole result. */
  lemma JoinShape(a: string, b: string)
    ensures var r := Join(a, b);
      && |b| <= |r| && r[|r| - |b|..] == b
      && (IsAbsolute(b) ==> r == b)
      && (!IsAbsolute(b) ==> |a| <= |r| && r[..|a|] == a)
      && (!IsAbsolute(b) && a != "" && a[|a| - 1] == '/' ==> r == a + b)
      && (!IsAbsolute(b) && a != "" && a[|a| - 1] != '/' ==> r == a + "/" + b)
      && (!IsAbsolute(b) && a == "" ==> r == b)
  {
    var r := Join(a, b);
    assert r[|r| - |b|..] == b;
    if !IsAbsolute(b) {
      assert r[..|a|] == a;
    }
  }

  /** Joining a directory without trailing `/` and a relative component puts exactly one
      `/` between them. */
  lemma JoinPlain(a: string, b: string)
    requires a != "" && a[|a| - 1] != '/' && b != "" && b[0] != '/'
    ensures Join(a, b) == a + "/" + b
  {
  }

  /** Components that start with the same text are joined onto the same lead,
      so joins of names sharing a leading identifier differ exactly where the names do. */
  lemma SameLead(a: string, x: string, s1: string, s2: string)
    requires |s1| > 0 && |s2| > 0 && s1[0] != '/' && s2[0] != '/'
    ensures Lead(a, x + s1) == Lead(a, x + s2)
  {
    if |x| > 0 {
      assert (x + s1)[0] == x[0] && (x + s2)[0] == x[0];
    } else {
      assert x + s1 == s1 && x + s2 == s2;
    }
  }

  /** Joining one directory with two different names that share a leading identifier
      gives two different paths. */
  lemma {:induction false} JoinDistinct(a: string, x: string, s1: string, s2: string)
    requires |s1| > 0 && |s2| > 0 && s1[0] != '/' && s2[0] != '/'
    requires s1 != s2
    ensures Join(a, x + s1) != Join(a, x + s2)
  {
    SameLead(a, x, s1, s2);
    var l := Lead(a, x + s1);
    var j1, j2 := Join(a, x + s1), Join(a, x + s2);
    assert j1[|l + x|..] == s1 by { assert j1 == l + (x + s1); }
    assert j2[|l + x|..] == s2 by { assert j2 == l + (x + s2); }
  }
}
