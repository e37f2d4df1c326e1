/** Python string operations the builders rely on: `sep.join(parts)`, `s.split(c)`
    with an explicit one-character separator, and `str(n)` for integers. */
module Text {

  /** `sep.join(parts)`. */
  function Join(sep: string, parts: seq<string>): string
    decreases |parts|
  {
    if |parts| == 0 then ""
    else if |parts| == 1 then parts[0]
    else parts[0] + sep + Join(sep, parts[1..])
  }

  predicate StartsWith(s: string, prefix: string) {
    |prefix| <= |s| && s[..|prefix|] == prefix
  }

  predicate EndsWith(s: string, suffix: string) {
    |suffix| <= |s| && s[|s| - |suffix|..] == suffix
  }

  /** No element of `parts` contains the character `c`. */
  predicate Avoids(parts: seq<string>, c: char) {
    forall i :: 0 <= i < |parts| ==> c !in parts[i]
  }

  /** The string holds no `{` or `}`, so a second `str.format` pass leaves it unchanged. */
  predicate NoBraces(s: string) {
    '{' !in s && '}' !in s
  }

  predicate AllNoBraces(parts: seq<string>) {
    forall i :: 0 <= i < |parts| ==> NoBraces(parts[i])
  }

  /** Joining two non-empty lists is joining their joins. */
  lemma {:induction false} JoinConcat(sep: string, a: seq<string>, b: seq<string>)
    requires |a| > 0 && |b| > 0
    ensures Join(sep, a + b) == Join(sep, a) + sep + Join(sep, b)
    decreases |a|
  {
    if |a| == 1 {
      assert (a + b)[1..] == b;
    } else {
      assert (a + b)[1..] == a[1..] + b;
      JoinConcat(sep, a[1..], b);
    }
  }

  /** Appending one token to a non-empty list adds one separator and the token. */
  lemma JoinSnoc(sep: string, parts: seq<string>, x: string)
    requires |parts| > 0
    ensures Join(sep, parts + [x]) == Join(sep, parts) + sep + x
  {
    JoinConcat(sep, parts, [x]);
  }

  /** The text one more token `option + value` adds to a space-joined command line. */
  function Arg(option: string, value: string): string {
    " " + option + value
  }

  /** The text one more bare word adds to a space-joined command line. */
  function Word(w: string): string {
    " " + w
  }

  /** Joining one more token of a list: its prefix of `k + 1` tokens joins to the
      prefix of `k` tokens followed by the token's text. */
  lemma JoinArg(parts: seq<string>, k: nat, line: string, option: string, value: string)
    requires 1 <= k < |parts| && Join(" ", parts[..k]) == line && parts[k] == option + value
    ensures Join(" ", parts[..k + 1]) == line + Arg(option, value)
  {
    assert parts[..k + 1] == parts[..k] + [parts[k]];
    JoinSnoc(" ", parts[..k], parts[k]);
  }

  lemma JoinWord(parts: seq<string>, k: nat, line: string)
    requires 1 <= k < |parts| && Join(" ", parts[..k]) == line
    ensures Join(" ", parts[..k + 1]) == line + Word(parts[k])
  {
    assert parts[..k + 1] == parts[..k] + [parts[k]];
    JoinSnoc(" ", parts[..k], parts[k]);
  }

  /** A command line followed by pass-through flags, one space apart (`if flags:
      parts.extend(flags)` before the join). */
  function WithFlags(line: string, flags: seq<string>): string {
    if flags == [] then line else line + " " + Join(" ", flags)
  }

  /** Joining a token list that ends in the flags is joining the rest and appending the flags. */
  lemma JoinWithFlags(head: seq<string>, flags: seq<string>)
    requires |head| > 0
    ensures Join(" ", head + flags) == WithFlags(Join(" ", head), flags)
  {
    if flags == [] {
      assert head + flags == head;
    } else {
      JoinConcat(" ", head, flags);
    }
  }

  /** Joining a non-empty list followed by more tokens: the two joins one separator apart,
      or the first alone when nothing follows. */
  lemma JoinAppend(sep: string, head: seq<string>, tail: seq<string>)
    requires |head| > 0
    ensures tail == [] ==> Join(sep, head + tail) == Join(sep, head)
    ensures tail != [] ==> Join(sep, head + tail) == Join(sep, head) + sep + Join(sep, tail)
  {
    if tail == [] {
      assert head + tail == head;
    } else {
      JoinConcat(sep, head, tail);
    }
  }

  /** The joined text begins with the joined head and one separator when more follows. */
  lemma JoinStartsWith(sep: string, a: seq<string>, b: seq<string>)
    requires |a| > 0 && |b| > 0
    ensures StartsWith(Join(sep, a + b), Join(sep, a) + sep)
  {
    JoinConcat(sep, a, b);
    var s := Join(sep, a + b);
    assert s[..|Join(sep, a) + sep|] == Join(sep, a) + sep;
  }

  /** The joined text ends with one separator and the joined tail when something precedes it. */
  lemma JoinEndsWith(sep: string, a: seq<string>, b: seq<string>)
    requires |a| > 0 && |b| > 0
    ensures EndsWith(Join(sep, a + b), sep + Join(sep, b))
  {
    JoinConcat(sep, a, b);
    var s := Join(sep, a + b);
    assert s[|s| - |sep + Join(sep, b)|..] == sep + Join(sep, b);
  }

  /** `s.split(c)`: the pieces between occurrences of `c`; never empty. */
  function Split(s: string, c: char): (r: seq<string>)
    ensures |r| >= 1
    decreases |s|
  {
    if s == [] then [""]
    else
      var rest := Split(s[1..], c);
      if s[0] == c then [""] + rest else [[s[0]] + rest[0]] + rest[1..]
  }

  lemma {:induction false} SplitWithout(s: string, c: char)
    requires c !in s
    ensures Split(s, c) == [s]
    decreases |s|
  {
    if s != [] {
      SplitWithout(s[1..], c);
      assert [s[0]] + s[1..] == s;
    }
  }

  lemma {:induction false} SplitAt(x: string, c: char, y: string)
    requires c !in x
    ensures Split(x + [c] + y, c) == [x] + Split(y, c)
    decreases |x|
  {
    if x == [] {
      assert x + [c] + y == [c] + y;
      assert ([c] + y)[1..] == y;
    } else {
      assert (x + [c] + y)[1..] == x[1..] + [c] + y;
      SplitAt(x[1..], c, y);
      assert [x[0]] + x[1..] == x;
    }
  }

  /** Splitting on the separator gives back the parts, when no part holds it:
      no token is lost or merged by the join. */
  lemma {:induction false} SplitJoin(parts: seq<string>, c: char)
    requires |parts| > 0 && Avoids(parts, c)
    ensures Split(Join([c], parts), c) == parts
    decreases |parts|
  {
    if |parts| == 1 {
      SplitWithout(parts[0], c);
    } else {
      assert Avoids(parts[1..], c) by {
        forall i | 0 <= i < |parts[1..]| ensures c !in parts[1..][i] {
          assert parts[1..][i] == parts[i + 1];
        }
      }
      SplitJoin(parts[1..], c);
      assert c !in parts[0];
      SplitAt(parts[0], c, Join([c], parts[1..]));
      assert [parts[0]] + parts[1..] == parts;
    }
  }

  /** A text of lines, each ended by a newline (a triple-quoted template whose last line
      ends in a line break). */
  function Lines(ls: seq<string>): string
    decreases |ls|
  {
    if ls == [] then "" else ls[0] + "\n" + Lines(ls[1..])
  }

  /** Splitting such a text at its newlines gives back the lines and one empty piece
      after the final newline, when no line holds a newline itself. */
  lemma {:induction false} SplitLines(ls: seq<string>)
    requires Avoids(ls, '\n')
    ensures Split(Lines(ls), '\n') == ls + [""]
    decreases |ls|
  {
    if ls == [] {
    } else {
      assert Avoids(ls[1..], '\n') by {
        forall i | 0 <= i < |ls[1..]| ensures '\n' !in ls[1..][i] {
          assert ls[1..][i] == ls[i + 1];
        }
      }
      SplitLines(ls[1..]);
      assert '\n' !in ls[0];
      SplitAt(ls[0], '\n', Lines(ls[1..]));
      assert [ls[0]] + (ls[1..] + [""]) == ls + [""];
    }
  }

  /** The text of two runs of lines is the text of the first followed by that of the second. */
  lemma {:induction false} LinesConcat(a: seq<string>, b: seq<string>)
    ensures Lines(a + b) == Lines(a) + Lines(b)
    decreases |a|
  {
    if a != [] {
      assert (a + b)[0] == a[0] && (a + b)[1..] == a[1..] + b;
      LinesConcat(a[1..], b);
    } else {
      assert a + b == b;
    }
  }

  /** In the text of some lines, a line's characters start right after the text of the
      lines before it. */
  lemma LinesAt(h: seq<string>, x: string, e: seq<string>, t: seq<string>, i: nat)
    requires i < |x|
    ensures var m := Lines(h + [x] + e + t); |m| > |Lines(h)| + i && m[|Lines(h)| + i] == x[i]
  {
    LinesConcat(h, [x] + (e + t));
    assert h + [x] + e + t == h + ([x] + (e + t));
    assert Lines([x] + (e + t)) == x + ("\n" + Lines(e + t));
  }

  /** A non-empty list of lines joined by newlines, with a newline after the last, is the
      text of those lines. */
  lemma {:induction false} JoinLines(ls: seq<string>)
    requires ls != []
    ensures Join("\n", ls) + "\n" == Lines(ls)
    decreases |ls|
  {
    if |ls| > 1 {
      JoinLines(ls[1..]);
    }
  }

  function DigitChar(d: nat): (c: char)
    requires d < 10
  {
    (d + 48) as char
  }

  predicate IsDigit(c: char) {
    '0' <= c <= '9'
  }

  /** `str(n)` for a non-negative integer: its decimal digits, no leading zero. */
  function NatToString(n: nat): (r: string)
    ensures |r| >= 1 && forall i :: 0 <= i < |r| ==> IsDigit(r[i])
    ensures |r| > 1 ==> r[0] != '0'
    decreases n
  {
    if n < 10 then [DigitChar(n)] else NatToString(n / 10) + [DigitChar(n % 10)]
  }

  /** `str(i)` for any integer: a minus sign before the digits of a negative value. */
  function IntToString(i: int): (r: string)
    ensures |r| >= 1
    ensures i < 0 <==> r[0] == '-'
  {
    if i < 0 then "-" + NatToString(-i) else NatToString(i)
  }

  /** The rendering of an integer is one line: it holds no newline. */
  lemma IntToStringOneLine(i: int)
    ensures '\n' !in IntToString(i)
  {
    if i < 0 {
      var d := NatToString(-i);
      assert forall k :: 0 <= k < |d| ==> IsDigit(d[k]);
      assert IntToString(i) == "-" + d;
    }
  }

  /** The value of a string of decimal digits (the reading `int(s)` gives). */
  function DecimalValue(s: string): nat
    requires forall i :: 0 <= i < |s| ==> IsDigit(s[i])
    decreases |s|
  {
    if s == [] then 0
    else
      assert IsDigit(s[|s| - 1]);
      DecimalValue(s[..|s| - 1]) * 10 + (s[|s| - 1] as int - '0' as int)
  }

  /** Reading back the decimal rendering gives the number. */
  lemma {:induction false} DecimalRoundTrip(n: nat)
    ensures DecimalValue(NatToString(n)) == n
    decreases n
  {
    if n >= 10 {
      var s := NatToString(n);
      var h := NatToString(n / 10);
      assert s == h + [DigitChar(n % 10)];
      assert s[..|s| - 1] == h;
      DecimalRoundTrip(n / 10);
    }
  }
}
