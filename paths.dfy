/** The path and text helpers the agent and the server rely on: POSIX
    `os.path.join` of two components, `os.path.basename`, and the decimal
    rendering of a counter inside a status message. */
module Paths {

  /** `os.path.join(dir, file)`: an absolute `file` replaces `dir`; an empty
      `dir` adds nothing; otherwise a single `/` separates the two. */
  function Join(dir: string, file: string): (p: string)
    ensures |file| > 0 && file[0] == '/' ==> p == file
    ensures (|file| == 0 || file[0] != '/') ==> |p| >= |file| && p[|p| - |file|..] == file
    ensures (|file| == 0 || file[0] != '/') ==> |dir| <= |p| && p[..|dir|] == dir
  {
    if |file| > 0 && file[0] == '/' then file
    else if dir == "" || dir[|dir| - 1] == '/' then dir + file
    else dir + "/" + file
  }

  /** `os.path.basename(p)`: whatever follows the last `/`. */
  function BaseName(p: string): (r: string)
    ensures |r| <= |p| && p[|p| - |r|..] == r
    ensures forall i :: 0 <= i < |r| ==> r[i] != '/'
    ensures |r| < |p| ==> p[|p| - |r| - 1] == '/'
  {
    if p == [] then []
    else if p[|p| - 1] == '/' then []
    else BaseName(p[..|p| - 1]) + [p[|p| - 1]]
  }

  /** The base name of a file joined under a directory is the file's own
      name, whenever that name holds no separator. */
  lemma {:induction false} BaseNameOfJoin(dir: string, file: string)
    requires forall i :: 0 <= i < |file| ==> file[i] != '/'
    ensures BaseName(Join(dir, file)) == file
  {
    var p := Join(dir, file);
    assert |file| == 0 || file[0] != '/';
    BaseNameOfSuffix(p, file);
  }

  /** Taking the base name of a path whose last component is `file`. */
  lemma {:induction false} BaseNameOfSuffix(p: string, file: string)
    requires |file| <= |p| && p[|p| - |file|..] == file
    requires forall i :: 0 <= i < |file| ==> file[i] != '/'
    requires |file| < |p| ==> p[|p| - |file| - 1] == '/'
    ensures BaseName(p) == file
    decreases |file|
  {
    if file == [] {
      if p != [] {
        assert p[|p| - 1] == '/';
      }
    } else {
      var q := p[..|p| - 1];
      var f := file[..|file| - 1];
      assert p[|p| - 1] == file[|file| - 1];
      assert q[|q| - |f|..] == f;
      if |f| < |q| {
        assert q[|q| - |f| - 1] == p[|p| - |file| - 1];
      }
      BaseNameOfSuffix(q, f);
      assert file == f + [file[|file| - 1]];
    }
  }

  /** The decimal digit for 0 <= d < 10. */
  function Digit(d: nat): (c: char)
    requires d < 10
    ensures '0' <= c <= '9'
  {
    "0123456789"[d]
  }

  /** Decimal rendering of a counter, as an f-string prints an `int`. */
  function NatText(n: nat): (s: string)
    ensures |s| > 0
    ensures forall i :: 0 <= i < |s| ==> '0' <= s[i] <= '9'
    ensures n >= 10 ==> s[0] != '0'
  {
    if n < 10 then [Digit(n)] else NatText(n / 10) + [Digit(n % 10)]
  }

  /** The number a string of decimal digits denotes. */
  function DecimalValue(s: string): nat
    requires forall i :: 0 <= i < |s| ==> '0' <= s[i] <= '9'
  {
    if |s| == 0 then 0
    else 10 * DecimalValue(s[..|s| - 1]) + ((s[|s| - 1] as int) - ('0' as int))
  }

  /** The digit character of d denotes d. */
  lemma DigitValue(d: nat)
    requires d < 10
    ensures (Digit(d) as int) - ('0' as int) == d
  {
  }

  /** `NatText(n)` is the decimal text of n: read back, it denotes n. */
  lemma {:induction false} NatTextValue(n: nat)
    ensures DecimalValue(NatText(n)) == n
  {
    var s := NatText(n);
    if n < 10 {
      DigitValue(n);
      assert s[..|s| - 1] == [];
    } else {
      NatTextValue(n / 10);
      DigitValue(n % 10);
      assert s[..|s| - 1] == NatText(n / 10);
    }
  }
}
