/** The name of the file the experiment script writes its results to:
    `log_dir + '/{}_{}_{}.pickle'.format(file_name, method, meta_batch_size)`. */
module Naming {

  predicate IsDigit(c: char) {
    '0' <= c <= '9'
  }

  predicate AllDigits(s: string) {
    forall i :: 0 <= i < |s| ==> IsDigit(s[i])
  }

  function Digit(d: nat): (c: char)
    requires d < 10
    ensures IsDigit(c)
  {
    ('0' as int + d) as char
  }

  function DigitValue(c: char): (d: nat)
    requires IsDigit(c)
    ensures d < 10 && Digit(d) == c
  {
    c as int - '0' as int
  }

  /** Python's decimal rendering of a non-negative int, as `format` writes it. */
  function Decimal(n: nat): (s: string)
    ensures |s| > 0 && AllDigits(s)
    ensures |s| > 1 ==> s[0] != '0'
  {
    if n < 10 then [Digit(n)] else Decimal(n / 10) + [Digit(n % 10)]
  }

  /** The number a string of decimal digits denotes; the inverse of Decimal. */
  function DecimalValue(s: string): nat
    requires AllDigits(s)
  {
    if |s| == 0 then 0 else 10 * DecimalValue(s[..|s| - 1]) + DigitValue(s[|s| - 1])
  }

  /** Reading back the rendering of n gives n. */
  lemma {:induction false} DecimalRoundTrip(n: nat)
    ensures DecimalValue(Decimal(n)) == n
  {
    if n >= 10 {
      var s := Decimal(n);
      assert s[..|s| - 1] == Decimal(n / 10);
      DecimalRoundTrip(n / 10);
    }
  }

  /** Different numbers render differently. */
  lemma DecimalInjective(a: nat, b: nat)
    requires Decimal(a) == Decimal(b)
    ensures a == b
  {
    DecimalRoundTrip(a);
    DecimalRoundTrip(b);
  }

  /** The method names the script can write into the file name. */
  predicate KnownMethod(methodName: string) {
    methodName == "Base" || methodName == "Disjoint"
  }

  /** The path of the gzip-pickled result log. */
  function OutputPath(logDir: string, fileName: string, methodName: string, metaBatchSize: nat): (path: string)
    ensures |path| > |logDir| + 8 && path[..|logDir| + 1] == logDir + "/"
    ensures path[|path| - 7..] == ".pickle"
  {
    logDir + "/" + fileName + "_" + Tail(methodName, metaBatchSize)
  }

  /** The part of the file name after `file_name + "_"`. */
  function Tail(methodName: string, metaBatchSize: nat): string {
    methodName + "_" + Decimal(metaBatchSize) + ".pickle"
  }

  lemma DropPrefix(p: string, x: string, y: string)
    requires p + x == p + y
    ensures x == y
  {
    assert x == (p + x)[|p|..];
    assert y == (p + y)[|p|..];
  }

  lemma TailMethod(m1: string, b1: nat, m2: string, b2: nat)
    requires KnownMethod(m1) && KnownMethod(m2) && Tail(m1, b1) == Tail(m2, b2)
    ensures m1 == m2
  {
    assert Tail(m1, b1)[0] == m1[0];
    assert Tail(m2, b2)[0] == m2[0];
  }

  lemma TailNumber(m: string, b1: nat, b2: nat)
    requires Tail(m, b1) == Tail(m, b2)
    ensures b1 == b2
  {
    var d1, d2 := Decimal(b1), Decimal(b2);
    assert Tail(m, b1) == (m + "_") + (d1 + ".pickle");
    assert Tail(m, b2) == (m + "_") + (d2 + ".pickle");
    DropPrefix(m + "_", d1 + ".pickle", d2 + ".pickle");
    assert d1 == (d1 + ".pickle")[..|d1|];
    assert d2 == (d2 + ".pickle")[..|d2|];
    DecimalInjective(b1, b2);
  }

  /** Within one directory and file name, the path tells the method and the
      meta batch size apart: two runs that differ in either never write to
      the same file. */
  lemma OutputPathIdentifiesRun(logDir: string, fileName: string,
                                m1: string, b1: nat, m2: string, b2: nat)
    requires KnownMethod(m1) && KnownMethod(m2)
    requires OutputPath(logDir, fileName, m1, b1) == OutputPath(logDir, fileName, m2, b2)
    ensures m1 == m2 && b1 == b2
  {
    DropPrefix(logDir + "/" + fileName + "_", Tail(m1, b1), Tail(m2, b2));
    TailMethod(m1, b1, m2, b2);
    TailNumber(m1, b1, b2);
  }
}
