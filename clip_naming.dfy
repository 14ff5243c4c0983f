/**
 * The clip path template of main.py: the output directory joined with
 * `door_open_clip_{:03d}.mp4`, i.e. the clip index written in decimal and
 * zero-padded to at least three digits.
 */
module ClipNaming {
  import opened Common

  const Prefix: string := "door_open_clip_"
  const Extension: string := ".mp4"
  /** The field width of the `{:03d}` format. */
  const MinDigits: nat := 3

  predicate IsDigit(c: char) { '0' <= c <= '9' }

  predicate AllDigits(s: string) { forall i :: 0 <= i < |s| ==> IsDigit(s[i]) }

  function DigitChar(d: nat): (c: char)
    requires d < 10
    ensures IsDigit(c)
  {
    ('0' as int + d) as char
  }

  function DigitValue(c: char): nat
    requires IsDigit(c)
  {
    c as int - '0' as int
  }

  /** The decimal representation of `n`, without leading zeros. */
  function Decimal(n: nat): (s: string)
    ensures |s| > 0 && AllDigits(s)
    ensures n < 10 <==> |s| == 1
    ensures n > 0 ==> s[0] != '0'
    decreases n
  {
    if n < 10 then [DigitChar(n)] else Decimal(n / 10) + [DigitChar(n % 10)]
  }

  /** Reads a string of decimal digits back as a number. */
  function ParseDecimal(s: string): nat
    requires AllDigits(s)
  {
    if s == [] then 0 else ParseDecimal(s[..|s| - 1]) * 10 + DigitValue(s[|s| - 1])
  }

  /** Left-pads `s` with '0' up to `width` characters, as the `0` flag of a format does. */
  function ZeroPad(s: string, width: nat): (r: string)
    ensures |r| == if |s| < width then width else |s|
    decreases width - |s|
  {
    if |s| < width then ZeroPad("0" + s, width) else s
  }

  /** Padding only adds zeros, in front. */
  lemma {:induction false} ZeroPadShape(s: string, width: nat)
    ensures var r := ZeroPad(s, width);
      r[|r| - |s|..] == s && forall i :: 0 <= i < |r| - |s| ==> r[i] == '0'
    decreases width - |s|
  {
    if |s| < width {
      var z := "0" + s;
      ZeroPadShape(z, width);
      var r := ZeroPad(z, width);
      assert r[|r| - |z|..] == z;
      assert r[|r| - |s|..] == z[1..];
    }
  }

  /** The `{:03d}` rendering of a clip index. */
  function IndexField(index: nat): string {
    ZeroPad(Decimal(index), MinDigits)
  }

  function ClipFileName(index: nat): string {
    Prefix + IndexField(index) + Extension
  }

  /** The path of clip `index` inside the output directory `outDir`. */
  function ClipPath(outDir: string, index: nat): string {
    outDir + "/" + ClipFileName(index)
  }

  /** Recovers the clip index from a clip file name, if it has the template's shape. */
  function IndexOfFileName(name: string): Option<nat> {
    if |name| >= |Prefix| + |Extension|
       && name[..|Prefix|] == Prefix
       && name[|name| - |Extension|..] == Extension
       && AllDigits(name[|Prefix|..|name| - |Extension|])
    then Some(ParseDecimal(name[|Prefix|..|name| - |Extension|]))
    else None
  }

  lemma {:induction false} ParseDecimalOfDecimal(n: nat)
    ensures ParseDecimal(Decimal(n)) == n
    decreases n
  {
    if n >= 10 {
      ParseDecimalOfDecimal(n / 10);
      var s := Decimal(n);
      assert s[..|s| - 1] == Decimal(n / 10);
    }
  }

  /** A leading zero does not change the value of a digit string. */
  lemma {:induction false} ParseDecimalLeadingZero(s: string)
    requires AllDigits(s)
    ensures AllDigits("0" + s) && ParseDecimal("0" + s) == ParseDecimal(s)
    decreases |s|
  {
    var z := "0" + s;
    assert AllDigits(z) by {
      forall i | 0 <= i < |z| ensures IsDigit(z[i]) {
        if i > 0 { assert z[i] == s[i - 1]; }
      }
    }
    if s != [] {
      var init := s[..|s| - 1];
      ParseDecimalLeadingZero(init);
      assert z[..|z| - 1] == "0" + init;
      assert z[|z| - 1] == s[|s| - 1];
    }
  }

  lemma {:induction false} ParseDecimalOfZeroPad(s: string, width: nat)
    requires AllDigits(s)
    ensures AllDigits(ZeroPad(s, width)) && ParseDecimal(ZeroPad(s, width)) == ParseDecimal(s)
    decreases width - |s|
  {
    if |s| < width {
      ParseDecimalLeadingZero(s);
      ParseDecimalOfZeroPad("0" + s, width);
    }
  }

  /** The index field has at least three digits, and exactly three below 1000. */
  lemma {:induction false} IndexFieldShape(index: nat)
    ensures AllDigits(IndexField(index))
    ensures |IndexField(index)| >= MinDigits
    ensures index < 1000 ==> |IndexField(index)| == MinDigits
    ensures ParseDecimal(IndexField(index)) == index
  {
    ParseDecimalOfZeroPad(Decimal(index), MinDigits);
    ParseDecimalOfDecimal(index);
    if index < 1000 {
      DecimalLength(index);
    }
  }

  lemma {:induction false} DecimalLength(n: nat)
    ensures n < 1000 ==> |Decimal(n)| <= 3
  {
    if n >= 10 {
      DecimalLength(n / 10);
    }
  }

  /** A clip file name gives back the index it was made from. */
  lemma FileNameRoundTrip(index: nat)
    ensures IndexOfFileName(ClipFileName(index)) == Some(index)
  {
    var name := ClipFileName(index);
    var field := IndexField(index);
    IndexFieldShape(index);
    assert name[..|Prefix|] == Prefix;
    assert name[|name| - |Extension|..] == Extension;
    assert name[|Prefix|..|name| - |Extension|] == field;
  }

  /** Distinct indices never share a path, so no clip file is ever reused. */
  lemma ClipPathInjective(outDir: string, i: nat, j: nat)
    requires ClipPath(outDir, i) == ClipPath(outDir, j)
    ensures i == j
  {
    var pi, pj := ClipPath(outDir, i), ClipPath(outDir, j);
    assert pi[|outDir| + 1..] == ClipFileName(i);
    assert pj[|outDir| + 1..] == ClipFileName(j);
    FileNameRoundTrip(i);
    FileNameRoundTrip(j);
  }

  lemma FileNameExampleZero()
    ensures ClipFileName(0) == "door_open_clip_000.mp4"
  {
    assert Decimal(0) == "0";
    assert "0" + "0" == "00";
    assert "0" + "00" == "000";
    assert ZeroPad("000", 3) == "000";
    assert ZeroPad("00", 3) == "000";
    assert ZeroPad("0", 3) == "000";
    assert IndexField(0) == "000";
  }

  lemma FileNameExampleTwoDigits()
    ensures ClipFileName(42) == "door_open_clip_042.mp4"
  {
    assert Decimal(4) == "4";
    assert Decimal(42) == "42";
    assert "0" + "42" == "042";
    assert ZeroPad("042", 3) == "042";
    assert ZeroPad("42", 3) == "042";
    assert IndexField(42) == "042";
  }

  /** An index of four digits is written in full, not truncated to three. */
  lemma FileNameExampleFourDigits()
    ensures ClipFileName(1234) == "door_open_clip_1234.mp4"
  {
    assert Decimal(1) == "1";
    assert Decimal(12) == "12";
    assert Decimal(123) == "123";
    assert Decimal(1234) == "1234";
    assert ZeroPad("1234", 3) == "1234";
    assert IndexField(1234) == "1234";
  }
}
