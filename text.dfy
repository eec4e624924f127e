/** The few Ruby string operations the VM builder relies on: unanchored
    literal matching, String#split on one character, and reading the
    decimal digits at the front of a string. */
module Text {
  import opened Wrappers

  predicate IsDigit(c: char) { '0' <= c <= '9' }

  predicate AllDigits(s: string) { forall i :: 0 <= i < |s| ==> IsDigit(s[i]) }

  function DigitValue(c: char): (d: nat)
    requires IsDigit(c)
    ensures d < 10
  {
    c as int - '0' as int
  }

  function DigitChar(d: nat): (c: char)
    requires d < 10
    ensures IsDigit(c) && DigitValue(c) == d
  {
    ('0' as int + d) as char
  }

  // ---------------------------------------------------------------------
  // Literal matching (a regular expression without metacharacters)

  predicate StartsWith(t: string, s: string) { |s| <= |t| && t[..|s|] == s }

  /** `t =~ /s/` for a pattern s made only of literal characters. */
  predicate Contains(t: string, s: string)
    decreases |t|
  {
    StartsWith(t, s) || (|t| > 0 && Contains(t[1..], s))
  }

  // ---------------------------------------------------------------------
  // String#split on a single character

  /** Every field between separators, empty ones included. */
  function SplitAll(s: string, sep: char): (r: seq<string>)
    ensures |r| >= 1
    ensures forall i :: 0 <= i < |r| ==> sep !in r[i]
    decreases |s|
  {
    if s == [] then [[]]
    else
      var rest := SplitAll(s[1..], sep);
      if s[0] == sep then [[]] + rest
      else [[s[0]] + rest[0]] + rest[1..]
  }

  /** The inverse of SplitAll: the fields glued back with the separator. */
  function Join(fs: seq<string>, sep: char): string
    decreases |fs|
  {
    if fs == [] then []
    else if |fs| == 1 then fs[0]
    else fs[0] + [sep] + Join(fs[1..], sep)
  }

  /** Ruby drops the empty fields at the end of a split. */
  function DropTrailingEmpty(fs: seq<string>): (r: seq<string>)
    ensures |r| <= |fs| && r == fs[..|r|]
    ensures r == [] || r[|r| - 1] != []
    ensures forall i :: |r| <= i < |fs| ==> fs[i] == []
    decreases |fs|
  {
    if fs == [] then []
    else if fs[|fs| - 1] == [] then DropTrailingEmpty(fs[..|fs| - 1])
    else fs
  }

  /** `s.split(sep)` in Ruby, for a one-character, non-space separator. */
  function Fields(s: string, sep: char): seq<string>
  {
    DropTrailingEmpty(SplitAll(s, sep))
  }

  /** `s.split(sep)[0]`: None stands for Ruby's nil. */
  function FirstField(s: string, sep: char): Option<string>
  {
    var fs := Fields(s, sep);
    if fs == [] then None else Some(fs[0])
  }

  lemma {:induction false} JoinSplitAll(s: string, sep: char)
    ensures Join(SplitAll(s, sep), sep) == s
    decreases |s|
  {
    if s != [] {
      var rest := SplitAll(s[1..], sep);
      JoinSplitAll(s[1..], sep);
      if s[0] == sep {
        assert SplitAll(s, sep) == [[]] + rest;
        assert ([[]] + rest)[1..] == rest;
      } else {
        var fs := [[s[0]] + rest[0]] + rest[1..];
        assert SplitAll(s, sep) == fs;
        if |rest| > 1 {
          assert fs[1..] == rest[1..];
          assert Join(rest, sep) == rest[0] + [sep] + Join(rest[1..], sep);
        }
      }
    }
  }

  /** A field with no separator, a separator, then the rest: the field comes first. */
  lemma {:induction false} SplitAllCons(a: string, sep: char, s: string)
    requires sep !in a
    ensures SplitAll(a + [sep] + s, sep) == [a] + SplitAll(s, sep)
    decreases |a|
  {
    if a == [] {
      assert ([] + [sep] + s)[1..] == s;
    } else {
      var t := a + [sep] + s;
      assert t[1..] == a[1..] + [sep] + s;
      SplitAllCons(a[1..], sep, s);
      assert [a[0]] + a[1..] == a;
    }
  }

  /** A text without the separator is a single field. */
  lemma {:induction false} SplitAllSingle(a: string, sep: char)
    requires sep !in a
    ensures SplitAll(a, sep) == [a]
    decreases |a|
  {
    if a != [] {
      SplitAllSingle(a[1..], sep);
      assert [a[0]] + a[1..] == a;
    }
  }

  /** Splitting undoes joining, for fields that hold no separator. */
  lemma {:induction false} SplitAllJoin(fs: seq<string>, sep: char)
    requires |fs| >= 1
    requires forall i :: 0 <= i < |fs| ==> sep !in fs[i]
    ensures SplitAll(Join(fs, sep), sep) == fs
    decreases |fs|
  {
    if |fs| == 1 {
      SplitAllSingle(fs[0], sep);
    } else {
      SplitAllJoin(fs[1..], sep);
      SplitAllCons(fs[0], sep, Join(fs[1..], sep));
      assert [fs[0]] + fs[1..] == fs;
    }
  }

  /** When the text does not end in a separator, Ruby's split loses nothing. */
  lemma JoinFields(s: string, sep: char)
    requires s == [] || s[|s| - 1] != sep
    ensures Join(Fields(s, sep), sep) == s
  {
    JoinSplitAll(s, sep);
    var all := SplitAll(s, sep);
    if s != [] {
      LastFieldNonEmpty(s, sep);
      assert DropTrailingEmpty(all) == all;
    } else {
      assert all == [[]];
      assert Fields(s, sep) == [];
    }
  }

  lemma {:induction false} LastFieldNonEmpty(s: string, sep: char)
    requires s != [] && s[|s| - 1] != sep
    ensures SplitAll(s, sep)[|SplitAll(s, sep)| - 1] != []
    decreases |s|
  {
    var rest := SplitAll(s[1..], sep);
    if |s| > 1 {
      LastFieldNonEmpty(s[1..], sep);
    }
  }

  /** The first field is the text up to the first separator. */
  lemma {:induction false} SplitAllHead(s: string, sep: char)
    ensures var h := SplitAll(s, sep)[0];
      |h| <= |s| && s[..|h|] == h && (|h| == |s| || s[|h|] == sep)
    decreases |s|
  {
    if s != [] && s[0] != sep {
      SplitAllHead(s[1..], sep);
    }
  }

  /** All fields of a split are empty exactly when the text holds only separators. */
  lemma {:induction false} AllFieldsEmpty(s: string, sep: char)
    ensures (forall i :: 0 <= i < |SplitAll(s, sep)| ==> SplitAll(s, sep)[i] == [])
        <==> (forall j :: 0 <= j < |s| ==> s[j] == sep)
    decreases |s|
  {
    if s != [] {
      var rest := SplitAll(s[1..], sep);
      AllFieldsEmpty(s[1..], sep);
      if s[0] == sep {
        var all := [[]] + rest;
        assert SplitAll(s, sep) == all;
        assert (forall i :: 0 <= i < |all| ==> all[i] == [])
            <==> (forall i :: 0 <= i < |rest| ==> rest[i] == []) by {
          assert forall i :: 0 <= i < |rest| ==> all[i + 1] == rest[i];
        }
        assert (forall j :: 0 <= j < |s| ==> s[j] == sep)
            <==> (forall j :: 0 <= j < |s[1..]| ==> s[1..][j] == sep) by {
          assert forall j :: 0 <= j < |s[1..]| ==> s[j + 1] == s[1..][j];
        }
      } else {
        assert SplitAll(s, sep)[0] != [];
      }
    }
  }

  /** `s.split(sep)[0]` is the text before the first separator, or nil when
      the text is nothing but separators. */
  lemma FirstFieldIsPrefix(s: string, sep: char)
    ensures FirstField(s, sep).None? <==> (forall j :: 0 <= j < |s| ==> s[j] == sep)
    ensures FirstField(s, sep).Some? ==>
      var h := FirstField(s, sep).value;
      sep !in h && |h| <= |s| && s[..|h|] == h && (|h| == |s| || s[|h|] == sep)
  {
    var all := SplitAll(s, sep);
    AllFieldsEmpty(s, sep);
    SplitAllHead(s, sep);
    var r := Fields(s, sep);
    if r == [] {
      assert forall i :: 0 <= i < |all| ==> all[i] == [];
    } else {
      assert r[0] == all[0];
      assert !(forall i :: 0 <= i < |all| ==> all[i] == []) by {
        assert all[|r| - 1] == r[|r| - 1];
      }
    }
  }

  /** A non-empty field ahead of the first separator is what `split(sep)[0]` gives. */
  lemma FirstFieldOf(a: string, sep: char, rest: string)
    requires a != [] && sep !in a
    ensures FirstField(a + [sep] + rest, sep) == Some(a)
  {
    SplitAllCons(a, sep, rest);
    var fs := SplitAll(a + [sep] + rest, sep);
    assert fs[0] == a;
  }

  // ---------------------------------------------------------------------
  // Decimal numbers

  /** The longest prefix made of decimal digits. */
  function LeadingDigits(s: string): (r: string)
    ensures |r| <= |s| && r == s[..|r|] && AllDigits(r)
    ensures |r| == |s| || !IsDigit(s[|r|])
    decreases |s|
  {
    if s == [] || !IsDigit(s[0]) then []
    else [s[0]] + LeadingDigits(s[1..])
  }

  /** The value of a string of decimal digits, most significant first. */
  function DigitsValue(ds: string): nat
    requires AllDigits(ds)
    decreases |ds|
  {
    if ds == [] then 0
    else DigitsValue(ds[..|ds| - 1]) * 10 + DigitValue(ds[|ds| - 1])
  }

  /** What Ruby's `to_f`/`to_i` read from an unsigned integer at the front;
      0 when the text does not start with a digit. */
  function LeadingNat(s: string): nat
  {
    DigitsValue(LeadingDigits(s))
  }

  /** The decimal numeral of n, without leading zeros. */
  function Decimal(n: nat): (r: string)
    ensures |r| >= 1 && AllDigits(r)
    decreases n
  {
    if n < 10 then [DigitChar(n)] else Decimal(n / 10) + [DigitChar(n % 10)]
  }

  lemma {:induction false} DecimalValue(n: nat)
    ensures DigitsValue(Decimal(n)) == n
    decreases n
  {
    if n >= 10 {
      var d := Decimal(n);
      DecimalValue(n / 10);
      assert d[..|d| - 1] == Decimal(n / 10);
    }
  }

  /** The digit run at the front ends where the first non-digit stands. */
  lemma {:induction false} LeadingDigitsOfNumeral(ds: string, rest: string)
    requires AllDigits(ds)
    requires rest == [] || !IsDigit(rest[0])
    ensures LeadingDigits(ds + rest) == ds
    decreases |ds|
  {
    if ds != [] {
      assert (ds + rest)[1..] == ds[1..] + rest;
      LeadingDigitsOfNumeral(ds[1..], rest);
      assert [ds[0]] + ds[1..] == ds;
    } else {
      assert ds + rest == rest;
    }
  }

  /** A decimal numeral followed by a non-digit reads back as its number. */
  lemma ReadDecimal(n: nat, rest: string)
    requires rest == [] || !IsDigit(rest[0])
    ensures LeadingNat(Decimal(n) + rest) == n
  {
    LeadingDigitsOfNumeral(Decimal(n), rest);
    DecimalValue(n);
  }
}
