/** `parse_size`: a human size string such as "10G" or "2048" becomes a
    whole number in a target unit (K or M in every call of the builder). */
module Size {
  import opened Wrappers
  import opened Text

  datatype Unit = K | M | G | T

  function Symbol(u: Unit): char
  {
    match u
    case K => 'K'
    case M => 'M'
    case G => 'G'
    case T => 'T'
  }

  /** The conversion table, in kibibytes per unit. */
  function Factor(u: Unit): (f: nat)
    ensures f >= 1
  {
    match u
    case K => 1
    case M => 1024
    case G => 1048576
    case T => 1073741824
  }

  function UnitOf(c: char): (r: Option<Unit>)
    ensures r.Some? <==> c in "KMGT"
    ensures r.Some? ==> Symbol(r.value) == c
  {
    if c == 'K' then Some(K)
    else if c == 'M' then Some(M)
    else if c == 'G' then Some(G)
    else if c == 'T' then Some(T)
    else None
  }

  /** `size =~ /^[0-9.]+$/`: an integer or a decimal fraction without unit. */
  predicate IsNumeric(s: string)
  {
    |s| > 0 && forall i :: 0 <= i < |s| ==> IsDigit(s[i]) || s[i] == '.'
  }

  /** parse_size(size, target_unit), with magnitudes read as naturals. */
  function ParseSize(size: string, target: Unit): Result<nat, Error>
  {
    if IsNumeric(size) then
      // the caller is trusted to have written the target unit already
      Ok(LeadingNat(size))
    else if size == [] then
      // ""[-1, 1] is nil, which is not in the table
      Err(UnknownUnit([]))
    else
      var unit := size[|size| - 1];
      if unit == Symbol(target) then
        Ok(LeadingNat(size[..|size| - 1]))
      else
        match UnitOf(unit)
        case None => Err(UnknownUnit([unit]))
        case Some(u) => Ok(LeadingNat(size) * Factor(u) / Factor(target))
  }

  /** The exact value of a conversion between two units, truncated toward zero. */
  function Convert(n: nat, from: Unit, to: Unit): (r: nat)
    ensures r * Factor(to) <= n * Factor(from) < (r + 1) * Factor(to)
  {
    n * Factor(from) / Factor(to)
  }

  /** A size written as digits and a unit symbol reads back as that many
      units, expressed in the target unit (truncated when the target is larger). */
  lemma WrittenSizeReadsBack(n: nat, u: Unit, target: Unit)
    ensures ParseSize(Decimal(n) + [Symbol(u)], target) ==
      Ok(if u == target then n else Convert(n, u, target))
  {
    var s := Decimal(n) + [Symbol(u)];
    assert !IsNumeric(s) by { assert !IsDigit(s[|s| - 1]) && s[|s| - 1] != '.'; }
    assert s[..|s| - 1] == Decimal(n);
    assert s[|s| - 1] == Symbol(u);
    ReadDecimal(n, [Symbol(u)]);
    ReadDecimal(n, []);
    assert Decimal(n) + [] == Decimal(n);
  }

  /** Converting to a smaller unit is exact: no rounding happens. */
  lemma ConvertDown(n: nat, from: Unit, to: Unit)
    requires Factor(to) <= Factor(from)
    ensures Convert(n, from, to) * Factor(to) == n * Factor(from)
  {
    var q := Factor(from) / Factor(to);
    assert q * Factor(to) == Factor(from) by {
      match from
      case K =>
      case M =>
      case G =>
      case T =>
    }
    assert n * Factor(from) == (n * q) * Factor(to);
  }

  /** The table is binary: K is one kibibyte, and each unit is 1024 of the one below. */
  lemma FactorTable()
    ensures Factor(K) == 1 && Factor(M) == 1024 * Factor(K)
    ensures Factor(G) == 1024 * Factor(M) && Factor(T) == 1024 * Factor(G)
  {
  }

  /** A bare number is taken as already in the target unit. */
  lemma NumericPassThrough(n: nat, target: Unit)
    ensures ParseSize(Decimal(n), target) == Ok(n)
  {
    var s := Decimal(n);
    assert IsNumeric(s);
    ReadDecimal(n, []);
    assert s + [] == s;
  }

  /** parse_size aborts exactly on a non-numeric size whose last character
      is not one of K, M, G, T; the error names that character. */
  lemma ParseSizeFails(size: string, target: Unit)
    ensures ParseSize(size, target).Err? <==>
      !IsNumeric(size) && (size == [] || UnitOf(size[|size| - 1]).None?)
    ensures ParseSize(size, target).Err? ==>
      ParseSize(size, target).error == UnknownUnit(if size == [] then [] else [size[|size| - 1]])
  {
    if !IsNumeric(size) && size != [] && size[|size| - 1] == Symbol(target) {
      assert UnitOf(Symbol(target)).Some? by {
        match target
        case K =>
        case M =>
        case G =>
        case T =>
      }
    }
  }

  /** 10G is 10485760 KiB. */
  lemma TenGibInKib()
    ensures ParseSize("10G", K) == Ok(10485760)
  {
    assert Decimal(1) == "1";
    assert Decimal(10) == "10";
    WrittenSizeReadsBack(10, G, K);
  }

  /** 2G is 2048 MiB (the memory of the medium template). */
  lemma TwoGibInMib()
    ensures ParseSize("2G", M) == Ok(2048)
  {
    assert Decimal(2) == "2";
    WrittenSizeReadsBack(2, G, M);
  }

  /** 15G is 15728640 KiB (the disk of every template). */
  lemma FifteenGibInKib()
    ensures ParseSize("15G", K) == Ok(15728640)
  {
    assert Decimal(1) == "1";
    assert Decimal(15) == "15";
    WrittenSizeReadsBack(15, G, K);
  }

  /** The same unit gives the magnitude back: 5M in MiB is 5. */
  lemma SameUnitExample()
    ensures ParseSize("5M", M) == Ok(5)
  {
    assert Decimal(5) == "5";
    WrittenSizeReadsBack(5, M, M);
  }

  /** A bare 1024 is returned as it is. */
  lemma NumericExample()
    ensures ParseSize("1024", K) == Ok(1024)
  {
    assert Decimal(1) == "1";
    assert Decimal(10) == "10";
    assert Decimal(102) == "102";
    assert Decimal(1024) == "1024";
    NumericPassThrough(1024, K);
  }

  /** An unknown unit aborts and names the unit. */
  lemma UnknownUnitExample()
    ensures ParseSize("7X", K) == Err(UnknownUnit("X"))
  {
    assert !IsNumeric("7X") by { assert !IsDigit("7X"[1]); }
  }
}
