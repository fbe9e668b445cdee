/** The preprocessor option strings the consistency-check kernel is compiled
    with (include/generate_consistency_check.hpp, lines 5-15), and a parser
    that reads the macro values back out of such a string. */
module BuildOptions {
  import opened CTypes
  import opened Decimal
  import opened Strings

  const InvalidPrefix: string := "-DINVALID_DISPARITY_VALUE="
  const TolKey: string := " -DTOL="
  const WidthKey: string := " -DWIDTH="
  const ElemsKey: string := " -DELEMS="

  /** `defaultOptions()`. INVALID_DISPARITY_VALUE is a compile-time constant of
      the build; here it is a parameter. */
  function DefaultOptions(invalidDisparity: int): (s: string)
    ensures StartsWith(s, InvalidPrefix)
  {
    InvalidPrefix + IntToDecimal(invalidDisparity)
  }

  /** `extendedOptions(width, height, tolerance)`. The element count is the
      `int` product of the two `uint16_t` values, exact only when it does not
      exceed the largest `int`. */
  function ExtendedOptions(invalidDisparity: int, width: UInt16, height: UInt16, tolerance: UInt16): (s: string)
    requires ElementCount(width, height) <= Int32Max
    ensures StartsWith(s, DefaultOptions(invalidDisparity))
  {
    DefaultOptions(invalidDisparity) + ExtendedFields(tolerance, width, ElementCount(width, height))
  }

  /** The three definitions `extendedOptions` appends, in order. */
  function ExtendedFields(tol: nat, width: nat, elems: nat): (s: string)
    ensures StartsWith(s, TolKey)
  {
    Define(TolKey, tol) + (Define(WidthKey, width) + Define(ElemsKey, elems))
  }

  /** `width * height`, the ELEMS value: the product of two `uint16_t` values
      taken as an `int`. */
  function ElementCount(width: UInt16, height: UInt16): nat {
    width * height
  }

  /** One ` -DNAME=value` definition with the value in decimal. */
  function Define(key: string, n: nat): (s: string)
    ensures StartsWith(s, key)
  {
    key + NatToDecimal(n)
  }

  /** `using_macros ? extendedOptions(...) : defaultOptions()`. */
  function ChooseOptions(invalidDisparity: int, width: UInt16, height: UInt16, tolerance: UInt16, usingMacros: bool): (s: string)
    requires usingMacros ==> ElementCount(width, height) <= Int32Max
    ensures usingMacros ==> ParseOptions(s) == Some(Macros(invalidDisparity, Some(Extended(tolerance, width, ElementCount(width, height)))))
    ensures !usingMacros ==> ParseOptions(s) == Some(Macros(invalidDisparity, None))
  {
    if usingMacros then
      ParseExtendedOptions(invalidDisparity, width, height, tolerance);
      ExtendedOptions(invalidDisparity, width, height, tolerance)
    else
      ParseDefaultOptions(invalidDisparity);
      DefaultOptions(invalidDisparity)
  }

  /** The macro values an option string defines. */
  datatype Extended = Extended(tol: nat, width: nat, elems: nat)
  datatype Macros = Macros(invalidDisparity: int, extended: Option<Extended>)

  /** Reads `key` followed by an unsigned numeral at the front of `s`. */
  function ReadField(key: string, s: string): Option<(nat, string)> {
    if StartsWith(s, key) then ReadNat(s[|key|..]) else None
  }

  /** Reads the TOL, WIDTH and ELEMS definitions, in that order, up to the
      end of the string. */
  function ParseExtendedFields(s: string): Option<Extended> {
    match ReadField(TolKey, s)
    case None => None
    case Some((tol, rest)) => match ParseWidthAndElems(rest)
      case None => None
      case Some((width, elems)) => Some(Extended(tol, width, elems))
  }

  /** Reads the WIDTH and ELEMS definitions up to the end of the string. */
  function ParseWidthAndElems(s: string): Option<(nat, nat)> {
    match ReadField(WidthKey, s)
    case None => None
    case Some((width, rest)) => match ReadField(ElemsKey, rest)
      case None => None
      case Some((elems, rest')) => if rest' == [] then Some((width, elems)) else None
  }

  /** Reads an option string of either shape back into its macro values. */
  function ParseOptions(s: string): Option<Macros> {
    if !StartsWith(s, InvalidPrefix) then None
    else ParseAfterPrefix(s[|InvalidPrefix|..])
  }

  /** Reads what follows `-DINVALID_DISPARITY_VALUE=`: the signed value, then
      either nothing or the extended definitions. */
  function ParseAfterPrefix(s: string): Option<Macros> {
    match ReadInt(s)
    case None => None
    case Some((invalid, rest)) =>
      if rest == [] then Some(Macros(invalid, None))
      else match ParseExtendedFields(rest)
        case None => None
        case Some(e) => Some(Macros(invalid, Some(e)))
  }

  lemma ParsePrefixed(rest: string)
    ensures ParseOptions(InvalidPrefix + rest) == ParseAfterPrefix(rest)
  {
    var s := InvalidPrefix + rest;
    assert s[..|InvalidPrefix|] == InvalidPrefix;
    assert s[|InvalidPrefix|..] == rest;
  }

  lemma ReadFieldOf(key: string, n: nat, rest: string)
    requires rest == [] || !IsDigit(rest[0])
    ensures ReadField(key, Define(key, n) + rest) == Some((n, rest))
  {
    var d := NatToDecimal(n);
    var s := Define(key, n) + rest;
    assert s == key + (d + rest);
    assert s[..|key|] == key;
    assert s[|key|..] == d + rest;
    ReadNatOfDecimal(n, rest);
  }

  /** The default options define only INVALID_DISPARITY_VALUE, and its value
      reads back. */
  lemma ParseDefaultOptions(invalidDisparity: int)
    ensures ParseOptions(DefaultOptions(invalidDisparity)) == Some(Macros(invalidDisparity, None))
  {
    var v := IntToDecimal(invalidDisparity);
    ParsePrefixed(v);
    assert v == v + [];
    ReadIntOfDecimal(invalidDisparity, []);
  }

  lemma ParseWidthAndElemsOf(width: nat, elems: nat)
    ensures ParseWidthAndElems(Define(WidthKey, width) + Define(ElemsKey, elems)) == Some((width, elems))
  {
    var e := Define(ElemsKey, elems);
    ReadFieldOf(WidthKey, width, e);
    assert e == e + [];
    ReadFieldOf(ElemsKey, elems, []);
  }

  /** The three extended definitions read back. */
  lemma ParseExtendedFieldsOf(tol: nat, width: nat, elems: nat)
    ensures ParseExtendedFields(ExtendedFields(tol, width, elems)) == Some(Extended(tol, width, elems))
  {
    var w := Define(WidthKey, width) + Define(ElemsKey, elems);
    ReadFieldOf(TolKey, tol, w);
    ParseWidthAndElemsOf(width, elems);
  }

  lemma ParseDefaultPrefixed(invalidDisparity: int, rest: string)
    ensures ParseOptions(DefaultOptions(invalidDisparity) + rest) == ParseAfterPrefix(IntToDecimal(invalidDisparity) + rest)
  {
    var v := IntToDecimal(invalidDisparity);
    assert DefaultOptions(invalidDisparity) + rest == InvalidPrefix + (v + rest);
    ParsePrefixed(v + rest);
  }

  lemma ParseAfterPrefixOf(invalidDisparity: int, fields: string, e: Extended)
    requires fields != [] && !IsDigit(fields[0])
    requires ParseExtendedFields(fields) == Some(e)
    ensures ParseAfterPrefix(IntToDecimal(invalidDisparity) + fields) == Some(Macros(invalidDisparity, Some(e)))
  {
    ReadIntOfDecimal(invalidDisparity, fields);
  }

  /** Default options followed by definitions that parse on their own: the
      invalid value and those definitions both read back. */
  lemma ParseDefaultThenFields(invalidDisparity: int, fields: string, e: Extended)
    requires fields != [] && !IsDigit(fields[0])
    requires ParseExtendedFields(fields) == Some(e)
    ensures ParseOptions(DefaultOptions(invalidDisparity) + fields) == Some(Macros(invalidDisparity, Some(e)))
  {
    ParseDefaultPrefixed(invalidDisparity, fields);
    ParseAfterPrefixOf(invalidDisparity, fields, e);
  }

  /** The extended options define TOL, WIDTH and ELEMS in that order, and
      reading them back gives the tolerance, the width and width * height. */
  lemma ParseExtendedOptions(invalidDisparity: int, width: UInt16, height: UInt16, tolerance: UInt16)
    requires ElementCount(width, height) <= Int32Max
    ensures ParseOptions(ExtendedOptions(invalidDisparity, width, height, tolerance))
         == Some(Macros(invalidDisparity, Some(Extended(tolerance, width, ElementCount(width, height)))))
  {
    var elems := ElementCount(width, height);
    var fields := ExtendedFields(tolerance, width, elems);
    assert fields[..|TolKey|][0] == ' ';
    ParseExtendedFieldsOf(tolerance, width, elems);
    ParseDefaultThenFields(invalidDisparity, fields, Extended(tolerance, width, elems));
  }

  /** The height reaches the options only through the element count: two
      heights give the same options exactly when they give the same product. */
  lemma HeightOnlyThroughElems(invalidDisparity: int, width: UInt16, h1: UInt16, h2: UInt16, tolerance: UInt16)
    requires ElementCount(width, h1) <= Int32Max && ElementCount(width, h2) <= Int32Max
    ensures ExtendedOptions(invalidDisparity, width, h1, tolerance) == ExtendedOptions(invalidDisparity, width, h2, tolerance)
        <==> ElementCount(width, h1) == ElementCount(width, h2)
  {
    if ExtendedOptions(invalidDisparity, width, h1, tolerance) == ExtendedOptions(invalidDisparity, width, h2, tolerance) {
      ParseExtendedOptions(invalidDisparity, width, h1, tolerance);
      ParseExtendedOptions(invalidDisparity, width, h2, tolerance);
    }
  }

  /** Different macro values give different option strings. */
  lemma ExtendedOptionsInjective(inv1: int, w1: UInt16, h1: UInt16, t1: UInt16, inv2: int, w2: UInt16, h2: UInt16, t2: UInt16)
    requires ElementCount(w1, h1) <= Int32Max && ElementCount(w2, h2) <= Int32Max
    requires ExtendedOptions(inv1, w1, h1, t1) == ExtendedOptions(inv2, w2, h2, t2)
    ensures inv1 == inv2 && w1 == w2 && t1 == t2 && ElementCount(w1, h1) == ElementCount(w2, h2)
  {
    ParseExtendedOptions(inv1, w1, h1, t1);
    ParseExtendedOptions(inv2, w2, h2, t2);
  }

  /** The two shapes never coincide. */
  lemma DefaultIsNotExtended(inv1: int, inv2: int, width: UInt16, height: UInt16, tolerance: UInt16)
    requires ElementCount(width, height) <= Int32Max
    ensures DefaultOptions(inv1) != ExtendedOptions(inv2, width, height, tolerance)
  {
    ParseDefaultOptions(inv1);
    ParseExtendedOptions(inv2, width, height, tolerance);
  }
}
