/**
 * The pure pieces of `SobolIndicesStochasticProcessAlgorithm`: the dimension inferred from the
 * shape of the output design, the default variable names "X0".."X(dim-1)", and the coercion of
 * a single name or a list of names into a description.
 */
module Naming {

  // ---------------------------------------------------------------------------------------------
  // Dimension inference
  // ---------------------------------------------------------------------------------------------

  /**
   * `int(a / b)` for a row count `a`: the float quotient truncated toward zero.
   * For b > 0 this is the floor; for b < 0 it is minus the floor of a / -b.
   */
  function TruncatedQuotient(a: nat, b: int): (q: int)
    requires b != 0
    ensures b > 0 ==> 0 <= q && b * q <= a < b * (q + 1)
    ensures b < 0 ==> q <= 0 && (-b) * (-q) <= a < (-b) * (-q + 1)
  {
    if b > 0 then a / b else -(a / -b)
  }

  /**
   * The dimension of the inputs implied by a design of `rows` rows laid out as
   * [A rows][B rows][dim cross-sample blocks], each block of `n` rows.
   * A design shorter than the two samples A and B gives a negative dimension, accepted as is.
   */
  function ImplicitDimension(rows: nat, n: int): (dim: int)
    requires n != 0
    ensures n > 0 ==> dim >= -2 && n * (dim + 2) <= rows < n * (dim + 3)
    ensures n < 0 ==> dim <= -2
    ensures n > 0 && rows < 2 * n ==> dim < 0
  {
    TruncatedQuotient(rows, n) - 2
  }

  /** A design that is exactly A, B and d cross-sample blocks of n rows has dimension d. */
  lemma DimensionOfExactLayout(n: int, d: int)
    requires n > 0 && d >= -2
    ensures n * (d + 2) >= 0
    ensures ImplicitDimension(n * (d + 2), n) == d
  {
  }

  // ---------------------------------------------------------------------------------------------
  // Decimal form of a natural number, as Python's `str` writes it
  // ---------------------------------------------------------------------------------------------

  predicate IsDigit(c: char) {
    '0' <= c <= '9'
  }

  predicate AllDigits(s: string) {
    forall k :: 0 <= k < |s| ==> IsDigit(s[k])
  }

  function DigitChar(d: nat): (c: char)
    requires d < 10
    ensures IsDigit(c)
  {
    "0123456789"[d]
  }

  function DigitValue(c: char): (d: nat)
    requires IsDigit(c)
    ensures d < 10 && DigitChar(d) == c
  {
    (c as int - '0' as int) as nat
  }

  /** `str(i)` for a natural number i: its decimal digits, most significant first, no leading zero. */
  function Decimal(i: nat): (s: string)
    ensures |s| >= 1 && AllDigits(s)
    ensures s[0] == '0' ==> i == 0 && s == "0"
  {
    if i < 10 then [DigitChar(i)] else Decimal(i / 10) + [DigitChar(i % 10)]
  }

  /** Reads a string of decimal digits back as a natural number. */
  function ParseDecimal(s: string): (i: nat)
    requires AllDigits(s)
  {
    if s == [] then 0 else 10 * ParseDecimal(s[..|s| - 1]) + DigitValue(s[|s| - 1])
  }

  /** Reading the decimal form of a number gives that number back. */
  lemma {:induction false} ParseDecimalOfDecimal(i: nat)
    ensures ParseDecimal(Decimal(i)) == i
  {
    var s := Decimal(i);
    if i < 10 {
      assert s[..|s| - 1] == [];
    } else {
      assert s[..|s| - 1] == Decimal(i / 10);
      ParseDecimalOfDecimal(i / 10);
    }
  }

  /** Distinct numbers have distinct decimal forms. */
  lemma DecimalInjective(i: nat, j: nat)
    requires Decimal(i) == Decimal(j)
    ensures i == j
  {
    ParseDecimalOfDecimal(i);
    ParseDecimalOfDecimal(j);
  }

  // ---------------------------------------------------------------------------------------------
  // Default variable names
  // ---------------------------------------------------------------------------------------------

  /** The name of input variable i: "X" followed by the decimal form of i. */
  function VariableName(i: nat): (name: string)
    ensures |name| >= 2 && name[0] == 'X' && name[1..] == Decimal(i)
  {
    "X" + Decimal(i)
  }

  /** `['X'+str(i) for i in range(dim)]`: empty when dim <= 0. */
  function DefaultDescription(dim: int): (names: seq<string>)
    ensures |names| == if dim > 0 then dim else 0
    ensures forall i :: 0 <= i < |names| ==> names[i] == VariableName(i)
  {
    if dim <= 0 then [] else seq(dim, i requires 0 <= i => VariableName(i))
  }

  /** Every default name reads back as its own position: "X" and then the index in decimal. */
  lemma DefaultNameReadsBack(dim: int, i: nat)
    requires i < |DefaultDescription(dim)|
    ensures var name := DefaultDescription(dim)[i];
      name[0] == 'X' && AllDigits(name[1..]) && ParseDecimal(name[1..]) == i
  {
    ParseDecimalOfDecimal(i);
  }

  /** The default names are pairwise distinct. */
  lemma DefaultNamesDistinct(dim: int, i: nat, j: nat)
    requires i < |DefaultDescription(dim)| && j < |DefaultDescription(dim)|
    requires DefaultDescription(dim)[i] == DefaultDescription(dim)[j]
    ensures i == j
  {
    var names := DefaultDescription(dim);
    assert Decimal(i) == names[i][1..] == names[j][1..] == Decimal(j);
    DecimalInjective(i, j);
  }

  // ---------------------------------------------------------------------------------------------
  // Coercion of the argument of setInputDescription
  // ---------------------------------------------------------------------------------------------

  /** The argument of setInputDescription: one name given as a string, or a list of names. */
  datatype Names = Single(name: string) | Many(names: seq<string>)

  /** A single name becomes a one-name description; a list is taken as is, in its order. */
  function Coerce(arg: Names): (description: seq<string>)
    ensures arg.Single? ==> |description| == 1 && description[0] == arg.name
    ensures arg.Many? ==>
      |description| == |arg.names| &&
      forall k :: 0 <= k < |description| ==> description[k] == arg.names[k]
  {
    match arg
    case Single(name) => [name]
    case Many(names) => names
  }
}
