/** lib/coordinate/axis/Index.ts: a count with a declared base. The value is
    kept in base 0 and converted to any other base on request. */
module Index {
  import opened Errors
  import opened Text

  /** An index holds only its base-0 value (the private `_base0`); being a
      value, nothing can change it after construction. */
  datatype Index = Index(base0: nat)

  /** `new Index(index, base)`: refuses an index below its base. */
  function New(index: int, base: int): (r: Result<Index>)
    ensures r.Ok? <==> index >= base
    ensures r.Err? ==> r.error == ValueError(IndexBelowBase(index, base))
    ensures r.Ok? ==> ToBase(r.value, base) == index && Base0(r.value) == index - base
  {
    if index < base then Err(ValueError(IndexBelowBase(index, base))) else Ok(Index(index - base))
  }

  /** `toBase(base)`. */
  function ToBase(i: Index, base: int): int
  {
    i.base0 + base
  }

  function Base0(i: Index): (r: int)
    ensures r >= 0
  {
    ToBase(i, 0)
  }

  function Base1(i: Index): (r: int)
    ensures r == Base0(i) + 1
  {
    ToBase(i, 1)
  }

  /** `valueOf()` and `toJSON()` both report the base-0 value. */
  function ValueOf(i: Index): (r: int)
    ensures r == Base0(i)
  {
    i.base0
  }

  function ToJson(i: Index): (r: int)
    ensures r == Base0(i)
  {
    ValueOf(i)
  }

  /** `toString()` prints the base-0 value in decimal. */
  function ToString(i: Index): (r: string)
    ensures |r| >= 1 && AllDigits(r) && DecimalValue(r) == Base0(i)
  {
    DecimalRoundTrip(i.base0);
    NatToDecimal(i.base0)
  }
}
