/**
 * The closed set of currency codes a price may carry (`CurrencyEnum`), with the
 * string round trip used to read and write them in JSON.
 */
module Currencies {
  import opened Wrappers
  import opened Errors

  datatype Currency = USD | EUR | ABC | XYZ | ETC

  /** `CurrencyEnum.values()`: every constant, in declaration order. */
  const Values: seq<Currency> := [USD, EUR, ABC, XYZ, ETC]

  /** The constant's declared name, as `Enum.name()` gives it. */
  function Name(c: Currency): string
  {
    match c
    case USD => "USD"
    case EUR => "EUR"
    case ABC => "ABC"
    case XYZ => "XYZ"
    case ETC => "ETC"
  }

  /** `getValue()`: the code string each constant was declared with. */
  function GetValue(c: Currency): string
  {
    match c
    case USD => "USD"
    case EUR => "EUR"
    case ABC => "ABC"
    case XYZ => "XYZ"
    case ETC => "ETC"
  }

  /** `toString()`: the code string, which names this constant and no other. */
  function ToString(c: Currency): (s: string)
    ensures forall d: Currency :: GetValue(d) == s <==> d == c
  {
    GetValue(c)
  }

  /** The five code strings are pairwise distinct, so `getValue` is injective. */
  lemma GetValueInjective(c: Currency, d: Currency)
    ensures GetValue(c) == GetValue(d) ==> c == d
  {
  }

  /** `values()` lists every constant exactly once. */
  lemma ValuesComplete(c: Currency)
    ensures c in Values
    ensures forall i, j :: 0 <= i < j < |Values| ==> Values[i] != Values[j]
  {
  }

  /**
   * `fromValue(value)`: scans `values()` in order for the constant whose code
   * equals `value`; when none does, throws `IllegalArgumentException`.
   */
  method FromValue(value: string) returns (r: Result<Currency, ExKind>)
    ensures r.Success? <==> exists c: Currency :: GetValue(c) == value
    ensures r.Success? ==> GetValue(r.value) == value
    ensures forall c: Currency :: GetValue(c) == value ==> r == Success(c)
    ensures r.Failure? ==> r.error == IllegalArgument("Unexpected value '" + value + "'")
  {
    var i := 0;
    while i < |Values|
      invariant 0 <= i <= |Values|
      invariant forall k :: 0 <= k < i ==> GetValue(Values[k]) != value
    {
      var b := Values[i];
      if GetValue(b) == value {
        return Success(b);
      }
      i := i + 1;
    }
    forall c: Currency ensures GetValue(c) != value {
      ValuesComplete(c);
    }
    return Failure(IllegalArgument("Unexpected value '" + value + "'"));
  }

  /**
   * `CurrencyEnum.valueOf(name)`, the lookup by constant name that the data
   * access layer uses; an unknown name throws `IllegalArgumentException`.
   */
  function ValueOf(name: string): (r: Result<Currency, ExKind>)
    ensures r.Success? ==> Name(r.value) == name
    ensures forall c: Currency :: Name(c) == name ==> r == Success(c)
    ensures r.Failure? ==> r.error.IllegalArgument?
  {
    if name == "USD" then Success(USD)
    else if name == "EUR" then Success(EUR)
    else if name == "ABC" then Success(ABC)
    else if name == "XYZ" then Success(XYZ)
    else if name == "ETC" then Success(ETC)
    else Failure(IllegalArgument("No enum constant org.acme.pricing.dto.CurrencyEnum." + name))
  }

  /** Each constant's name is its code, so a stored name reads back as the same code. */
  lemma NameIsValue(c: Currency)
    ensures Name(c) == GetValue(c)
    ensures ValueOf(GetValue(c)) == Success(c)
  {
  }
}
