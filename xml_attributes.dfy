/**
  The attribute table of one XML element, as the CABLE parsers keep it
  (`xml::Attributes`): a map from attribute name to its string value.
  `Set` writes an entry in place; the lookups are `const` and so are
  functions here. A lookup of a missing name throws
  `MissingAttributeException` in the source; here it yields `Err`.
 */
module XmlAttributes {
  import opened CStdlib

  datatype Error = MissingAttribute(name: string)

  datatype Result<T> = Ok(value: T) | Err(error: Error)

  class Attributes {
    /** m_Attrs */
    var attrs: map<string, string>

    constructor ()
      ensures attrs == map[]
    {
      attrs := map[];
    }

    /** Inserts `a` with value `v`, overwriting an earlier value of `a`. */
    method Set(a: string, v: string)
      modifies this
      ensures attrs == old(attrs)[a := v]
      ensures Have(a) && Get(a) == Ok(v)
      ensures forall b :: b != a ==> Have(b) == old(Have(b)) && Get(b) == old(Get(b))
    {
      attrs := attrs[a := v];
    }

    /** The value of `a`, or the missing-attribute error naming `a`. */
    function Get(a: string): (r: Result<string>)
      reads this
      ensures r.Ok? <==> a in attrs
      ensures r.Ok? ==> r.value == attrs[a]
      ensures r.Err? ==> r.error == MissingAttribute(a)
    {
      if a in attrs then Ok(attrs[a]) else Err(MissingAttribute(a))
    }

    /** Whether the table holds a value for `a`. */
    function Have(a: string): (b: bool)
      reads this
      ensures b <==> a in attrs.Keys
    {
      a in attrs
    }

    /** `atoi` of the value of `a`; a missing `a` propagates Get's error. */
    function GetAsInteger(a: string): (r: Result<int>)
      reads this
      ensures r.Ok? <==> Have(a)
      ensures r.Ok? ==> r.value == Atoi(attrs[a])
      ensures r.Err? ==> r == Err(MissingAttribute(a))
    {
      match Get(a)
      case Ok(s) => Ok(Atoi(s))
      case Err(e) => Err(e)
    }

    /** Whether the integer value of `a` is non-zero; a missing `a`
        propagates Get's error. */
    function GetAsBoolean(a: string): (r: Result<bool>)
      reads this
      ensures r.Ok? <==> Have(a)
      ensures r.Ok? ==> (r.value <==> Atoi(attrs[a]) != 0)
      ensures r.Err? ==> r == Err(MissingAttribute(a))
    {
      match GetAsInteger(a)
      case Ok(n) => Ok(n != 0)
      case Err(e) => Err(e)
    }
  }

  /** `Have` holds exactly when `Get` succeeds. */
  lemma HaveIffGetSucceeds(t: Attributes, a: string)
    ensures t.Have(a) <==> t.Get(a).Ok?
  {
  }

  /** The integer conversion is `atoi` of exactly the string `Get` returns,
      and the boolean conversion is "that integer is non-zero". */
  lemma ConversionsAgreeWithGet(t: Attributes, a: string)
    ensures t.GetAsInteger(a) == (if t.Get(a).Ok? then Ok(Atoi(t.Get(a).value)) else Err(t.Get(a).error))
    ensures t.GetAsBoolean(a) == (if t.GetAsInteger(a).Ok? then Ok(t.GetAsInteger(a).value != 0)
                                  else Err(t.GetAsInteger(a).error))
  {
  }

  /** An attribute written as the numeral of a C `int` `i` reads back as
      `i`, and as true exactly when `i` is non-zero. */
  lemma NumeralAttribute(t: Attributes, a: string, i: int)
    requires INT_MIN <= i <= INT_MAX
    requires a in t.attrs && t.attrs[a] == IntToString(i)
    ensures t.GetAsInteger(a) == Ok(i)
    ensures t.GetAsBoolean(a) == Ok(i != 0)
  {
    AtoiOfIntToString(i);
  }

  /** Words are not booleans here: "true" (like any value that does not
      start with a number) reads as integer 0 and so as false. */
  lemma WordTrueIsFalse(t: Attributes, a: string)
    requires a in t.attrs && t.attrs[a] == "true"
    ensures t.GetAsInteger(a) == Ok(0)
    ensures t.GetAsBoolean(a) == Ok(false)
  {
  }

  /** A table's lifetime: writing `a` twice keeps the last value, and a
      name never written stays missing. */
  method LastWriteWins(a: string, b: string, v1: string, v2: string) returns (t: Attributes)
    requires a != b
    ensures t.Get(a) == Ok(v2)
    ensures t.Get(b) == Err(MissingAttribute(b)) && !t.Have(b)
  {
    t := new Attributes();
    t.Set(a, v1);
    t.Set(a, v2);
  }
}
