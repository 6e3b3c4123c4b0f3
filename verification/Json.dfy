/** JSON values as the validator and the schemas share them. */
module Json {
  import opened Wrappers

  /** A parsed number. Every finite double is a whole number of units of 2^-1074, and a literal
    * too large for a double parses as an infinity. */
  datatype Number = Finite(units: int) | PosInfinity | NegInfinity

  /** Units in the number one. */
  const ONE: nat := Pow2(1074)

  function Pow2(n: nat): (p: nat)
    ensures p > 0
  {
    if n == 0 then 1 else 2 * Pow2(n - 1)
  }

  function Less(a: Number, b: Number): bool
  {
    match (a, b)
    case (Finite(x), Finite(y)) => x < y
    case (NegInfinity, _) => !b.NegInfinity?
    case (_, PosInfinity) => !a.PosInfinity?
    case _ => false
  }

  datatype Json =
    | Null
    | Bool(b: bool)
    | Num(n: Number)
    | Str(s: string)
    | Arr(items: seq<Json>)
    | Obj(fields: seq<Field>)          // own enumerable properties, in their order
  datatype Field = Field(key: string, value: Json)

  predicate DistinctKeys(fields: seq<Field>)
  {
    forall i, j | 0 <= i < j < |fields| :: fields[i].key != fields[j].key
  }

  /** An object has each of its properties once, all the way down. */
  predicate WellFormed(v: Json)
  {
    match v
    case Arr(items) => forall i | 0 <= i < |items| :: WellFormed(items[i])
    case Obj(fields) => DistinctKeys(fields) && forall i | 0 <= i < |fields| :: WellFormed(fields[i].value)
    case _ => true
  }

  function Lookup(fields: seq<Field>, key: string): (value: Option<Json>)
    ensures value.None? <==> forall i | 0 <= i < |fields| :: fields[i].key != key
    ensures value.Some? ==> exists i :: 0 <= i < |fields| && fields[i] == Field(key, value.value)
  {
    if fields == [] then None
    else if fields[0].key == key then Some(fields[0].value)
    else Lookup(fields[1..], key)
  }

  /** With distinct keys a lookup finds the one property of that name. */
  lemma {:induction false} LookupFinds(fields: seq<Field>, i: nat)
    requires DistinctKeys(fields) && i < |fields|
    ensures Lookup(fields, fields[i].key) == Some(fields[i].value)
  {
    if i > 0 { LookupFinds(fields[1..], i - 1); }
  }
}
