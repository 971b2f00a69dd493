/** The request-body rules of `CreateTransactionDto`: the `isRecurring`
    transform that turns the strings "true" and "false" into booleans before
    the boolean check, and the `income | expense` constraint on `type`. */
module TransactionDto {
  import opened Wrappers
  import opened Transactions

  /** A field value as it arrives in a request. Numbers are kept whole; any
      array or object is `Composite`. */
  datatype Value = Bool(b: bool) | Str(s: string) | Number(n: int) | Null | Undefined | Composite

  /** The `@Transform` on `isRecurring`. */
  function CoerceRecurring(v: Value): (r: Value)
    ensures r == Bool(true) <==> v == Str("true") || v == Bool(true)
    ensures r == Bool(false) <==> v == Str("false") || v == Bool(false)
    ensures !(v in {Str("true"), Bool(true), Str("false"), Bool(false)}) ==> r == v
  {
    if v == Str("true") || v == Bool(true) then Bool(true)
    else if v == Str("false") || v == Bool(false) then Bool(false)
    else v
  }

  /** Coercing twice is coercing once. */
  lemma CoerceRecurringIdempotent(v: Value)
    ensures CoerceRecurring(CoerceRecurring(v)) == CoerceRecurring(v)
  {
  }

  /** `@IsOptional() @IsBoolean()` after the transform: a missing or null
      value passes as absent, a boolean passes, anything else is rejected. */
  function ParseRecurring(v: Value): (r: Result<Option<bool>>)
    ensures r.Ok? <==> v in {Bool(true), Bool(false), Str("true"), Str("false"), Null, Undefined}
    ensures r == Ok(Some(true)) <==> v == Bool(true) || v == Str("true")
    ensures r == Ok(Some(false)) <==> v == Bool(false) || v == Str("false")
    ensures r.Err? ==> r.error == ValidationFailed
  {
    match CoerceRecurring(v)
    case Null => Ok(None)
    case Undefined => Ok(None)
    case Bool(b) => Ok(Some(b))
    case _ => Err(ValidationFailed)
  }

  function TypeName(k: TxType): string {
    match k
    case Income => "income"
    case Expense => "expense"
  }

  /** `@IsEnum(['income', 'expense'])` on `type`. */
  function ParseType(v: Value): (r: Result<TxType>)
    ensures r.Ok? <==> v == Str("income") || v == Str("expense")
    ensures r.Ok? ==> v == Str(TypeName(r.value))
    ensures r.Err? ==> r.error == ValidationFailed
  {
    if v == Str("income") then Ok(Income)
    else if v == Str("expense") then Ok(Expense)
    else Err(ValidationFailed)
  }

  /** Every transaction type is accepted under its own name. */
  lemma ParseTypeName(k: TxType)
    ensures ParseType(Str(TypeName(k))) == Ok(k)
  {
  }
}
