/** The payment check (`verificar_transacao_pagbank`): the PagBank
    transaction counts as paid exactly when its integer status is 3 or 4. */
module Payment {
  import opened Json

  /** The status codes read as paid: 3 (paid) and 4 (available). */
  const PaidCodes: set<int> := {3, 4}

  /** What the GET to the provider's notification endpoint produced: any
      exception before `status` is read (connection failure, timeout, an
      HTTP error status, a body that is not JSON or not an object), or the
      decoded object's `status` field, absent or present. */
  datatype Query = QueryError | QueryBody(status: Option<Value>)

  /** `int(data.get("status", 0))`: None where int() raises, which the
      `except Exception` clause turns into "not paid". */
  function StatusCode(status: Option<Value>): (r: Option<int>)
    ensures status.None? ==> r == Some(0)
    ensures status == Some(Null) || status == Some(Composite) ==> r.None?
  {
    var v := status.GetOr(Number(0.0));
    match v
    case Null => None
    case Bool(b) => Some(if b then 1 else 0)
    case Number(n) => Some(Truncate(n))
    case Str(s) => ParseInt(s)
    case Composite => None
  }

  /** `verificar_transacao_pagbank`, with the provider's reply as input. */
  function IsPaid(q: Query): (paid: bool)
    // an error, or a reply without a status, never counts as paid
    ensures paid ==> q.QueryBody? && q.status.Some?
    ensures paid ==> StatusCode(q.status) == Some(3) || StatusCode(q.status) == Some(4)
  {
    match q
    case QueryError => false
    case QueryBody(status) => StatusCode(status).Some? && StatusCode(status).value in PaidCodes
  }

  /** The statuses read as paid, value kind by value kind: a number in
      [3, 5) (int() truncates floats), a string whose numeral is 3 or 4,
      and nothing else (booleans read as 0 or 1, null and containers raise). */
  lemma PaidExactly(q: Query)
    ensures IsPaid(q) <==>
              q.QueryBody? && q.status.Some? &&
              match q.status.value
              case Number(n) => 3.0 <= n < 5.0
              case Str(s) => ParseInt(s) == Some(3) || ParseInt(s) == Some(4)
              case _ => false
  {
  }

  /** Status codes outside {3, 4}, printed as the provider prints them,
      never count as paid. */
  lemma OtherCodesNotPaid(code: int)
    requires code !in PaidCodes
    ensures !IsPaid(QueryBody(Some(Number(code as real))))
    ensures !IsPaid(QueryBody(Some(Str(ShowInt(code)))))
  {
  }
}
