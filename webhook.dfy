/** The decision logic of the `/webhook/pagamento` route
    (`webhook_pagamento`): when a notification leads to an unlock. */
module Webhook {
  import opened Json
  import Payment

  const FormContentType := "application/x-www-form-urlencoded"

  /** What the route reads from the request: the Content-Type header
      (`""` when absent) and the two form fields (None when absent). */
  datatype Request = Request(contentType: string, notificationType: Option<string>, notificationCode: Option<string>)

  /** The HTTP response the route returns. */
  datatype Response = Response(body: string, code: int)

  /** One handled notification: the response, whether the provider was
      queried, and whether an `open_ttlock` thread was started. */
  datatype Handling = Handling(response: Response, queried: bool, dispatch: bool)

  predicate StartsWith(s: string, p: string) {
    |p| <= |s| && s[..|p|] == p
  }

  /** p occurs in s at index i. */
  predicate OccursAt(s: string, p: string, i: int) {
    0 <= i <= |s| - |p| && s[i..i + |p|] == p
  }

  /** Python's `p in s` for strings, scanning s from the left. */
  function Contains(s: string, p: string): (r: bool)
    ensures r <==> exists i :: OccursAt(s, p, i)
    decreases |s|
  {
    if StartsWith(s, p) then
      assert OccursAt(s, p, 0);
      true
    else if s == [] then
      false
    else
      var r := Contains(s[1..], p);
      assert forall i :: OccursAt(s[1..], p, i) <==> OccursAt(s, p, i + 1);
      assert OccursAt(s, p, 0) <==> StartsWith(s, p);
      assert forall i :: OccursAt(s, p, i) ==> i == 0 || OccursAt(s[1..], p, i - 1);
      r
  }

  /** `webhook_pagamento`, with the provider's reply to the verification
      query as input; the reply is looked at only when `queried` is true. */
  function Handle(req: Request, reply: Payment.Query): (h: Handling)
    // every path answers with an empty 200
    ensures h.response == Response("", 200)
    // the provider is queried only for a form-encoded transaction notification with a code
    ensures h.queried <==>
              Contains(req.contentType, FormContentType)
              && req.notificationType == Some("transaction")
              && Truthy(req.notificationCode)
    // an unlock is started only when, in addition, the payment is confirmed
    ensures h.dispatch <==> h.queried && Payment.IsPaid(reply)
  {
    if Contains(req.contentType, FormContentType) then
      if req.notificationType == Some("transaction") && Truthy(req.notificationCode) then
        Handling(Response("", 200), true, Payment.IsPaid(reply))
      else
        Handling(Response("", 200), false, false)
    else
      Handling(Response("", 200), false, false)
  }

  /** A Content-Type that carries the form encoding anywhere, for example
      followed by a charset parameter, passes the form-encoding test,
      because the test is a substring test; with the two form fields set,
      PagBank is then queried. */
  lemma ContentTypeWithCharset(before: string, after: string, req: Request, reply: Payment.Query)
    requires req.contentType == before + FormContentType + after
    requires req.notificationType == Some("transaction") && Truthy(req.notificationCode)
    ensures Contains(req.contentType, FormContentType)
    ensures Handle(req, reply).queried
  {
    var s := req.contentType;
    assert s[|before|..|before| + |FormContentType|] == FormContentType;
    assert OccursAt(s, FormContentType, |before|);
  }
}
