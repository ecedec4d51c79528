# Payment-gated lock controller (`app.py`), modelled in Dafny

The service receives PagBank payment notifications on a webhook, asks
PagBank whether the transaction is paid, and if so unlocks a TTLock smart
lock through the vendor's cloud API, which it reaches with an OAuth 2.0
password-grant token (section 4.3 of RFC 6749) that it caches. After each
real unlock attempt a background thread closes the lock status again.
Two module-level dicts hold all the state: `token_cache` and `lock_status`.

The model has seven modules:

- `Json` (json.dfy): decoded JSON values and the Python conversions the code
  applies to them: `int(...)`, `== 0`, `* 0.9`, truthiness and `str(int)`.
  Its lemma `ParseShowInt` proves `int(str(i)) == i`.
- `Credentials` (credentials.dfy): `get_ttlock_access_token` as the
  function `GetToken`, plus the `cache_status` of the `/` and `/health`
  routes.
- `Payment` (payment.dfy): `verificar_transacao_pagbank` as `IsPaid`.
- `Webhook` (webhook.dfy): the guard of `webhook_pagamento` as `Handle`.
- `Actuation` (actuation.dfy): the `lock_status` record, `open_ttlock`
  as `Attempt`, and the inner `fechar` as `Closed`.
- `Machine` (machine.dfy): the whole service as values. A `State` holds
  both dicts plus the number of `open_ttlock` and `fechar` threads started
  but not yet run. Three kinds of `Event` drive it: a webhook request, an
  open thread running, and a close thread running. `Run` replays a
  sequence of events, and the lemmas here are about whole runs.
- `Controller` (controller.dfy): the class `Service`. Its fields are the
  dict entries, and its methods update them in place the way app.py does.
  Each method's `ensures` ties the new fields to `Machine.Step` or to the
  function that specifies it. Two worked examples drive a `Service` through
  whole requests: `UnpaidNotificationScenario` (an unpaid notification
  changes nothing) and `PaidNotificationScenario` (a paid one opens the lock,
  and the auto-close shuts it again and keeps the payment time).

Every network reply and every clock reading is an input. A token-endpoint
reply is a `Fetch`, an unlock reply is an `Unlock`, and a PagBank reply is
a `Payment.Query`. A `Fetch` or an `Unlock` is either an exception in the
request, a JSON body that is not an object, or the fields the code reads.
A `Payment.Query` is either a failure or the `status` field. The failure
covers a body that is not an object too, because `verificar_transacao_pagbank`
catches every `Exception` and returns False. Times are `real` seconds.
Python exceptions that escape a function are `Outcome.Raised`: a non-numeric
`expires_in` makes `* 0.9` raise TypeError, and a non-object body makes
`.get` raise AttributeError. The `except requests.exceptions.RequestException`
paths return `None` or `False`, as in the code.

Some things a reader might expect are not in app.py, and so are not in the
model:

- There are only two lock states, `fechada` and `aberta`; there are no
  Opening or Closing states.
- The auto-close has no generation counter. `Machine.EarlierCloseShutsLaterOpen`
  shows that a close left behind by a failed attempt closes a lock that a
  later attempt opened.
- Token refresh is not single-flight.
- There is no notification dedup and no HMAC signature check.
- A payment counts as paid when the integer status is 3 or 4, not when a
  status word says "paid".
- In simulation mode no close is ever scheduled.

## Model

| member | source | states |
|---|---|---|
| Json.TimesNineTenths | app.py:70 | `expires_in * 0.9` is nine tenths of a number (True counts as 1, False as 0) and raises for null, strings and containers |
| Json.Truncate | app.py:144 | `int()` of a float rounds toward zero: the result is within 1 of x and on the same side of 0 |
| Json.ShowNat | app.py:92 | the decimal numeral of n is non-empty, all digits, has no leading zero, and its value is n |
| Json.ShowInt | app.py:116 | `str(i)` starts with `-` iff i < 0; the rest is a non-empty run of digits, without a leading zero unless i == 0, whose value is the absolute value of i |
| Json.Truthy | app.py:69 | a token is falsy exactly when it is None or the empty string |
| Json.IsSpace | app.py:144 | the characters `int()` skips around a numeral are exactly space, `\t`, `\n`, `\r`, `\v` and `\f` |
| Json.ParseInt | app.py:144 | Python's `int()` of a string; `ParseIntGrammar` states which strings it accepts and the value it gives |
| Json.EqualsZero | app.py:112 | Python's `v == 0` holds exactly for the number 0 and for `False` |
| Json.TrimStart | app.py:144 | stripping leading white space gives no longer a string, one not starting with white space |
| Json.TrimEnd | app.py:144 | stripping trailing white space gives no longer a string, one not ending with white space |
| Json.SplitLeadingSpace | app.py:144 | s is a run of white space followed by `TrimStart(s)` |
| Json.SplitTrailingSpace | app.py:144 | s is `TrimEnd(s)` followed by a run of white space |
| Json.ParseIntIsNumeral | app.py:144 | every string `int()` accepts is white space, an optional `+` or `-`, one or more ASCII digits, white space, and `int()` gives the signed value of the digits |
| Json.NumeralParses | app.py:144 | every such numeral is accepted by `int()` with its signed digit value |
| Json.ParseIntGrammar | app.py:144 | `int(s) == n` iff s is such a numeral whose signed digit value is n |
| Json.SeparatorsAreNotSpace | app.py:144 | `int()` rejects every string that starts or ends with one of the separators `\x1c`-`\x1f` |
| Json.ParseShowInt | app.py:144 | `int(str(i)) == i` for every integer i |
| Json.TruncatePositive | app.py:144 | `int(x) == k` for k > 0 exactly when k <= x < k + 1 |
| Credentials.IsFresh | app.py:50 | the cache hit needs a stored non-empty token; with no expiry, or an expiry at or before now, the cache is stale |
| Credentials.FreshUntilExpiry | app.py:50 | a cache fresh now was fresh at every earlier reading and is stale from its expiry on |
| Credentials.CacheSeconds | app.py:67-70 | the cache lifetime is `0.9 * expires_in`; it is 3240 when `expires_in` is absent (default 3600); it is None (TypeError) for null, strings and containers |
| Credentials.GetToken | app.py:45-81 | simulation: the constant token, no request, cache untouched; a fresh truthy token is reused without a request; otherwise exactly one request; a truthy fetched token with a usable lifetime is stored with `expires_at = now + 0.9 * expires_in` and returned; every other reply leaves the cache unchanged and gives None or an escaping exception; a returned token is never empty |
| Credentials.CacheStatus | app.py:186 | `cached` iff a truthy `access_token` is stored, otherwise `empty` |
| Credentials.StoredTokenIsReused | app.py:49-72 | after a call stores a token, any call before its expiry reuses it with no request, and the cache status is `cached` |
| Credentials.ExpiryBoundary | app.py:49-51 | a token expiring at t is reused at t - 1; at t and at t + 1 a request is made |
| Payment.StatusCode | app.py:144 | a missing status reads as 0; a null or container status raises |
| Payment.IsPaid | app.py:137-150 | paid only when a reply with a status came back and its `int()` is 3 or 4; an error or a missing status is never paid |
| Payment.PaidExactly | app.py:143-147 | paid iff the status is a number in [3, 5) or a string whose numeral is 3 or 4; booleans, null and containers are never paid |
| Payment.OtherCodesNotPaid | app.py:144-147 | any code outside {3, 4}, as a number or as its numeral, is not paid |
| Webhook.Contains | app.py:158 | Python's `p in s`: true iff p occurs in s at some index |
| Webhook.Handle | app.py:153-170 | every path returns `('', 200)`; PagBank is queried iff the content type contains form-encoded, the type is `transaction` and the code is truthy; an unlock is dispatched iff, in addition, the payment is verified |
| Webhook.ContentTypeWithCharset | app.py:156-162 | every content type holding the form encoding anywhere, such as one with a charset parameter, passes the substring test, and with the two form fields set PagBank is queried |
| Actuation.OpenedMessage | app.py:116 | the open message is the fixed prefix, `str(seconds)` and the fixed suffix, and differs from the closed and the waiting message |
| Actuation.OpenedMessageShowsSeconds | app.py:116 | the numeral in the open message reads back with `int()` as the hold time, so different hold times give different messages |
| Actuation.Opened | app.py:114-116 | an open sets `aberta`, the payment time and the open message for the hold time; it is never the initial status |
| Actuation.Accepted | app.py:112 | the unlock counts as accepted iff the reply is an object whose `errcode` is 0 or False |
| Actuation.Closed | app.py:127-131 | the close sets `fechada` and the closed message and keeps `last_payment_time` |
| Actuation.Attempt | app.py:84-134 | simulation opens at once with no close and no cache change; otherwise a close is scheduled on every exit path, the cache is whatever the token call left, and the lock opens iff a token was obtained and errcode == 0; an exception escapes iff the token call raised or the unlock reply, reached with a token, is not an object; any other outcome leaves `lock_status` unchanged |
| Actuation.FailedAttemptStillCloses | app.py:118-134 | a rejected unlock leaves the status unchanged, still schedules a close, and that close keeps the payment time |
| Machine.Step | app.py:84-170 | a request changes only the pending opens, and only one that passed every guard starts a thread; pending threads grow by at most one per request; only an open thread outside simulation changes the token cache; only a successful open sets the payment time or opens a closed lock; a close that ran leaves the lock closed with the closed message and the same payment time |
| Machine.OpenThreadsBalance | app.py:162-165 | open threads that ran plus open threads still pending equal those pending at the start plus the requests that passed every guard |
| Machine.CloseThreadsBalance | app.py:125-134 | outside simulation, every open attempt schedules exactly one close, whatever its outcome; in simulation mode none is scheduled |
| Machine.OpensAtMostAttempts | app.py:112-117 | successful opens never outnumber attempts |
| Machine.OpensBoundedByDispatches | app.py:162-165 | from start-up, the opens never outnumber the notifications that passed the payment check |
| Machine.UnconfirmedChangesNothing | app.py:156-170 | with no thread pending, requests that do not pass every guard leave the whole state unchanged |
| Machine.OpenRequiresDispatch | app.py:162-165 | from start-up, the lock is `aberta` only after some notification passed the payment check |
| Machine.PaymentTimeOnlyAtOpen | app.py:84-134 | without a successful open, `last_payment_time` is unchanged and a closed lock stays closed |
| Machine.SimulationKeepsCache | app.py:45-47 | in simulation mode the token cache, and so its reported status, never changes |
| Machine.SimulationStaysOpen | app.py:88-93 | in simulation mode an open lock with no close pending stays open |
| Machine.EarlierCloseShutsLaterOpen | app.py:125-134 | the close from a failed attempt shuts a lock opened by a later attempt, while the later attempt's own close is still pending |
| Controller.Service.constructor | app.py:26-37 | the initial dicts: no token, no expiry, `fechada`, no payment time, the waiting message |
| Controller.Service.GetAccessToken | app.py:45-81 | updates the two `token_cache` entries and returns exactly what `GetToken` says |
| Controller.Service.OpenLock | app.py:84-134 | updates the cache, the three `lock_status` entries and the pending closes exactly as `Attempt` says, and returns its result |
| Controller.Service.Close | app.py:127-131 | sets `fechada` and the closed message, keeps `last_payment_time`, and consumes one pending close |
| Controller.Service.ReceiveNotification | app.py:153-170 | returns `('', 200)` and starts an open thread exactly when `Handle` dispatches |
| Controller.Service.RunOpenThread | app.py:165 | the started thread runs `open_ttlock(TT_LOCK_ID, OPEN_SECONDS)` and consumes one pending open |

## Left out

- Flask routing, the request object and `jsonify` are not modelled. A request is its `Content-Type` header plus the two form fields, as the framework would parse them.
- `/status` and the other fields of the `/` and `/health` replies are not modelled. `/status` is just the `Service.LockStatus()` snapshot; the other fields are constants or clock readings.
- The three `requests` calls are not modelled; their outcomes are inputs. What they send (client id and secret, the MD5 password digest, the lock id and the request date) is not modelled. That includes the MD5 digest, a foreign library call.
- The `seconds` wait of the close thread, and thread scheduling, are not modelled. Threads are counted as pending and run later as explicit events, in any order. Each thread runs atomically, so data races between threads updating the dicts are not modelled.
- Clock readings are `real` inputs, and `last_payment_time` stores the reading itself rather than its ISO string.
- Floating point is not modelled. `0.9` and JSON numbers are exact reals. NaN, infinities and the overflow of `timedelta` or of `datetime` addition are not modelled.
- A JSON `access_token` that is not a string or null is not modelled.
- `int()` of a string is modelled for the ASCII white space it skips (space, `\t`, `\n`, `\r`, `\v`, `\f`; not the separators `\x1c`-`\x1f`), an optional sign and ASCII digits. Underscores between digits and non-ASCII digits or spaces are not modelled.
- `Json.ParseInt` has no limit on the number of digits. From Python 3.11 on, and in the security releases 3.7.14, 3.8.14, 3.9.14 and 3.10.7, `int()` of a string with more than 4300 digits raises ValueError. For such a status, for example `"0" * 4300 + "3"`, app.py reports not paid while the model reads 3 and reports paid.
- The comments on `Fetch` and `Unlock` count a body that is not JSON as a `RequestException`. That holds from requests 2.27 on, where `response.json()` raises `requests.exceptions.JSONDecodeError`. With older versions the error is a plain ValueError: it escapes `get_ttlock_access_token` and `open_ttlock` instead of giving None or False, and the model does not cover that.
- Logging, environment loading and the `__main__` start-up are not modelled. The token call at start-up is the same operation as `Service.GetAccessToken`.
- The `lock_id` argument of `open_ttlock` is not modelled, because it only reaches the request and the logs.
