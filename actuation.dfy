/** The lock-status record (the global `lock_status` dict) and one run of
    `open_ttlock`, including what its `finally` clause schedules. */
module Actuation {
  import opened Json
  import opened Credentials

  /** The `state` field: 'fechada' (closed) or 'aberta' (open). */
  datatype LockState = Fechada | Aberta

  /** The `lock_status` dict. `lastPaymentTime` is the clock reading (in
      seconds) of the last open, None before the first one. */
  datatype Status = Status(state: LockState, lastPaymentTime: Option<real>, message: string)

  const InitialMessage := "Aguardando pagamento..."
  const ClosedMessage := "Fechadura fechada 🔒"
  const InitialStatus := Status(Fechada, None, InitialMessage)

  const OpenedPrefix := "Pagamento confirmado ✅ Fechadura aberta "
  const OpenedSuffix := "s 🔓"

  /** The message shown while the lock is held open for `seconds`: the
      hold time between the fixed prefix and suffix. */
  function OpenedMessage(seconds: int): (r: string)
    ensures |OpenedPrefix| + |OpenedSuffix| < |r|
    ensures r[..|OpenedPrefix|] == OpenedPrefix && r[|r| - |OpenedSuffix|..] == OpenedSuffix
    ensures r[|OpenedPrefix|..|r| - |OpenedSuffix|] == ShowInt(seconds)
    ensures r != ClosedMessage && r != InitialMessage
  {
    var r := OpenedPrefix + ShowInt(seconds) + OpenedSuffix;
    assert r[|OpenedPrefix|..|r| - |OpenedSuffix|] == ShowInt(seconds);
    r
  }

  /** The numeral in the open message reads back as the hold time, so two
      different hold times never give the same message. */
  lemma OpenedMessageShowsSeconds(seconds: int, other: int)
    ensures var r := OpenedMessage(seconds);
            ParseInt(r[|OpenedPrefix|..|r| - |OpenedSuffix|]) == Some(seconds)
    ensures OpenedMessage(seconds) == OpenedMessage(other) ==> seconds == other
  {
    ParseShowInt(seconds);
    ParseShowInt(other);
    var r, q := OpenedMessage(seconds), OpenedMessage(other);
    if r == q {
      assert |r| == |q|;
      assert r[|OpenedPrefix|..|r| - |OpenedSuffix|] == q[|OpenedPrefix|..|q| - |OpenedSuffix|];
    }
  }

  /** The three assignments of an open: state `aberta`, the payment time,
      the open message. */
  function Opened(at: real, seconds: int): (r: Status)
    ensures r.state == Aberta && r.lastPaymentTime == Some(at)
    ensures r.message == OpenedMessage(seconds) && r != InitialStatus
  {
    Status(Aberta, Some(at), OpenedMessage(seconds))
  }

  /** `fechar`, the body of the auto-close thread: it sets the closed state
      and message, whatever the status was and whichever open scheduled it. */
  function Closed(st: Status): (r: Status)
    ensures r.state == Fechada && r.message == ClosedMessage
    ensures r.lastPaymentTime == st.lastPaymentTime
  {
    st.(state := Fechada, message := ClosedMessage)
  }

  /** What the POST to the unlock endpoint produced: a `RequestException`
      (connection failure, timeout, an HTTP error status, a body that is not
      JSON), a JSON body that is not an object (`.get` raises
      AttributeError), or an object with its `errcode` field, absent or not. */
  datatype Unlock = UnlockError | UnlockNotObject | UnlockBody(errcode: Option<Value>)

  /** One run of `open_ttlock`: its outcome, the token cache and the status
      afterwards, and whether an auto-close thread was started. */
  datatype AttemptStep = AttemptStep(result: Outcome<bool>, cache: Cache, status: Status, closeScheduled: bool)

  /** The vendor accepted the unlock: `result.get('errcode') == 0`. */
  predicate Accepted(unlock: Unlock)
    ensures Accepted(unlock) <==>
              unlock == UnlockBody(Some(Number(0.0))) || unlock == UnlockBody(Some(Bool(false)))
  {
    unlock.UnlockBody? && unlock.errcode.Some? && EqualsZero(unlock.errcode.value)
  }

  /** `open_ttlock(lock_id, seconds)`. `now` is the clock reading of the
      simulated open or of the token-cache check, `unlockedAt` the reading
      taken after the vendor accepted the unlock; `fetch` and `unlock` are
      the replies of the two endpoints, each looked at only if reached. */
  function Attempt(simulation: bool, cache: Cache, status: Status, seconds: int,
                   now: real, unlockedAt: real, fetch: Fetch, unlock: Unlock): (r: AttemptStep)
    // simulation: opens at once, touches no cache and schedules no close
    ensures simulation ==> r == AttemptStep(Returned(true), cache, Opened(now, seconds), false)
    // otherwise the finally clause schedules a close on every exit path
    ensures !simulation ==> r.closeScheduled
    ensures !simulation ==> r.cache == GetToken(false, cache, now, fetch).cache
    // the lock opens exactly when a token was obtained and the vendor answered errcode 0
    ensures !simulation ==>
              (r.result == Returned(true) <==>
                 GetToken(false, cache, now, fetch).answer.Returned?
                 && GetToken(false, cache, now, fetch).answer.value.Some?
                 && Accepted(unlock))
    ensures r.result == Returned(true) ==> r.status == Opened(if simulation then now else unlockedAt, seconds)
    // any other outcome (False or an escaping exception) leaves the status as it was
    ensures r.result != Returned(true) ==> r.status == status
    // an exception escapes from the token call, or from reading a non-object unlock reply
    ensures !simulation ==>
              (r.result == Raised <==>
                 GetToken(false, cache, now, fetch).answer == Raised
                 || (GetToken(false, cache, now, fetch).answer.Returned?
                     && GetToken(false, cache, now, fetch).answer.value.Some?
                     && unlock.UnlockNotObject?))
  {
    if simulation then
      AttemptStep(Returned(true), cache, Opened(now, seconds), false)
    else
      var token := GetToken(false, cache, now, fetch);
      var result :=
        match token.answer
        case Raised => Raised
        case Returned(None) => Returned(false)
        case Returned(Some(_)) =>
          match unlock
          case UnlockError => Returned(false)
          case UnlockNotObject => Raised
          case UnlockBody(errcode) => Returned(Accepted(unlock));
      var status' := if result == Returned(true) then Opened(unlockedAt, seconds) else status;
      AttemptStep(result, token.cache, status', true)
  }

  /** A failed attempt outside simulation mode is still followed by a
      close, and that close keeps the time of the last payment. */
  lemma FailedAttemptStillCloses(cache: Cache, status: Status, seconds: int, now: real,
                                 unlockedAt: real, fetch: Fetch, unlock: Unlock)
    requires !Accepted(unlock)
    ensures var a := Attempt(false, cache, status, seconds, now, unlockedAt, fetch, unlock);
            a.status == status && a.closeScheduled
            && Closed(a.status) == Status(Fechada, status.lastPaymentTime, ClosedMessage)
  {
  }
}
