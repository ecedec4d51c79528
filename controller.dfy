/** The service object: the two global dicts of app.py as fields updated in
    place, and the code paths that update them as methods. Every method is
    specified by the value-level machine of module Machine. */
module Controller {
  import opened Json
  import opened Credentials
  import opened Actuation
  import Webhook
  import Payment
  import opened Machine

  class Service {
    const config: Config

    // token_cache
    var accessToken: Option<string>
    var expiresAt: Option<real>

    // lock_status
    var state: LockState
    var lastPaymentTime: Option<real>
    var message: string

    // threads started and not yet run
    var pendingOpens: nat
    var pendingCloses: nat

    function TokenCache(): Cache
      reads this
    {
      Cache(accessToken, expiresAt)
    }

    /** The `/status` route's reply. */
    function LockStatus(): Status
      reads this
    {
      Status(state, lastPaymentTime, message)
    }

    function State(): Machine.State
      reads this
    {
      Machine.State(TokenCache(), LockStatus(), pendingOpens, pendingCloses)
    }

    /** The `cache_status` of the `/` and `/health` routes. */
    function CacheStatus(): string
      reads this
    {
      Credentials.CacheStatus(TokenCache())
    }

    /** The module-level initialisation of app.py. */
    constructor (config: Config)
      ensures this.config == config && State() == Init
    {
      this.config := config;
      accessToken, expiresAt := None, None;
      state, lastPaymentTime, message := Fechada, None, InitialMessage;
      pendingOpens, pendingCloses := 0, 0;
    }

    /** `get_ttlock_access_token`. */
    method GetAccessToken(now: real, fetch: Fetch) returns (token: Outcome<Option<string>>, requested: bool)
      modifies this`accessToken, this`expiresAt
      ensures var t := GetToken(config.simulation, old(TokenCache()), now, fetch);
              token == t.answer && requested == t.requested && TokenCache() == t.cache
    {
      if config.simulation {
        return Returned(Some(SimulatedToken)), false;
      }
      if Truthy(accessToken) && expiresAt.Some? && now < expiresAt.value {
        return Returned(accessToken), false;
      }
      requested := true;
      match fetch
      case FetchError =>
        token := Returned(None);
      case FetchNotObject =>
        token := Raised;
      case FetchBody(fetched, expiresIn) =>
        if Truthy(fetched) {
          var cacheTime := CacheSeconds(expiresIn);
          if cacheTime.Some? {
            accessToken := fetched;
            expiresAt := Some(now + cacheTime.value);
            token := Returned(fetched);
          } else {
            token := Raised;
          }
        } else {
          token := Returned(None);
        }
    }

    /** `open_ttlock(lock_id, seconds)`; the `finally` clause's thread is
        recorded in `pendingCloses`. */
    method OpenLock(seconds: int, now: real, unlockedAt: real, fetch: Fetch, unlock: Unlock) returns (result: Outcome<bool>)
      modifies this`accessToken, this`expiresAt, this`state, this`lastPaymentTime, this`message, this`pendingCloses
      ensures var a := Attempt(config.simulation, old(TokenCache()), old(LockStatus()), seconds, now, unlockedAt, fetch, unlock);
              result == a.result && TokenCache() == a.cache && LockStatus() == a.status
              && pendingCloses == old(pendingCloses) + (if a.closeScheduled then 1 else 0)
    {
      ghost var a := Attempt(config.simulation, TokenCache(), LockStatus(), seconds, now, unlockedAt, fetch, unlock);
      if config.simulation {
        state := Aberta;
        lastPaymentTime := Some(now);
        message := OpenedMessage(seconds);
        assert LockStatus() == Opened(now, seconds) == a.status;
        return Returned(true);
      }
      ghost var status := LockStatus();
      ghost var step := GetToken(false, TokenCache(), now, fetch);
      assert a.cache == step.cache && a.closeScheduled;
      var token, _ := GetAccessToken(now, fetch);
      assert token == step.answer && TokenCache() == step.cache && LockStatus() == status;
      match token {
        case Raised =>
          result := Raised;
          assert a.result == Raised && a.status == status;
        case Returned(None) =>
          result := Returned(false);
          assert a.result == result && a.status == status;
        case Returned(Some(_)) =>
          match unlock {
            case UnlockError =>
              result := Returned(false);
              assert a.result == result && a.status == status;
            case UnlockNotObject =>
              result := Raised;
              assert a.result == result && a.status == status;
            case UnlockBody(errcode) =>
              if errcode.Some? && EqualsZero(errcode.value) {
                state := Aberta;
                lastPaymentTime := Some(unlockedAt);
                message := OpenedMessage(seconds);
                result := Returned(true);
                assert a.result == result && LockStatus() == Opened(unlockedAt, seconds) == a.status;
              } else {
                result := Returned(false);
                assert a.result == result && a.status == status;
              }
          }
      }
      assert result == a.result && LockStatus() == a.status && TokenCache() == a.cache;
      // finally: start the auto-close thread
      pendingCloses := pendingCloses + 1;
    }

    /** `fechar`, once its wait is over. */
    method Close()
      requires pendingCloses > 0
      modifies this`state, this`message, this`pendingCloses
      ensures State() == Step(config, old(State()), CloseThread)
      ensures state == Fechada && message == ClosedMessage && lastPaymentTime == old(lastPaymentTime)
    {
      state := Fechada;
      message := ClosedMessage;
      pendingCloses := pendingCloses - 1;
    }

    /** `webhook_pagamento`: the reply is always an empty 200; a confirmed
        payment starts an `open_ttlock` thread. */
    method ReceiveNotification(request: Webhook.Request, reply: Payment.Query) returns (response: Webhook.Response)
      modifies this`pendingOpens
      ensures response == Webhook.Response("", 200)
      ensures State() == Step(config, old(State()), Notify(request, reply))
    {
      var handling := Webhook.Handle(request, reply);
      if handling.dispatch {
        pendingOpens := pendingOpens + 1;
      }
      response := handling.response;
    }

    /** The thread the webhook started: `open_ttlock(TT_LOCK_ID, OPEN_SECONDS)`. */
    method RunOpenThread(now: real, unlockedAt: real, fetch: Fetch, unlock: Unlock) returns (result: Outcome<bool>)
      requires pendingOpens > 0
      modifies this
      ensures State() == Step(config, old(State()), OpenThread(now, unlockedAt, fetch, unlock))
      ensures result == AttemptOf(config, old(State()), OpenThread(now, unlockedAt, fetch, unlock)).result
    {
      pendingOpens := pendingOpens - 1;
      result := OpenLock(config.openSeconds, now, unlockedAt, fetch, unlock);
    }
  }

  /** An unpaid notification outside simulation mode: the webhook answers
      an empty 200 and nothing else changes. */
  method UnpaidNotificationScenario(code: string)
    requires code != ""
  {
    var service := new Service(Config(false, 8));
    var request := Webhook.Request(Webhook.FormContentType, Some("transaction"), Some(code));
    var response := service.ReceiveNotification(request, Payment.QueryBody(Some(Number(1.0))));
    assert response == Webhook.Response("", 200);
    assert service.State() == Init;
  }

  /** A paid notification outside simulation mode: the lock opens, the
      webhook answers an empty 200, and the auto-close shuts the lock again
      and keeps the payment time. */
  method PaidNotificationScenario(code: string, t: real, token: string)
    requires code != "" && token != ""
  {
    var service := new Service(Config(false, 8));
    var request := Webhook.Request(Webhook.FormContentType, Some("transaction"), Some(code));
    var response := service.ReceiveNotification(request, Payment.QueryBody(Some(Number(3.0))));
    assert response == Webhook.Response("", 200);
    assert service.pendingOpens == 1;

    var fetch, unlock := FetchBody(Some(token), None), UnlockBody(Some(Number(0.0)));
    assert GetToken(false, EmptyCache, t, fetch).answer == Returned(Some(token));
    assert Accepted(unlock);
    var result := service.RunOpenThread(t, t + 1.0, fetch, unlock);
    assert result == Returned(true);
    assert service.state == Aberta && service.lastPaymentTime == Some(t + 1.0);
    assert service.CacheStatus() == "cached" && service.pendingCloses == 1;

    service.Close();
    assert service.state == Fechada && service.lastPaymentTime == Some(t + 1.0);
  }
}
