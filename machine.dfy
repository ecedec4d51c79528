/** The service as a state machine over values: the two global dicts plus
    the threads started but not yet run, driven by three kinds of event —
    a webhook request, an `open_ttlock` thread running, an auto-close
    thread running. */
module Machine {
  import opened Json
  import opened Credentials
  import opened Actuation
  import Webhook
  import Payment

  /** The settings read at start-up: `SIMULATION_MODE` and `OPEN_SECONDS`. */
  datatype Config = Config(simulation: bool, openSeconds: int)

  /** `token_cache`, `lock_status`, and the number of `open_ttlock` and
      `fechar` threads started and not yet run. */
  datatype State = State(cache: Cache, status: Status, pendingOpens: nat, pendingCloses: nat)

  const Init := State(EmptyCache, InitialStatus, 0, 0)

  datatype Event =
    | Notify(request: Webhook.Request, reply: Payment.Query)
    | OpenThread(now: real, unlockedAt: real, fetch: Fetch, unlock: Unlock)
    | CloseThread

  /** The attempt an `OpenThread` event runs from state s. */
  function AttemptOf(cfg: Config, s: State, e: Event): AttemptStep
    requires e.OpenThread?
  {
    Attempt(cfg.simulation, s.cache, s.status, cfg.openSeconds, e.now, e.unlockedAt, e.fetch, e.unlock)
  }

  /** One event. A thread event with no such thread pending does nothing. */
  function Step(cfg: Config, s: State, e: Event): (r: State)
    // a webhook request touches nothing but the count of pending opens
    ensures e.Notify? ==> r.cache == s.cache && r.status == s.status && r.pendingCloses == s.pendingCloses
    // only a request that passed every guard starts a thread
    ensures r.pendingOpens > s.pendingOpens ==> e.Notify? && Webhook.Handle(e.request, e.reply).dispatch
    // pending threads grow by at most the one a request starts
    ensures r.pendingOpens + r.pendingCloses <= s.pendingOpens + s.pendingCloses + (if e.Notify? then 1 else 0)
    // only an open thread that ran, outside simulation mode, changes the token cache
    ensures r.cache != s.cache ==> e.OpenThread? && s.pendingOpens > 0 && !cfg.simulation
    // only a successful open records a payment time or opens a closed lock
    ensures r.status.lastPaymentTime != s.status.lastPaymentTime
              || (s.status.state == Fechada && r.status.state == Aberta) ==>
              e.OpenThread? && s.pendingOpens > 0 && AttemptOf(cfg, s, e).result == Returned(true)
    // a close that ran leaves the lock closed with the closed message
    ensures e.CloseThread? && s.pendingCloses > 0 ==>
              r.status == Status(Fechada, s.status.lastPaymentTime, ClosedMessage)
  {
    match e
    case Notify(request, reply) =>
      if Webhook.Handle(request, reply).dispatch then s.(pendingOpens := s.pendingOpens + 1) else s
    case OpenThread(_, _, _, _) =>
      if s.pendingOpens == 0 then s
      else
        var a := AttemptOf(cfg, s, e);
        State(a.cache, a.status, s.pendingOpens - 1, s.pendingCloses + if a.closeScheduled then 1 else 0)
    case CloseThread =>
      if s.pendingCloses == 0 then s
      else s.(status := Closed(s.status), pendingCloses := s.pendingCloses - 1)
  }

  function Run(cfg: Config, s: State, es: seq<Event>): State
    decreases |es|
  {
    if es == [] then s else Run(cfg, Step(cfg, s, es[0]), es[1..])
  }

  /** Webhook requests in es that started an `open_ttlock` thread. */
  function Dispatches(es: seq<Event>): nat
    decreases |es|
  {
    if es == [] then 0
    else (if es[0].Notify? && Webhook.Handle(es[0].request, es[0].reply).dispatch then 1 else 0)
         + Dispatches(es[1..])
  }

  /** `open_ttlock` runs in es, started from s. */
  function Attempts(cfg: Config, s: State, es: seq<Event>): nat
    decreases |es|
  {
    if es == [] then 0
    else (if es[0].OpenThread? && s.pendingOpens > 0 then 1 else 0)
         + Attempts(cfg, Step(cfg, s, es[0]), es[1..])
  }

  /** `open_ttlock` runs in es, started from s, that opened the lock. */
  function Opens(cfg: Config, s: State, es: seq<Event>): nat
    decreases |es|
  {
    if es == [] then 0
    else (if es[0].OpenThread? && s.pendingOpens > 0 && AttemptOf(cfg, s, es[0]).result == Returned(true) then 1 else 0)
         + Opens(cfg, Step(cfg, s, es[0]), es[1..])
  }

  /** Auto-close runs in es, started from s. */
  function Closes(cfg: Config, s: State, es: seq<Event>): nat
    decreases |es|
  {
    if es == [] then 0
    else (if es[0].CloseThread? && s.pendingCloses > 0 then 1 else 0)
         + Closes(cfg, Step(cfg, s, es[0]), es[1..])
  }

  /** Every `open_ttlock` run was started by a webhook request that passed
      all guards, including the payment check: runs plus threads still
      pending equal the threads pending at the start plus the dispatches. */
  lemma {:induction false} OpenThreadsBalance(cfg: Config, s: State, es: seq<Event>)
    ensures Attempts(cfg, s, es) + Run(cfg, s, es).pendingOpens == s.pendingOpens + Dispatches(es)
    decreases |es|
  {
    if es != [] {
      OpenThreadsBalance(cfg, Step(cfg, s, es[0]), es[1..]);
    }
  }

  /** Outside simulation mode every `open_ttlock` run, whatever its outcome,
      schedules exactly one close; in simulation mode none does. */
  lemma {:induction false} CloseThreadsBalance(cfg: Config, s: State, es: seq<Event>)
    ensures Closes(cfg, s, es) + Run(cfg, s, es).pendingCloses
            == s.pendingCloses + if cfg.simulation then 0 else Attempts(cfg, s, es)
    decreases |es|
  {
    if es != [] {
      CloseThreadsBalance(cfg, Step(cfg, s, es[0]), es[1..]);
    }
  }

  /** At most one open per confirmed payment: from the initial state, the
      runs that opened the lock never outnumber the dispatching requests. */
  lemma {:induction false} OpensBoundedByDispatches(cfg: Config, es: seq<Event>)
    ensures Opens(cfg, Init, es) <= Dispatches(es)
  {
    OpensAtMostAttempts(cfg, Init, es);
    OpenThreadsBalance(cfg, Init, es);
  }

  lemma {:induction false} OpensAtMostAttempts(cfg: Config, s: State, es: seq<Event>)
    ensures Opens(cfg, s, es) <= Attempts(cfg, s, es)
    decreases |es|
  {
    if es != [] {
      OpensAtMostAttempts(cfg, Step(cfg, s, es[0]), es[1..]);
    }
  }

  /** With no thread pending, requests that do not pass every guard of the
      webhook (among them every unconfirmed payment) change nothing at all:
      no token request, no open, no close. */
  lemma {:induction false} UnconfirmedChangesNothing(cfg: Config, s: State, es: seq<Event>)
    requires s.pendingOpens == 0 && s.pendingCloses == 0
    requires Dispatches(es) == 0
    ensures Run(cfg, s, es) == s
    decreases |es|
  {
    if es != [] {
      assert Step(cfg, s, es[0]) == s;
      UnconfirmedChangesNothing(cfg, s, es[1..]);
    }
  }

  /** No actuation without a confirmed payment: from the initial state the
      lock is open only after some request passed the payment check. */
  lemma OpenRequiresDispatch(cfg: Config, es: seq<Event>)
    requires Run(cfg, Init, es).status.state == Aberta
    ensures Dispatches(es) > 0
  {
    if Dispatches(es) == 0 {
      UnconfirmedChangesNothing(cfg, Init, es);
    }
  }

  /** Only an open changes the time of the last payment, and only an open
      turns a closed lock into an open one. */
  lemma {:induction false} PaymentTimeOnlyAtOpen(cfg: Config, s: State, es: seq<Event>)
    requires Opens(cfg, s, es) == 0
    ensures Run(cfg, s, es).status.lastPaymentTime == s.status.lastPaymentTime
    ensures Run(cfg, s, es).status.state == Aberta ==> s.status.state == Aberta
    decreases |es|
  {
    if es != [] {
      PaymentTimeOnlyAtOpen(cfg, Step(cfg, s, es[0]), es[1..]);
    }
  }

  /** Simulation mode never touches the token cache, so the routes keep
      reporting the cache status of the start. */
  lemma {:induction false} SimulationKeepsCache(cfg: Config, s: State, es: seq<Event>)
    requires cfg.simulation
    ensures Run(cfg, s, es).cache == s.cache
    ensures CacheStatus(Run(cfg, s, es).cache) == CacheStatus(s.cache)
    decreases |es|
  {
    if es != [] {
      SimulationKeepsCache(cfg, Step(cfg, s, es[0]), es[1..]);
    }
  }

  /** Simulation mode never closes: once open with no close pending, the
      lock stays open. */
  lemma {:induction false} SimulationStaysOpen(cfg: Config, s: State, es: seq<Event>)
    requires cfg.simulation && s.pendingCloses == 0 && s.status.state == Aberta
    ensures Run(cfg, s, es).pendingCloses == 0
    ensures Run(cfg, s, es).status.state == Aberta
    decreases |es|
  {
    if es != [] {
      SimulationStaysOpen(cfg, Step(cfg, s, es[0]), es[1..]);
    }
  }

  lemma RunTwo(cfg: Config, s: State, e0: Event, e1: Event)
    ensures Run(cfg, s, [e0, e1]) == Step(cfg, Step(cfg, s, e0), e1)
  {
    var s1 := Step(cfg, s, e0);
    assert [e0, e1][1..] == [e1];
    assert Run(cfg, s, [e0, e1]) == Run(cfg, s1, [e1]);
    assert [e1][1..] == [];
    assert Run(cfg, s1, [e1]) == Run(cfg, Step(cfg, s1, e1), []);
  }

  /** A close is not tied to the attempt that scheduled it: the close left
      behind by a failed attempt shuts the lock that a later attempt opened,
      while that attempt's own close is still pending. */
  lemma EarlierCloseShutsLaterOpen(cfg: Config, paid: Webhook.Request, reply: Payment.Query,
                                   token: string, t1: real, t2: real, u: real)
    requires !cfg.simulation
    requires Webhook.Handle(paid, reply).dispatch
    requires token != ""
    ensures var failed := OpenThread(t1, t1, FetchError, UnlockError);
            var success := OpenThread(t2, u, FetchBody(Some(token), None), UnlockBody(Some(Number(0.0))));
            var s := Run(cfg, Run(cfg, Init, [Notify(paid, reply), failed]), [Notify(paid, reply), success]);
            var s' := Step(cfg, s, CloseThread);
            s.status == Opened(u, cfg.openSeconds) && s.pendingCloses == 2
            && s'.status.state == Fechada && s'.pendingCloses == 1
            && s'.status.lastPaymentTime == Some(u)
  {
    var failed := OpenThread(t1, t1, FetchError, UnlockError);
    var success := OpenThread(t2, u, FetchBody(Some(token), None), UnlockBody(Some(Number(0.0))));
    var s1 := Step(cfg, Init, Notify(paid, reply));
    assert s1 == Init.(pendingOpens := 1);
    var s2 := Step(cfg, s1, failed);
    assert AttemptOf(cfg, s1, failed).result == Returned(false);
    assert s2 == State(EmptyCache, InitialStatus, 0, 1);
    RunTwo(cfg, Init, Notify(paid, reply), failed);
    var s3 := Step(cfg, s2, Notify(paid, reply));
    assert s3 == State(EmptyCache, InitialStatus, 1, 1);
    var s4 := Step(cfg, s3, success);
    var a := AttemptOf(cfg, s3, success);
    assert GetToken(false, EmptyCache, t2, success.fetch).answer == Returned(Some(token));
    assert Accepted(success.unlock);
    assert a.result == Returned(true);
    assert s4.status == Opened(u, cfg.openSeconds) && s4.pendingCloses == 2;
    RunTwo(cfg, s2, Notify(paid, reply), success);
  }
}
