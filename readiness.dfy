/** The application readiness poller and its process-wide cache
    (`application_status` and `ensure_application_running`,
    main.py:14-17, 60-119).  Every upstream answer is an input: the
    confirmation GET, the start POST, and the status GETs of the poll loop,
    of which the loop consumes a prefix. */
module Readiness {
  import opened Common
  import opened PyJson
  import opened Upstream

  const ApplicationStartTimeout: nat := 300
  const ApplicationCheckInterval: nat := 5
  /** `APPLICATION_START_TIMEOUT // check_interval`, that is 60. */
  const ApplicationMaxRetries: nat := ApplicationStartTimeout / ApplicationCheckInterval

  /** What the upstream answers, in order, to one readiness check. */
  datatype AppScript = AppScript(
    confirm: Response,       // GET application/ when the cache says active
    start: Response,         // POST application/start/
    polls: seq<Response>)    // the GET application/ of each retry

  predicate IsActive(status: Json) {
    status == JStr("active")
  }

  /** How the poll loop ended. */
  datatype PollEnd =
    | Activated      // the last observed status is "active"
    | TimedOut       // every retry was spent without seeing "active"
    | CheckRefused   // a status GET answered outside 200/201: return False
    | CheckRaised    // a body was not JSON, or not a dict: the exception escapes

  /** The loop's end and the number of status GETs it issued. */
  datatype Polled = Polled(end: PollEnd, checks: nat)

  /** The `while data.get("status") != "active" and retry_count < max_retries`
      loop, from the current `data` with `budget` retries left. */
  function PollApplication(data: Json, polls: seq<Response>, budget: nat): (p: Polled)
    requires |polls| >= budget
    ensures p.checks <= budget
    decreases budget
  {
    match Get(data, "status")
    case Raises => Polled(CheckRaised, 0)
    case Returns(status) =>
      if IsActive(status) then Polled(Activated, 0)
      else if budget == 0 then Polled(TimedOut, 0)
      else if !polls[0].Success() then Polled(CheckRefused, 1)
      else
        match JsonOf(polls[0])
        case Raises => Polled(CheckRaised, 1)
        case Returns(next) =>
          var p := PollApplication(next, polls[1..], budget - 1);
          Polled(p.end, p.checks + 1)
  }

  /** A timeout spends every retry; a refusal is the answer of the last
      status GET issued. */
  lemma {:induction false} PollEnds(data: Json, polls: seq<Response>, budget: nat)
    requires |polls| >= budget
    ensures var p := PollApplication(data, polls, budget);
            (p.end == TimedOut ==> p.checks == budget)
            && (p.end == CheckRefused ==> 0 < p.checks && !polls[p.checks - 1].Success())
    decreases budget
  {
    var p := PollApplication(data, polls, budget);
    if p.checks > 1 {
      PollEnds(polls[0].body.value, polls[1..], budget - 1);
      assert polls[1..][p.checks - 2] == polls[p.checks - 1];
    }
  }

  /** One turn of the loop, `k` retries in: the status observed keeps it
      going, so the `k`-th status GET decides what happens next. */
  lemma PollTurn(data: Json, polls: seq<Response>, k: nat, budget: nat)
    requires k < budget <= |polls|
    requires Get(data, "status").Returns? && !IsActive(Get(data, "status").value)
    ensures Delayed(PollApplication(data, polls[k..], budget - k), k)
            == if !polls[k].Success() then Polled(CheckRefused, k + 1)
               else if polls[k].body.NotJson? then Polled(CheckRaised, k + 1)
               else Delayed(PollApplication(polls[k].body.value, polls[k + 1..], budget - (k + 1)), k + 1)
  {
    assert polls[k..][1..] == polls[k + 1..];
  }

  /** The loop stops, `k` retries in, on the status it observes: it
      raised, it is "active", or no retry is left. */
  lemma PollStop(data: Json, polls: seq<Response>, k: nat, budget: nat)
    requires k <= budget <= |polls|
    requires Get(data, "status").Raises? || IsActive(Get(data, "status").value) || k == budget
    ensures Delayed(PollApplication(data, polls[k..], budget - k), k)
            == Polled(if Get(data, "status").Raises? then CheckRaised
                      else if IsActive(Get(data, "status").value) then Activated
                      else TimedOut, k)
  {
  }

  /** An observation that keeps the loop going. */
  predicate Pending(o: Option<Json>) {
    o.Some? && !IsActive(o.value)
  }

  /** The loop's `k`-th observation is "active" and every earlier one kept
      it going. */
  predicate ActiveAt(data: Json, polls: seq<Response>, k: nat) {
    k <= |polls| && Observation(data, polls, k) == Some(JStr("active"))
    && forall i :: 0 <= i < k ==> Pending(Observation(data, polls, i))
  }

  /** Seeing "active" at observation `k` within the budget, after `k`
      pending ones, ends the loop there with `k` status GETs. */
  lemma {:induction false} ActivatedAt(data: Json, polls: seq<Response>, budget: nat, k: nat)
    requires |polls| >= budget && k <= budget && ActiveAt(data, polls, k)
    ensures PollApplication(data, polls, budget) == Polled(Activated, k)
    decreases k
  {
    if k > 0 {
      assert Pending(Observation(data, polls, 0));
      assert Observation(data, polls, 1).Some?;
      var next := polls[0].body.value;
      forall i | 0 <= i <= k - 1
        ensures Observation(next, polls[1..], i) == Observation(data, polls, i + 1)
      {
        ObservationShift(data, polls, i);
      }
      ActivatedAt(next, polls[1..], budget - 1, k - 1);
    }
  }

  /** A status GET refused after `k` pending observations ends the loop
      there: the call returns False after `k + 1` status GETs. */
  lemma {:induction false} RefusedCheckStops(data: Json, polls: seq<Response>, budget: nat, k: nat)
    requires |polls| >= budget && k < budget && !polls[k].Success()
    requires forall i :: 0 <= i <= k ==> Pending(Observation(data, polls, i))
    ensures PollApplication(data, polls, budget) == Polled(CheckRefused, k + 1)
    decreases k
  {
    assert Pending(Observation(data, polls, 0));
    if k > 0 {
      assert Observation(data, polls, 1).Some?;
      var next := polls[0].body.value;
      forall i | 0 <= i <= k - 1
        ensures Observation(next, polls[1..], i) == Observation(data, polls, i + 1)
      {
        ObservationShift(data, polls, i);
      }
      assert polls[1..][k - 1] == polls[k];
      RefusedCheckStops(next, polls[1..], budget - 1, k - 1);
    }
  }

  /** Conversely, Activated means the last observation was "active" after
      as many pending ones as status GETs were issued. */
  lemma {:induction false} ActivatedMeansActiveAt(data: Json, polls: seq<Response>, budget: nat)
    requires |polls| >= budget
    ensures var p := PollApplication(data, polls, budget);
            p.end == Activated ==> ActiveAt(data, polls, p.checks)
    decreases budget
  {
    var p := PollApplication(data, polls, budget);
    if p.end == Activated && p.checks > 0 {
      var next := polls[0].body.value;
      ActivatedMeansActiveAt(next, polls[1..], budget - 1);
      forall i | 0 <= i <= p.checks - 1
        ensures Observation(next, polls[1..], i) == Observation(data, polls, i + 1)
      {
        ObservationShift(data, polls, i);
      }
      forall i | 0 <= i < p.checks ensures Pending(Observation(data, polls, i)) {
        if i > 0 {
          assert Observation(next, polls[1..], i - 1) == Observation(data, polls, i);
        }
      }
    }
  }

  /** The loop times out exactly when all `budget + 1` observations (the
      start POST's and one per status GET) were pending. */
  lemma {:induction false} TimedOutExactly(data: Json, polls: seq<Response>, budget: nat)
    requires |polls| >= budget
    ensures PollApplication(data, polls, budget).end == TimedOut <==>
              forall i :: 0 <= i <= budget ==> Pending(Observation(data, polls, i))
    decreases budget
  {
    if Pending(Observation(data, polls, 0)) && budget > 0 {
      if polls[0].Success() && polls[0].body.Parsed? {
        var next := polls[0].body.value;
        TimedOutExactly(next, polls[1..], budget - 1);
        forall i | 0 <= i <= budget - 1
          ensures Observation(next, polls[1..], i) == Observation(data, polls, i + 1)
        {
          ObservationShift(data, polls, i);
        }
        if forall i :: 0 <= i <= budget - 1 ==> Pending(Observation(next, polls[1..], i)) {
          forall i | 0 <= i <= budget ensures Pending(Observation(data, polls, i)) {
            if i > 0 {
              assert Observation(next, polls[1..], i - 1) == Observation(data, polls, i);
            }
          }
        }
      } else {
        assert !Pending(Observation(data, polls, 1));
      }
    }
  }

  /** What one call of `ensure_application_running` returns (True, False
      or an escaping exception), the cache afterwards, and the number of
      status GETs issued by the poll loop. */
  datatype Run = Run(result: Outcome<bool>, active: bool, checks: nat)

  /** The confirmation when the cache says active:
      `response.json().get("status") == "active"`; the status code is not
      looked at. */
  function Confirm(r: Response): Outcome<bool> {
    var data :- JsonOf(r);
    var status :- Get(data, "status");
    Returns(IsActive(status))
  }

  /** The start path: POST start, then poll. */
  function StartAndPoll(s: AppScript): Run
    requires |s.polls| >= ApplicationMaxRetries
  {
    if !s.start.Success() then Run(Returns(false), false, 0)
    else
      match JsonOf(s.start)
      case Raises => Run(Raises, false, 0)
      case Returns(data) => Finish(PollApplication(data, s.polls, ApplicationMaxRetries))
  }

  /** What the call returns, and the cache it leaves, once the loop ended. */
  function Finish(p: Polled): Run {
    match p.end
    case Activated => Run(Returns(true), true, p.checks)
    case TimedOut => Run(Returns(false), false, p.checks)
    case CheckRefused => Run(Returns(false), false, p.checks)
    case CheckRaised => Run(Raises, false, p.checks)
  }

  /** `p`, after `k` status GETs issued before it. */
  function Delayed(p: Polled, k: nat): Polled {
    Polled(p.end, p.checks + k)
  }

  /** `ensure_application_running` given the cache `active` it starts from.
      A False return always leaves the cache empty, and status GETs are
      issued only after a start POST that succeeded. */
  function EnsureRunning(active: bool, s: AppScript): (run: Run)
    requires |s.polls| >= ApplicationMaxRetries
    ensures run.result == Returns(false) ==> !run.active
    ensures run.checks > 0 ==> s.start.Success() && (!active || Confirm(s.confirm) == Returns(false))
  {
    if active then
      match Confirm(s.confirm)
      case Raises => Run(Raises, true, 0)
      case Returns(true) => Run(Returns(true), true, 0)
      case Returns(false) => StartAndPoll(s)
    else StartAndPoll(s)
  }

  /** At most `APPLICATION_START_TIMEOUT // 5` = 60 status GETs per call. */
  lemma ChecksBounded(active: bool, s: AppScript)
    requires |s.polls| >= ApplicationMaxRetries
    ensures EnsureRunning(active, s).checks <= 60
  {
  }

  /** A start POST outside 200/201 returns False before any polling. */
  lemma StartRefusedReturnsFalse(active: bool, s: AppScript)
    requires |s.polls| >= ApplicationMaxRetries
    requires !active || Confirm(s.confirm) == Returns(false)
    requires !s.start.Success()
    ensures EnsureRunning(active, s) == Run(Returns(false), false, 0)
  {
  }

  /** The cache ends up active only when the call returned True, or when a
      confirmation of an active cache raised before it could be reset. */
  lemma CacheSetOnlyOnActive(active: bool, s: AppScript)
    requires |s.polls| >= ApplicationMaxRetries
    ensures var run := EnsureRunning(active, s);
            run.active ==> run.result == Returns(true) || (active && Confirm(s.confirm).Raises?)
    ensures EnsureRunning(active, s).result == Returns(true) ==> EnsureRunning(active, s).active
  {
  }

  /** True means the last status observed was "active": either the
      confirmation of an active cache, or the end of the poll loop. */
  lemma TrueMeansObservedActive(active: bool, s: AppScript)
    requires |s.polls| >= ApplicationMaxRetries
    ensures EnsureRunning(active, s).result == Returns(true) ==>
              (active && Confirm(s.confirm) == Returns(true) && EnsureRunning(active, s).checks == 0)
              || (s.start.Success() && JsonOf(s.start).Returns?
                  && PollApplication(JsonOf(s.start).value, s.polls, ApplicationMaxRetries).end == Activated)
  {
  }

  /** A confirmation that disagrees behaves exactly like an empty cache:
      the cache is reset and the start path is taken. */
  lemma DisagreeingConfirmationResets(s: AppScript)
    requires |s.polls| >= ApplicationMaxRetries
    requires Confirm(s.confirm) == Returns(false)
    ensures EnsureRunning(true, s) == EnsureRunning(false, s)
  {
  }

  /** A confirmation that agrees returns True at once and leaves the cache
      set, whatever the start and poll answers would have been. */
  lemma ConfirmedCacheKept(s: AppScript)
    requires |s.polls| >= ApplicationMaxRetries
    requires Confirm(s.confirm) == Returns(true)
    ensures EnsureRunning(true, s) == Run(Returns(true), true, 0)
  {
  }

  /** The confirmation reads the body only: its status code does not
      matter. */
  lemma ConfirmIgnoresStatusCode(active: bool, s: AppScript, code: int)
    requires |s.polls| >= ApplicationMaxRetries
    ensures EnsureRunning(active, s) == EnsureRunning(active, s.(confirm := s.confirm.(code := code)))
  {
  }

  /** An empty cache never looks at the confirmation answer. */
  lemma EmptyCacheSkipsConfirmation(s: AppScript, confirm: Response)
    requires |s.polls| >= ApplicationMaxRetries
    ensures EnsureRunning(false, s) == EnsureRunning(false, s.(confirm := confirm))
  {
  }

  /** The wait loop of `ensure_application_running`: from the start POST's
      body, re-check the status until it is "active", a check is refused,
      or the retries are spent. */
  method AwaitActive(data: Json, polls: seq<Response>) returns (end: PollEnd, checks: nat)
    requires |polls| >= ApplicationMaxRetries
    ensures Polled(end, checks) == PollApplication(data, polls, ApplicationMaxRetries)
  {
    ghost var goal := PollApplication(data, polls, ApplicationMaxRetries);
    var data := data;
    var maxRetries := ApplicationMaxRetries;
    var retryCount := 0;
    var status := Get(data, "status");
    while status.Returns? && !IsActive(status.value) && retryCount < maxRetries
      invariant 0 <= retryCount <= maxRetries
      invariant status == Get(data, "status")
      invariant goal == Delayed(PollApplication(data, polls[retryCount..], maxRetries - retryCount), retryCount)
      decreases maxRetries - retryCount
    {
      PollTurn(data, polls, retryCount, maxRetries);
      retryCount := retryCount + 1;
      var response := polls[retryCount - 1];
      if !response.Success() {
        return CheckRefused, retryCount;
      }
      if response.body.NotJson? {
        return CheckRaised, retryCount;
      }
      data := response.body.value;
      status := Get(data, "status");
    }

    PollStop(data, polls, retryCount, maxRetries);
    if status.Raises? {
      return CheckRaised, retryCount;
    }
    if IsActive(status.value) {
      return Activated, retryCount;
    }
    return TimedOut, retryCount;
  }

  /** The cache (`application_status`), shared by every request whatever
      its API key.  `active` stands for `application_status == "active"`,
      `false` for `None`. */
  class ApplicationStatusCache {
    var active: bool

    constructor ()
      ensures !active
    {
      active := false;
    }

    /** `ensure_application_running`, with the upstream's answers as `s`. */
    method EnsureApplicationRunning(s: AppScript) returns (result: Outcome<bool>, checks: nat)
      requires |s.polls| >= ApplicationMaxRetries
      modifies this
      ensures EnsureRunning(old(active), s) == Run(result, active, checks)
    {
      if active {
        var confirmed := Confirm(s.confirm);
        if confirmed.Raises? {
          return Raises, 0;
        }
        if confirmed.value {
          return Returns(true), 0;
        }
        active := false;
      }

      if !s.start.Success() {
        return Returns(false), 0;
      }
      if s.start.body.NotJson? {
        return Raises, 0;
      }
      var end;
      end, checks := AwaitActive(s.start.body.value, s.polls);
      match end
      case Activated =>
        active := true;
        result := Returns(true);
      case TimedOut =>
        result := Returns(false);
      case CheckRefused =>
        result := Returns(false);
      case CheckRaised =>
        result := Raises;
    }
  }
}
