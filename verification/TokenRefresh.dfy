/**
 Single-flight token refresh of frontend/src/lib/api.ts: the 401 interceptor, the refresh promise
 it shares, and the auth store, as steps between which any other callback may run.
 */
module TokenRefresh {
  import opened Common

  datatype User = User(id: string, email: string, role: string, accessToken: string)

  datatype Outcome = Granted(token: string) | Refused

  /** On its way through the request interceptor; out on the wire; waiting for refresh call k; or settled. */
  datatype Stage = Leaving | Sent | Waiting(k: nat) | Answered | Rejected

  /** `retry` is the `_retry` mark; `sends` and `joined` count its transmissions and the refresh calls it waited for. */
  datatype Request = Request(stage: Stage, retry: bool, authorization: Option<string>, sends: nat, joined: nat)

  /** Refresh calls are numbered; `landed` holds their results, `cleared` those whose `finally` has run. */
  datatype State = State(
    promise: Option<nat>,
    calls: nat,
    landed: map<nat, Outcome>,
    cleared: set<nat>,
    user: Option<User>,
    requests: seq<Request>)

  const START := State(None, 0, map[], {}, None, [])

  datatype Step =
    | Issue                             // application code calls api(...)
    | Login(u: User)
    | Logout
    | Transmit(r: nat)                  // the request interceptor attaches the current token and r goes out
    | Reply(r: nat, status: nat)        // the response for r, or with status 0 its failure
    | Land(k: nat, outcome: Outcome)    // refresh call k completes
    | Clear(k: nat)                     // its `finally` resets the shared promise
    | Resume(r: nat)                    // request r continues after its await

  /** Steps the interceptor and its refresh calls take, as opposed to the application. */
  predicate Internal(e: Step) {
    e.Transmit? || e.Reply? || e.Land? || e.Clear? || e.Resume?
  }

  predicate Enabled(s: State, e: Step) {
    match e
    case Issue => true
    case Login(_) => true
    case Logout => true
    case Transmit(r) => r < |s.requests| && s.requests[r].stage.Leaving?
    case Reply(r, _) => r < |s.requests| && s.requests[r].stage.Sent?
    case Land(k, _) => k < s.calls && k !in s.landed
    case Clear(k) => k in s.landed && k !in s.cleared
    case Resume(r) =>
      && r < |s.requests| && s.requests[r].stage.Waiting?
      && s.requests[r].stage.k in s.landed && s.requests[r].stage.k in s.cleared
  }

  function WithRequest(s: State, r: nat, request: Request): State
    requires r < |s.requests|
  {
    s.(requests := s.requests[r := request])
  }

  /** `if (token)`: somebody is signed in and the token is not empty. */
  predicate HasToken(user: Option<User>) {
    user.Some? && user.value.accessToken != ""
  }

  /** Joining the refresh in flight, or starting one. */
  function Joined(s: State, r: nat): State
    requires r < |s.requests|
  {
    var k := if s.promise.Some? then s.promise.value else s.calls;
    var request := s.requests[r].(stage := Waiting(k), retry := true, joined := s.requests[r].joined + 1);
    WithRequest(s, r, request).(promise := Some(k), calls := if s.promise.Some? then s.calls else s.calls + 1)
  }

  function Next(s: State, e: Step): State
    requires Enabled(s, e)
  {
    match e
    case Issue => s.(requests := s.requests + [Request(Leaving, false, None, 0, 0)])
    case Login(u) => s.(user := Some(u))
    case Logout => s.(user := None)
    case Transmit(r) =>
      var request := s.requests[r];
      var token := if HasToken(s.user) then Some(s.user.value.accessToken) else request.authorization;
      WithRequest(s, r, request.(stage := Sent, authorization := token, sends := request.sends + 1))
    case Reply(r, status) =>
      var request := s.requests[r];
      if 200 <= status < 300 then WithRequest(s, r, request.(stage := Answered))
      else if status == 401 && !request.retry then Joined(s, r)
      else WithRequest(s, r, request.(stage := Rejected))
    case Land(k, outcome) => s.(landed := s.landed[k := outcome])
    case Clear(k) => s.(promise := None, cleared := s.cleared + {k})
    case Resume(r) =>
      var request := s.requests[r];
      match s.landed[request.stage.k]
      case Refused => WithRequest(s, r, request.(stage := Rejected)).(user := None)
      case Granted(token) =>
        WithRequest(s, r, request.(stage := Leaving, authorization := Some(token)))
        .(user := if s.user.Some? then Some(s.user.value.(accessToken := token)) else None)
  }

  ghost predicate IsRun(states: seq<State>, steps: seq<Step>) {
    && |states| == |steps| + 1 && states[0] == START
    && forall i | 0 <= i < |steps| :: StepFrom(states, steps, i)
  }

  ghost predicate StepFrom(states: seq<State>, steps: seq<Step>, i: nat)
    requires i < |steps| && |states| == |steps| + 1
  {
    Enabled(states[i], steps[i]) && states[i + 1] == Next(states[i], steps[i])
  }

  // ---------------------------------------------------------------- the interceptor's own form

  class Client {
    var promise: Option<nat>
    var calls: nat
    var landed: map<nat, Outcome>
    var cleared: set<nat>
    var user: Option<User>
    var requests: seq<Request>

    function Value(): State
      reads this
    {
      State(promise, calls, landed, cleared, user, requests)
    }

    constructor ()
      ensures Value() == START
    {
      promise, calls, landed, cleared, user, requests := None, 0, map[], {}, None, [];
    }

    /** The request interceptor: the store's token if somebody is signed in, else whatever header there was. */
    method AttachToken(r: nat)
      requires Enabled(Value(), Transmit(r))
      modifies this`requests
      ensures Value() == Next(old(Value()), Transmit(r))
    {
      var request := requests[r];
      if user.Some? && user.value.accessToken != "" {
        request := request.(authorization := Some(user.value.accessToken));
      }
      requests := requests[r := request.(stage := Sent, sends := request.sends + 1)];
    }

    /** `refreshAccessToken`: the call to wait for. */
    method RefreshAccessToken() returns (k: nat)
      modifies this`promise, this`calls
      ensures promise == Some(k)
      ensures old(promise).Some? ==> promise == old(promise) && calls == old(calls)
      ensures old(promise).None? ==> k == old(calls) && calls == old(calls) + 1
    {
      if promise.None? {
        promise, calls := Some(calls), calls + 1;
      }
      k := promise.value;
    }

    /** The response interceptor, up to its await or its end. */
    method OnResponse(r: nat, status: nat)
      requires Enabled(Value(), Reply(r, status))
      modifies this
      ensures Value() == Next(old(Value()), Reply(r, status))
    {
      var request := requests[r];
      if 200 <= status < 300 {
        requests := requests[r := request.(stage := Answered)];
        return;
      }
      if status == 401 && !request.retry {
        request := request.(retry := true);
        var k := RefreshAccessToken();
        requests := requests[r := request.(stage := Waiting(k), joined := request.joined + 1)];
        return;
      }
      requests := requests[r := request.(stage := Rejected)];
    }

    /** The interceptor behind its await: store the token for a signed-in user and resend, or sign out. */
    method AfterRefresh(r: nat)
      requires Enabled(Value(), Resume(r))
      modifies this
      ensures Value() == Next(old(Value()), Resume(r))
    {
      var request := requests[r];
      match landed[request.stage.k]
      case Granted(newToken) =>
        if user.Some? {
          user := Some(user.value.(accessToken := newToken));
        }
        request := request.(authorization := Some(newToken));
        requests := requests[r := request.(stage := Leaving)];
      case Refused =>
        user := None;
        requests := requests[r := request.(stage := Rejected)];
    }
  }

  // ---------------------------------------------------------------- what every state keeps

  ghost predicate CallInOrder(s: State, k: nat) {
    && (k in s.cleared ==> k in s.landed)
    && (k in s.landed ==> k < s.calls)
    && (k < s.calls && k !in s.cleared ==> s.promise == Some(k))
    && (s.promise == Some(k) ==> k < s.calls && k !in s.cleared)
  }

  ghost predicate RequestInOrder(s: State, request: Request) {
    && request.sends <= 2
    && request.joined == (if request.retry then 1 else 0)
    && (request.stage.Leaving? ==> request.sends == request.joined)
    && (request.stage.Sent? ==> request.sends == request.joined + 1)
    && (request.stage.Waiting? ==> request.retry && request.sends == 1 && request.stage.k < s.calls)
  }

  ghost predicate RequestAt(s: State, r: nat) {
    r < |s.requests| ==> RequestInOrder(s, s.requests[r])
  }

  function Retried(requests: seq<Request>): nat {
    if requests == [] then 0
    else Retried(requests[..|requests| - 1]) + if requests[|requests| - 1].retry then 1 else 0
  }

  ghost predicate Sound(s: State) {
    && (forall k: nat :: CallInOrder(s, k))
    && (forall r: nat :: RequestAt(s, r))
    && s.calls <= Retried(s.requests)
  }

  /** Turns still needed: for a request, and for the refresh call in flight. */
  function Cost(request: Request): nat {
    match request.stage
    case Leaving => if request.retry then 2 else 7
    case Sent => if request.retry then 1 else 6
    case Waiting(_) => 3
    case Answered => 0
    case Rejected => 0
  }

  function Costs(requests: seq<Request>): nat {
    if requests == [] then 0
    else Costs(requests[..|requests| - 1]) + Cost(requests[|requests| - 1])
  }

  function Outstanding(s: State): nat {
    Costs(s.requests) + match s.promise case None => 0 case Some(k) => if k in s.landed then 1 else 2
  }

  lemma {:induction false} SumsAfterUpdate(requests: seq<Request>, r: nat, request: Request)
    requires r < |requests|
    ensures Costs(requests[r := request]) == Costs(requests) - Cost(requests[r]) + Cost(request)
    ensures Retried(requests[r := request])
            == Retried(requests) - (if requests[r].retry then 1 else 0) + (if request.retry then 1 else 0)
  {
    var n := |requests| - 1;
    if r < n {
      SumsAfterUpdate(requests[..n], r, request);
      assert requests[r := request][..n] == requests[..n][r := request];
    } else {
      assert requests[r := request][..n] == requests[..n];
    }
  }

  lemma SumsAfterAppend(requests: seq<Request>, request: Request)
    ensures Costs(requests + [request]) == Costs(requests) + Cost(request)
    ensures Retried(requests + [request]) == Retried(requests) + if request.retry then 1 else 0
  {
    assert (requests + [request])[..|requests|] == requests;
  }

  /** The steps that move one request. */
  predicate Moves(e: Step) {
    e.Transmit? || e.Reply? || e.Resume?
  }

  lemma SumsMove(s: State, e: Step)
    requires Enabled(s, e)
    ensures e.Issue? ==>
              && Costs(Next(s, e).requests) == Costs(s.requests) + 7
              && Retried(Next(s, e).requests) == Retried(s.requests)
    ensures Moves(e) ==>
              var t := Next(s, e);
              && |t.requests| == |s.requests|
              && Costs(t.requests) == Costs(s.requests) - Cost(s.requests[e.r]) + Cost(t.requests[e.r])
              && Retried(t.requests) == Retried(s.requests) - (if s.requests[e.r].retry then 1 else 0)
                                                            + (if t.requests[e.r].retry then 1 else 0)
  {
    if e.Issue? {
      SumsAfterAppend(s.requests, Next(s, e).requests[|s.requests|]);
    } else if Moves(e) {
      SumsAfterUpdate(s.requests, e.r, Next(s, e).requests[e.r]);
    }
  }

  lemma CallsStayInOrder(s: State, e: Step, k: nat)
    requires Sound(s) && Enabled(s, e)
    ensures CallInOrder(Next(s, e), k)
  {
    assert CallInOrder(s, k) && CallInOrder(s, s.calls);
    if e.Clear? {
      assert CallInOrder(s, e.k);
    }
    if s.promise.Some? {
      assert CallInOrder(s, s.promise.value);
    }
  }

  lemma RequestsStayInOrder(s: State, e: Step, r: nat)
    requires Sound(s) && Enabled(s, e)
    ensures RequestAt(Next(s, e), r)
  {
    assert RequestAt(s, r);
    if s.promise.Some? {
      assert CallInOrder(s, s.promise.value);
    }
  }

  lemma StepIsSound(s: State, e: Step)
    requires Sound(s) && Enabled(s, e)
    ensures Sound(Next(s, e))
  {
    forall k: nat ensures CallInOrder(Next(s, e), k) {
      CallsStayInOrder(s, e, k);
    }
    forall r: nat ensures RequestAt(Next(s, e), r) {
      RequestsStayInOrder(s, e, r);
    }
    SumsMove(s, e);
    if e.Resume? {
      assert RequestAt(s, e.r);
    }
  }

  /** Landing and clearing use up what the refresh call in flight still owes. */
  lemma CallCosts(s: State, e: Step)
    requires Sound(s) && Enabled(s, e) && (e.Land? || e.Clear?)
    ensures Outstanding(Next(s, e)) < Outstanding(s)
  {
    assert CallInOrder(s, e.k);
  }

  lemma RequestCosts(s: State, e: Step)
    requires Sound(s) && Enabled(s, e) && Moves(e)
    ensures Outstanding(Next(s, e)) < Outstanding(s)
  {
    SumsMove(s, e);
    assert RequestAt(s, e.r) && CallInOrder(s, s.calls);
  }

  /** Each interceptor step uses up some of what is outstanding; only a new request adds to it. */
  lemma StepCosts(s: State, e: Step)
    requires Sound(s) && Enabled(s, e)
    ensures Internal(e) ==> Outstanding(Next(s, e)) < Outstanding(s)
    ensures !Internal(e) ==> Outstanding(Next(s, e)) <= Outstanding(s) + if e.Issue? then 7 else 0
  {
    if Moves(e) {
      RequestCosts(s, e);
    } else if e.Land? || e.Clear? {
      CallCosts(s, e);
    } else {
      SumsMove(s, e);
    }
  }

  // ---------------------------------------------------------------- runs

  function CountInternal(steps: seq<Step>): nat {
    if steps == [] then 0
    else CountInternal(steps[..|steps| - 1]) + if Internal(steps[|steps| - 1]) then 1 else 0
  }

  lemma {:induction false} RunIsSound(states: seq<State>, steps: seq<Step>, n: nat)
    requires IsRun(states, steps) && n <= |steps|
    ensures Sound(states[n])
    ensures CountInternal(steps[..n]) + Outstanding(states[n]) <= 7 * |states[n].requests|
  {
    if n > 0 {
      RunIsSound(states, steps, n - 1);
      assert StepFrom(states, steps, n - 1);
      StepIsSound(states[n - 1], steps[n - 1]);
      StepCosts(states[n - 1], steps[n - 1]);
      assert steps[..n][..n - 1] == steps[..n - 1];
    }
  }

  /** In flight: a refresh call that was made and has not completed. */
  predicate InFlight(s: State, k: nat) {
    k < s.calls && k !in s.landed
  }

  /** Single flight: never two refresh calls at once, and never more calls than requests that met a 401. */
  lemma SingleFlight(states: seq<State>, steps: seq<Step>, n: nat)
    requires IsRun(states, steps) && n <= |steps|
    ensures forall j, k | InFlight(states[n], j) && InFlight(states[n], k) :: j == k
    ensures states[n].calls <= Retried(states[n].requests)
  {
    RunIsSound(states, steps, n);
    forall k: nat | InFlight(states[n], k) ensures states[n].promise == Some(k) {
      assert CallInOrder(states[n], k);
    }
  }

  /** Of the step that concerns request r: nothing about anybody else changes. */
  ghost predicate OthersKept(s: State, t: State, r: nat) {
    && |t.requests| == |s.requests|
    && (forall q | 0 <= q < |s.requests| && q != r :: t.requests[q] == s.requests[q])
    && t.landed == s.landed && t.cleared == s.cleared
  }

  /** r waits for call k, marked. */
  predicate WaitsFor(s: State, r: nat, k: nat) {
    r < |s.requests| && s.requests[r].stage == Waiting(k) && s.requests[r].retry
  }

  /**
   What a response does. The first 401 of a request makes it wait for a refresh: for the call the others share, or,
   if there is none, for a new one that is in flight from then on. A 2xx answers the request, everything else, a
   second 401 included, rejects it, and neither makes a call.
   */
  lemma ReplyMeans(states: seq<State>, steps: seq<Step>, n: nat)
    requires IsRun(states, steps) && n < |steps| && steps[n].Reply?
    ensures var s, t, r, status := states[n], states[n + 1], steps[n].r, steps[n].status;
            && r < |s.requests| && OthersKept(s, t, r) && t.user == s.user
            && if status == 401 && !s.requests[r].retry then
                 if s.promise.Some? then
                   WaitsFor(t, r, s.promise.value) && t.calls == s.calls && t.promise == s.promise
                 else
                   && WaitsFor(t, r, s.calls) && t.calls == s.calls + 1 && t.promise == Some(s.calls)
                   && InFlight(t, s.calls) && !InFlight(s, s.calls)
               else
                 && t.calls == s.calls && t.promise == s.promise
                 && t.requests[r].stage == (if 200 <= status <= 299 then Answered else Rejected)
  {
    RunIsSound(states, steps, n);
    assert StepFrom(states, steps, n) && CallInOrder(states[n], states[n].calls);
  }

  /** What goes out: with the signed-in user's token, or with the header the request has, marked as it is. */
  lemma TransmitMeans(states: seq<State>, steps: seq<Step>, n: nat)
    requires IsRun(states, steps) && n < |steps| && steps[n].Transmit?
    ensures var s, t, r := states[n], states[n + 1], steps[n].r;
            && r < |s.requests| && OthersKept(s, t, r)
            && t.user == s.user && t.calls == s.calls && t.promise == s.promise
            && t.requests[r].stage.Sent? && t.requests[r].sends == s.requests[r].sends + 1
            && t.requests[r].retry == s.requests[r].retry
            && t.requests[r].authorization
               == (match s.user
                   case Some(u) => if u.accessToken != "" then Some(u.accessToken) else s.requests[r].authorization
                   case None => s.requests[r].authorization)
  {
    assert StepFrom(states, steps, n);
  }

  /** What the steps of a refresh call do: its result is what landed, and its end frees the place for another. */
  lemma CallMeans(states: seq<State>, steps: seq<Step>, n: nat)
    requires IsRun(states, steps) && n < |steps| && (steps[n].Land? || steps[n].Clear?)
    ensures var s, t, k := states[n], states[n + 1], steps[n].k;
            && t.requests == s.requests && t.user == s.user && t.calls == s.calls
            && (steps[n].Land? ==>
                  && InFlight(s, k) && !InFlight(t, k)
                  && t.landed == s.landed[k := steps[n].outcome] && t.promise == Some(k))
            && (steps[n].Clear? ==> s.promise == Some(k) && t.promise == None && t.landed == s.landed)
  {
    RunIsSound(states, steps, n);
    assert StepFrom(states, steps, n) && CallInOrder(states[n], steps[n].k);
  }

  /** What a waiting request does with the result: it is resent with the token granted, or rejected and signed out. */
  lemma ResumeMeans(states: seq<State>, steps: seq<Step>, n: nat)
    requires IsRun(states, steps) && n < |steps| && steps[n].Resume?
    ensures var s, t, r := states[n], states[n + 1], steps[n].r;
            && r < |s.requests| && OthersKept(s, t, r) && t.calls == s.calls && t.promise == s.promise
            && t.requests[r].retry == s.requests[r].retry && t.requests[r].sends == s.requests[r].sends
            && s.requests[r].stage.Waiting? && s.requests[r].stage.k in s.landed
            && match s.landed[s.requests[r].stage.k]
               case Granted(token) =>
                 && t.requests[r].stage.Leaving? && t.requests[r].authorization == Some(token)
                 && (t.user.Some? <==> s.user.Some?)
                 && (s.user.Some? ==> t.user.value == s.user.value.(accessToken := token))
               case Refused => t.requests[r].stage.Rejected? && t.user.None?
  {
    assert StepFrom(states, steps, n);
  }

  /** What the application does: a new request sets out unmarked, and signing in and out change nothing else. */
  lemma ApplicationMeans(states: seq<State>, steps: seq<Step>, n: nat)
    requires IsRun(states, steps) && n < |steps| && !Internal(steps[n])
    ensures var s, t, e := states[n], states[n + 1], steps[n];
            && t.calls == s.calls && t.promise == s.promise && t.landed == s.landed && t.cleared == s.cleared
            && |t.requests| == |s.requests| + (if e.Issue? then 1 else 0) && t.requests[..|s.requests|] == s.requests
            && (e.Issue? ==> var q := t.requests[|s.requests|]; q.stage.Leaving? && !q.retry && q.sends == 0)
            && t.user == match e case Login(u) => Some(u) case Logout => None case _ => s.user
  {
    assert StepFrom(states, steps, n);
  }

  /** A 401 arriving while a refresh call is in flight waits for that call and makes no other. */
  lemma MeanwhileShares(states: seq<State>, steps: seq<Step>, n: nat, k: nat)
    requires IsRun(states, steps) && n < |steps| && InFlight(states[n], k)
    requires steps[n].Reply? && steps[n].status == 401
    requires steps[n].r < |states[n].requests| && !states[n].requests[steps[n].r].retry
    ensures steps[n].r < |states[n + 1].requests| && states[n + 1].requests[steps[n].r].stage == Waiting(k)
    ensures states[n + 1].calls == states[n].calls
  {
    RunIsSound(states, steps, n);
    assert StepFrom(states, steps, n) && CallInOrder(states[n], k);
  }

  /** The result of a refresh call is fixed when it lands. */
  lemma {:induction false} ResultsAreFixed(states: seq<State>, steps: seq<Step>, m: nat, n: nat, k: nat)
    requires IsRun(states, steps) && m <= n <= |steps| && k in states[m].landed
    ensures k in states[n].landed && states[n].landed[k] == states[m].landed[k]
  {
    if m < n {
      ResultsAreFixed(states, steps, m, n - 1, k);
      assert StepFrom(states, steps, n - 1);
    }
  }

  /** How a waiting request goes on: resent with the token granted, which a signed-in user now has, or rejected. */
  predicate ResumedWith(s: State, r: nat, outcome: Outcome) {
    && r < |s.requests|
    && match outcome
       case Granted(token) =>
         && s.requests[r].stage.Leaving? && s.requests[r].authorization == Some(token)
         && (s.user.Some? ==> s.user.value.accessToken == token)
       case Refused => s.requests[r].stage.Rejected? && s.user.None?
  }

  /** Any two requests that waited for the same refresh call resume with its one result, however far apart. */
  lemma WaitersShareTheResult(states: seq<State>, steps: seq<Step>, m: nat, n: nat, k: nat)
    requires IsRun(states, steps) && m <= n < |steps| && steps[m].Resume? && steps[n].Resume?
    requires steps[m].r < |states[m].requests| && states[m].requests[steps[m].r].stage == Waiting(k)
    requires steps[n].r < |states[n].requests| && states[n].requests[steps[n].r].stage == Waiting(k)
    ensures k in states[m].landed
    ensures ResumedWith(states[m + 1], steps[m].r, states[m].landed[k])
    ensures ResumedWith(states[n + 1], steps[n].r, states[m].landed[k])
  {
    assert StepFrom(states, steps, m) && StepFrom(states, steps, n);
    ResultsAreFixed(states, steps, m, n, k);
  }

  /** Every request goes out at most twice and waits for at most one refresh call. */
  lemma AtMostTwice(states: seq<State>, steps: seq<Step>, n: nat, r: nat)
    requires IsRun(states, steps) && n <= |steps| && r < |states[n].requests|
    ensures states[n].requests[r].sends <= 2 && states[n].requests[r].joined <= 1
  {
    RunIsSound(states, steps, n);
    assert RequestAt(states[n], r);
  }

  lemma {:induction false} SettledCostsNothing(requests: seq<Request>)
    requires Costs(requests) == 0
    ensures forall r | 0 <= r < |requests| :: requests[r].stage.Answered? || requests[r].stage.Rejected?
  {
    if requests != [] {
      SettledCostsNothing(requests[..|requests| - 1]);
    }
  }

  lemma {:induction false} SomeoneCosts(requests: seq<Request>)
    requires Costs(requests) > 0
    ensures exists r :: 0 <= r < |requests| && !requests[r].stage.Answered? && !requests[r].stage.Rejected?
  {
    var n := |requests| - 1;
    if Cost(requests[n]) == 0 {
      SomeoneCosts(requests[..n]);
      var r :| 0 <= r < n && !requests[..n][r].stage.Answered? && !requests[..n][r].stage.Rejected?;
      assert !requests[r].stage.Answered? && !requests[r].stage.Rejected?;
    }
  }

  /** Some step that needs nothing from the application, with a response or refresh result of any kind. */
  ghost predicate CanGoOn(s: State) {
    exists e :: Internal(e) && Enabled(s, e)
  }

  /**
   Termination: n requests cause at most 7 n interceptor steps, and while any request is unsettled
   such a step can be taken, so every request is answered or rejected in the end.
   */
  lemma EveryRequestSettles(states: seq<State>, steps: seq<Step>)
    requires IsRun(states, steps)
    ensures var s := states[|steps|];
            && CountInternal(steps) <= 7 * |s.requests|
            && (!CanGoOn(s) ==> forall r | 0 <= r < |s.requests| ::
                 s.requests[r].stage.Answered? || s.requests[r].stage.Rejected?)
  {
    var s := states[|steps|];
    RunIsSound(states, steps, |steps|);
    assert steps[..|steps|] == steps;
    if Costs(s.requests) == 0 {
      SettledCostsNothing(s.requests);
    } else {
      SomeoneCosts(s.requests);
      var r: nat :| r < |s.requests| && !s.requests[r].stage.Answered? && !s.requests[r].stage.Rejected?;
      UnsettledGoesOn(s, r);
    }
  }

  lemma UnsettledGoesOn(s: State, r: nat)
    requires Sound(s) && r < |s.requests| && !s.requests[r].stage.Answered? && !s.requests[r].stage.Rejected?
    ensures CanGoOn(s)
  {
    assert RequestAt(s, r);
    match s.requests[r].stage
    case Leaving =>
      assert Enabled(s, Transmit(r)) && Internal(Transmit(r));
    case Sent =>
      assert Enabled(s, Reply(r, 200));
    case Waiting(k) =>
      assert CallInOrder(s, k);
      assert k !in s.landed ==> Enabled(s, Land(k, Refused));
      assert k in s.landed && k !in s.cleared ==> Enabled(s, Clear(k));
      assert k in s.cleared ==> Enabled(s, Resume(r));
      assert Internal(Land(k, Refused)) && Internal(Clear(k)) && Internal(Resume(r));
  }

  // ---------------------------------------------------------------- the auth store

  /** Once nobody is signed in, only a login changes that: a refresh completing later does not. */
  lemma {:induction false} SignedOutStays(states: seq<State>, steps: seq<Step>, m: nat, n: nat)
    requires IsRun(states, steps) && m <= n <= |steps|
    requires states[m].user.None?
    requires forall i | m <= i < n :: !steps[i].Login?
    ensures states[n].user.None?
  {
    if m < n {
      SignedOutStays(states, steps, m, n - 1);
      assert StepFrom(states, steps, n - 1);
    }
  }

  /** Between logins and logouts the signed-in user stays the same but for the token. */
  lemma {:induction false} IdentityStays(states: seq<State>, steps: seq<Step>, m: nat, n: nat)
    requires IsRun(states, steps) && m <= n <= |steps|
    requires states[m].user.Some? && states[n].user.Some?
    requires forall i | m <= i < n :: !steps[i].Login?
    ensures states[n].user.value.(accessToken := "") == states[m].user.value.(accessToken := "")
  {
    if m < n {
      assert StepFrom(states, steps, n - 1);
      assert states[n - 1].user.Some?;
      IdentityStays(states, steps, m, n - 1);
    }
  }
}
