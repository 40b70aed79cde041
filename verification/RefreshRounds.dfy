/**
 The browser's single-flight refresh, as a machine over its promises: requests that fail with 401 join the running
 refresh round or start one, a round settles once, and its joiners resume later, one by one, in any order.
 */
module RefreshRounds {
  import opened Prelude

  /** The white space that `String.prototype.trim` removes. */
  predicate IsTrimmed(c: char) {
    '\t' <= c <= '\r' || '\U{2000}' <= c <= '\U{200A}' ||
    c in {' ', '\U{A0}', '\U{1680}', '\U{2028}', '\U{2029}', '\U{202F}', '\U{205F}', '\U{3000}', '\U{FEFF}'}
  }

  function Trim(s: string): (r: string)
    ensures r != "" ==> !IsTrimmed(r[0]) && !IsTrimmed(r[|r| - 1])
    ensures r == "" <==> forall i :: 0 <= i < |s| ==> IsTrimmed(s[i])
    decreases |s|
  {
    if s == "" then ""
    else if IsTrimmed(s[0]) then
      assert s == [s[0]] + s[1..];
      Trim(s[1..])
    else if IsTrimmed(s[|s| - 1]) then
      Trim(s[..|s| - 1])
    else s
  }

  predicate AllTrimmed(s: string) {
    forall i :: 0 <= i < |s| ==> IsTrimmed(s[i])
  }

  lemma InFront(c: char, a: string, t: string, b: string)
    requires IsTrimmed(c) && AllTrimmed(a)
    ensures AllTrimmed([c] + a) && [c] + (a + t + b) == ([c] + a) + t + b
  {
  }

  lemma Behind(a: string, t: string, b: string, c: char)
    requires IsTrimmed(c) && AllTrimmed(b)
    ensures AllTrimmed(b + [c]) && (a + t + b) + [c] == a + t + (b + [c])
  {
  }

  /** Trimming leaves what lies between the white space at both ends. */
  lemma {:induction false} TrimCuts(s: string) returns (a: string, b: string)
    ensures s == a + Trim(s) + b && AllTrimmed(a) && AllTrimmed(b)
    decreases |s|
  {
    a, b := "", "";
    if s != "" && IsTrimmed(s[0]) {
      a, b := TrimCuts(s[1..]);
      InFront(s[0], a, Trim(s[1..]), b);
      a := [s[0]] + a;
      assert s == [s[0]] + s[1..];
    } else if s != "" && IsTrimmed(s[|s| - 1]) {
      a, b := TrimCuts(s[..|s| - 1]);
      Behind(a, Trim(s[..|s| - 1]), b, s[|s| - 1]);
      b := b + [s[|s| - 1]];
      assert s == s[..|s| - 1] + [s[|s| - 1]];
    }
  }

  /** A token: not empty, and without white space at its ends. */
  predicate IsToken(t: string) {
    t != "" && !IsTrimmed(t[0]) && !IsTrimmed(t[|t| - 1])
  }

  /** A round's promise. `None` is a rejection. */
  datatype Round = Pending | Settled(result: Option<string>)

  datatype Request =
    | Sent
    | Waiting(round: nat)
    | Retried(round: nat, token: string)
    | Done(joined: Option<nat>, retried: bool, ok: bool)

  datatype State = State(
    activeRefresh: Option<nat>,
    rounds: seq<Round>,
    accessToken: Option<string>,
    handlerSet: bool,
    requests: map<nat, Request>)

  const START := State(None, [], None, false, map[])

  /** A failed response, as the interceptor sees it. */
  datatype Failure = Failure(unauthorized: bool, hasConfig: bool, isRefresh: bool)

  datatype Event =
    | Send(who: nat)
    | Succeed(who: nat)
    | Fail(who: nat, failure: Failure, throwsAtOnce: bool)
    | Settle(round: nat, answer: Option<string>)
    | Resume(who: nat)
    | RetryEnds(who: nat, ok: bool)
    | SetToken(token: Option<string>)
    | Configure(handlerSet: bool)

  /** Whether a failure makes its request join a refresh. */
  predicate Refreshable(s: State, f: Failure) {
    f.unauthorized && f.hasConfig && s.accessToken.Some? && s.handlerSet && !f.isRefresh
  }

  /** What a settled handler makes of its round: blank tokens reject it. */
  function Outcome(answer: Option<string>): Option<string> {
    if answer.None? || Trim(answer.value) == "" then None else Some(Trim(answer.value))
  }

  /**
   `RefreshCoordinator.refresh`: join the active round or start one. A handler that throws at once, instead of returning
   a promise that rejects, has run the `finally` clause before the field is set: the field keeps the rejected promise.
   */
  function Join(s: State, throwsAtOnce: bool): (State, nat) {
    if s.activeRefresh.Some? then (s, s.activeRefresh.value)
    else
      (s.(activeRefresh := Some(|s.rounds|), rounds := s.rounds + [if throwsAtOnce then Settled(None) else Pending]),
       |s.rounds|)
  }

  predicate Enabled(s: State, e: Event) {
    match e
    case Send(who) => who !in s.requests
    case Succeed(who) => who in s.requests && s.requests[who].Sent?
    case Fail(who, _, _) => who in s.requests && s.requests[who].Sent?
    case Settle(r, _) => r < |s.rounds| && s.rounds[r].Pending?
    case Resume(who) =>
      && who in s.requests && s.requests[who].Waiting?
      && s.requests[who].round < |s.rounds| && s.rounds[s.requests[who].round].Settled?
    case RetryEnds(who, _) => who in s.requests && s.requests[who].Retried?
    case SetToken(_) => true
    case Configure(_) => true
  }

  function Set(s: State, who: nat, request: Request): State {
    s.(requests := s.requests[who := request])
  }

  function Step(s: State, e: Event): State
    requires Enabled(s, e)
  {
    match e
    case Send(who) => Set(s, who, Sent)
    case Succeed(who) => Set(s, who, Done(None, false, true))
    case Fail(who, failure, throwsAtOnce) =>
      if !Refreshable(s, failure) then Set(s, who, Done(None, false, false))
      else var (s', round) := Join(s, throwsAtOnce); Set(s', who, Waiting(round))
    case Settle(round, answer) => s.(activeRefresh := None, rounds := s.rounds[round := Settled(Outcome(answer))])
    case Resume(who) =>
      var round := s.requests[who].round;
      var result := s.rounds[round].result;
      if result.None? then Set(s.(accessToken := None), who, Done(Some(round), false, false))
      else Set(s.(accessToken := Outcome(result)), who, Retried(round, result.value))
    case RetryEnds(who, ok) => Set(s, who, Done(Some(s.requests[who].round), true, ok))
    case SetToken(token) => s.(accessToken := Outcome(token))
    case Configure(handlerSet) => s.(handlerSet := handlerSet)
  }

  predicate Feasible(s: State, events: seq<Event>)
    decreases |events|
  {
    events == [] || (Enabled(s, events[0]) && Feasible(Step(s, events[0]), events[1..]))
  }

  function Run(s: State, events: seq<Event>): State
    requires Feasible(s, events)
    decreases |events|
  {
    if events == [] then s else Run(Step(s, events[0]), events[1..])
  }

  // ---------------------------------------------------------------- what each event does

  /**
   A failed request joins a refresh exactly when it was answered 401, has a configuration, is not the refresh itself,
   and there are a token and a handler; otherwise it fails and nothing else changes.
   */
  lemma JoinsExactly(s: State, who: nat, f: Failure, throwsAtOnce: bool)
    requires who in s.requests && s.requests[who].Sent?
    ensures var s' := Step(s, Fail(who, f, throwsAtOnce));
      var joins := f.unauthorized && f.hasConfig && !f.isRefresh && s.accessToken.Some? && s.handlerSet;
      && (s'.requests[who].Waiting? <==> joins)
      && (!joins ==> s' == s.(requests := s.requests[who := Done(None, false, false)]))
      && (joins && s.activeRefresh.Some? ==>
            s' == s.(requests := s.requests[who := Waiting(s.activeRefresh.value)]))
      && (joins && s.activeRefresh.None? ==>
            && s'.requests == s.requests[who := Waiting(|s.rounds|)] && s'.activeRefresh == Some(|s.rounds|)
            && s'.rounds == s.rounds + [if throwsAtOnce then Settled(None) else Pending]
            && s'.accessToken == s.accessToken)
  {
  }

  /** A round settles with the token between the white space of the answer, and is rejected when there is none. */
  lemma SettlesWith(s: State, round: nat, answer: Option<string>) returns (a: string, b: string)
    requires round < |s.rounds| && s.rounds[round].Pending?
    ensures var s' := Step(s, Settle(round, answer));
      && s'.activeRefresh == None && s'.requests == s.requests && s'.accessToken == s.accessToken
      && (forall i :: 0 <= i < |s.rounds| && i != round ==> s'.rounds[i] == s.rounds[i])
      && (s'.rounds[round] == Settled(None) <==> answer.None? || AllTrimmed(answer.value))
      && (s'.rounds[round] != Settled(None) ==>
            && s'.rounds[round].Settled? && AllTrimmed(a) && AllTrimmed(b)
            && var token := s'.rounds[round].result.value;
            IsToken(token) && answer.value == a + token + b)
  {
    a, b := "", "";
    if answer.Some? {
      a, b := TrimCuts(answer.value);
    }
  }

  lemma TokensAreTrimmed(t: string)
    requires IsToken(t)
    ensures Trim(t) == t
  {
  }

  /** Every token that a round settled with, and the client's own, is without white space at its ends. */
  predicate TokensClean(s: State) {
    && (s.accessToken.Some? ==> IsToken(s.accessToken.value))
    && forall r :: 0 <= r < |s.rounds| && s.rounds[r].Settled? && s.rounds[r].result.Some? ==>
         IsToken(s.rounds[r].result.value)
  }

  lemma {:induction false} RunKeepsTokensClean(s: State, events: seq<Event>)
    requires TokensClean(s) && Feasible(s, events)
    ensures TokensClean(Run(s, events))
    decreases |events|
  {
    if events != [] {
      RunKeepsTokensClean(Step(s, events[0]), events[1..]);
    }
  }

  /** Whoever waited for a round retries with its token, which becomes the client's; a rejected round logs out. */
  lemma ResumesWith(s: State, who: nat)
    requires TokensClean(s) && Enabled(s, Resume(who))
    ensures var s' := Step(s, Resume(who));
      var round := s.requests[who].round;
      var result := s.rounds[round].result;
      && s'.rounds == s.rounds && s'.activeRefresh == s.activeRefresh
      && s'.accessToken == result
      && s'.requests == s.requests[who := if result.None? then Done(Some(round), false, false)
                                          else Retried(round, result.value)]
  {
    var result := s.rounds[s.requests[who].round].result;
    if result.Some? {
      TokensAreTrimmed(result.value);
    }
  }

  // ---------------------------------------------------------------- one round at a time

  predicate JoinedRight(s: State, who: nat)
    requires who in s.requests
  {
    match s.requests[who]
    case Sent => true
    case Waiting(r) => r < |s.rounds|
    case Retried(r, token) => r < |s.rounds| && s.rounds[r] == Settled(Some(token)) && token != ""
    case Done(None, retried, _) => !retried
    case Done(Some(r), retried, ok) =>
      r < |s.rounds| && s.rounds[r].Settled? && (retried <==> s.rounds[r].result.Some?) && (ok ==> retried)
  }

  /** A round is running exactly when it is the active one. */
  predicate RoundsOk(s: State) {
    && (s.activeRefresh.Some? ==> s.activeRefresh.value < |s.rounds|)
    && (forall r :: 0 <= r < |s.rounds| ==> (s.rounds[r].Pending? <==> s.activeRefresh == Some(r)))
    && (forall r :: 0 <= r < |s.rounds| ==> s.rounds[r] != Settled(Some("")))
  }

  /** ... and everyone who joined a round got its result. */
  predicate Invariant(s: State) {
    RoundsOk(s) && forall who {:trigger JoinedRight(s, who)} :: who in s.requests ==> JoinedRight(s, who)
  }

  predicate Polite(e: Event) {
    e.Fail? ==> !e.throwsAtOnce
  }

  lemma StepKeepsRounds(s: State, e: Event)
    requires RoundsOk(s) && Enabled(s, e) && Polite(e)
    ensures RoundsOk(Step(s, e))
  {
  }

  /** Rounds are only added, and only a running one changes. */
  predicate RoundsGrow(s: State, s': State) {
    |s.rounds| <= |s'.rounds| && forall r :: 0 <= r < |s.rounds| && s.rounds[r].Settled? ==> s'.rounds[r] == s.rounds[r]
  }

  lemma StepGrowsRounds(s: State, e: Event)
    requires Enabled(s, e)
    ensures RoundsGrow(s, Step(s, e))
  {
  }

  lemma JoinedStays(s: State, s': State, who: nat)
    requires who in s.requests && who in s'.requests && s'.requests[who] == s.requests[who]
    requires RoundsGrow(s, s') && JoinedRight(s, who)
    ensures JoinedRight(s', who)
  {
  }

  lemma StepKeepsJoined(s: State, e: Event, who: nat)
    requires RoundsOk(s) && Enabled(s, e) && who in Step(s, e).requests
    requires who in s.requests ==> JoinedRight(s, who)
    ensures JoinedRight(Step(s, e), who)
  {
    var s' := Step(s, e);
    StepGrowsRounds(s, e);
    if who in s.requests && s'.requests[who] == s.requests[who] {
      JoinedStays(s, s', who);
    } else {
      assert e.Send? || e.Succeed? || e.Fail? || e.Resume? || e.RetryEnds?;
      assert e.who == who;
    }
  }

  /** A client that has sent nothing yet, whatever its token and handler. */
  lemma StartHolds(accessToken: Option<string>, handlerSet: bool)
    ensures Invariant(START.(accessToken := accessToken, handlerSet := handlerSet))
  {
  }

  lemma StepKeepsInvariant(s: State, e: Event)
    requires Invariant(s) && Enabled(s, e) && Polite(e)
    ensures Invariant(Step(s, e))
  {
    StepKeepsRounds(s, e);
    forall who | who in Step(s, e).requests ensures JoinedRight(Step(s, e), who) {
      StepKeepsJoined(s, e, who);
    }
  }

  /**
   With handlers that never throw at once: at most one round runs at any time, it is the one new failures join, every
   request that joined a round is retried exactly when that round produced a token, and with that token.
   */
  lemma {:induction false} SingleFlight(s: State, events: seq<Event>, r: nat, q: nat)
    requires Invariant(s) && Feasible(s, events) && forall i :: 0 <= i < |events| ==> Polite(events[i])
    ensures var s' := Run(s, events);
      && Invariant(s')
      && (r < |s'.rounds| && s'.rounds[r].Pending? && q < |s'.rounds| && s'.rounds[q].Pending? ==> r == q)
      && (s'.activeRefresh.None? <==> forall i :: 0 <= i < |s'.rounds| ==> s'.rounds[i].Settled?)
    decreases |events|
  {
    if events != [] {
      StepKeepsInvariant(s, events[0]);
      SingleFlight(Step(s, events[0]), events[1..], r, q);
    } else {
      if s.activeRefresh.Some? { assert s.rounds[s.activeRefresh.value].Pending?; }
    }
  }

  /** What a request may still become. */
  predicate Onward(a: Request, b: Request) {
    match a
    case Sent => true
    case Waiting(r) => a == b || (b.Retried? && b.round == r) || (b.Done? && b.joined == Some(r))
    case Retried(r, token) => a == b || (b.Done? && b.joined == Some(r) && b.retried)
    case Done(_, _, _) => a == b
  }

  /**
   A request never leaves the round it joined, a settled round keeps its result, and a retried request is never retried
   again.
   */
  lemma {:induction false} RoundsAreFinal(s: State, events: seq<Event>, who: nat, r: nat)
    requires Feasible(s, events)
    ensures var s' := Run(s, events);
      && |s.rounds| <= |s'.rounds|
      && (r < |s.rounds| && s.rounds[r].Settled? ==> s'.rounds[r] == s.rounds[r])
      && (who in s.requests ==> who in s'.requests && Onward(s.requests[who], s'.requests[who]))
    decreases |events|
  {
    if events != [] {
      RoundsAreFinal(Step(s, events[0]), events[1..], who, r);
    }
  }

  // ---------------------------------------------------------------- a handler that throws at once

  /** The coordinator holds on to a rejected promise. */
  predicate Stuck(s: State) {
    s.activeRefresh.Some? && s.activeRefresh.value < |s.rounds| && s.rounds[s.activeRefresh.value] == Settled(None) &&
    forall r :: 0 <= r < |s.rounds| ==> s.rounds[r].Settled?
  }

  /**
   From a sound state, one step leaves the coordinator sound or stuck, and stuck exactly when a new round throws at
   once.
   */
  lemma StuckExactly(s: State, e: Event)
    requires Invariant(s) && Enabled(s, e)
    ensures Stuck(Step(s, e)) <==> e.Fail? && e.throwsAtOnce && Refreshable(s, e.failure) && s.activeRefresh.None?
    ensures !Stuck(Step(s, e)) ==> Invariant(Step(s, e))
  {
    if Polite(e) || !Refreshable(s, e.failure) || s.activeRefresh.Some? {
      if e.Fail? {
        assert Step(s, e) == Step(s, e.(throwsAtOnce := false));
        StepKeepsInvariant(s, e.(throwsAtOnce := false));
      } else {
        StepKeepsInvariant(s, e);
      }
    }
  }

  /** A stuck coordinator never starts another round: whatever happens, no request is refreshed again. */
  lemma {:induction false} StuckForEver(s: State, events: seq<Event>)
    requires Stuck(s) && Feasible(s, events)
    ensures var s' := Run(s, events);
      Stuck(s') && s'.rounds == s.rounds && s'.activeRefresh == s.activeRefresh
    decreases |events|
  {
    if events != [] {
      StuckForEver(Step(s, events[0]), events[1..]);
    }
  }
}
