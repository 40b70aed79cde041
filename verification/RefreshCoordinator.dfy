/** The API client with its coordinator field and module variables, updated in place between awaits. */
module RefreshCoordinator {
  import opened Prelude
  import opened RefreshRounds

  class Client {
    var activeRefresh: Option<nat>
    var rounds: seq<Round>
    var accessToken: Option<string>
    var refreshHandler: bool
    var requests: map<nat, Request>

    function View(): State
      reads this
    {
      State(activeRefresh, rounds, accessToken, refreshHandler, requests)
    }

    constructor ()
      ensures View() == START
    {
      activeRefresh, rounds, accessToken, refreshHandler, requests := None, [], None, false, map[];
    }

    /** The synchronous part of `refresh`; `throwsAtOnce` says how the handler behaves if it is called. */
    method Refresh(throwsAtOnce: bool) returns (round: nat)
      modifies `activeRefresh, `rounds
      ensures (View(), round) == Join(old(View()), throwsAtOnce)
    {
      if activeRefresh.Some? {
        return activeRefresh.value;
      }
      round := |rounds|;
      if throwsAtOnce {
        activeRefresh := None;
        rounds := rounds + [Settled(None)];
      } else {
        rounds := rounds + [Pending];
      }
      activeRefresh := Some(round);
    }

    /** The `finally` clause, after the handler's promise has settled. */
    method SettleRefresh(round: nat, answer: Option<string>)
      requires Enabled(View(), Settle(round, answer))
      modifies `activeRefresh, `rounds
      ensures View() == Step(old(View()), Settle(round, answer))
    {
      var result := None;
      if answer.Some? {
        var token := Trim(answer.value);
        if token != "" {
          result := Some(token);
        }
      }
      activeRefresh := None;
      rounds := rounds[round := Settled(result)];
    }

    /** `handleResponseFailure` up to its await. */
    method HandleResponseFailure(who: nat, failure: Failure, throwsAtOnce: bool)
      requires Enabled(View(), Fail(who, failure, throwsAtOnce))
      modifies this
      ensures View() == Step(old(View()), Fail(who, failure, throwsAtOnce))
    {
      if !failure.unauthorized || !failure.hasConfig || accessToken.None? || !refreshHandler || failure.isRefresh {
        requests := requests[who := Done(None, false, false)];
        return;
      }
      var round := Refresh(throwsAtOnce);
      requests := requests[who := Waiting(round)];
    }

    /** `handleResponseFailure` from its await to the retried request. */
    method ResumeAfterRefresh(who: nat)
      requires Enabled(View(), Resume(who))
      modifies this
      ensures View() == Step(old(View()), Resume(who))
    {
      var round := requests[who].round;
      match rounds[round].result
      case None =>
        accessToken := None;
        requests := requests[who := Done(Some(round), false, false)];
      case Some(token) =>
        SetApiAccessToken(Some(token));
        requests := requests[who := Retried(round, token)];
    }

    /** The retry goes around the interceptor, so its failure ends the request. */
    method EndRetry(who: nat, ok: bool)
      requires Enabled(View(), RetryEnds(who, ok))
      modifies `requests
      ensures View() == Step(old(View()), RetryEnds(who, ok))
    {
      requests := requests[who := Done(Some(requests[who].round), true, ok)];
    }

    method SetApiAccessToken(token: Option<string>)
      modifies `accessToken
      ensures View() == Step(old(View()), SetToken(token))
    {
      var normalized := if token.Some? then Trim(token.value) else "";
      accessToken := if normalized != "" then Some(normalized) else None;
    }
  }
}
