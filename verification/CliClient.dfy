/** The command-line client's session holder. */
module CliClient {
  import opened Prelude

  /** The refresh token is written as its digest; digests do not collide. */
  datatype CliSession = CliSession(accessToken: string, refreshToken: Hash, csrfToken: string)

  /** A reply of the API. Absent, blank or conflicting values are `None`. */
  datatype Response =
    | NoResponse
    | Response(
        status: nat,
        isObject: bool,
        accessToken: Option<string>,
        refreshCookie: Option<Hash>,
        csrfCookie: Option<string>)

  datatype CliResult = Success | NotLoggedIn | AuthenticationError | NetworkError | ApiError | SaveError

  /** Whether a reply carries a usable payload, and otherwise which error it is. */
  function Payload(r: Response): CliResult {
    if r.NoResponse? then NetworkError
    else if r.status in {401, 403} then AuthenticationError
    else if r.status >= 400 then ApiError
    else if r.status != 204 && !r.isObject then ApiError
    else Success
  }

  /** 401 and 403, and nothing else, are authentication errors; a reply is usable below 400, as an object or 204. */
  lemma PayloadExactly(r: Response)
    ensures Payload(r) == AuthenticationError <==> r.Response? && (r.status == 401 || r.status == 403)
    ensures Payload(r) == NetworkError <==> r.NoResponse?
    ensures Payload(r) == Success <==> r.Response? && r.status < 400 && (r.isObject || r.status == 204)
    ensures Payload(r) in {AuthenticationError, NetworkError, Success, ApiError}
  {
  }

  /** The session a successful authentication reply yields: cookies the reply lacks are kept from before. */
  function Adopted(r: Response, previous: Option<CliSession>): Option<CliSession> {
    if r.NoResponse? || r.status == 204 || r.accessToken.None? then None
    else
      var refresh := if r.refreshCookie.Some? then r.refreshCookie
                     else if previous.Some? then Some(previous.value.refreshToken) else None;
      var csrf := if r.csrfCookie.Some? then r.csrfCookie
                  else if previous.Some? then Some(previous.value.csrfToken) else None;
      if refresh.None? || csrf.None? then None
      else Some(CliSession(r.accessToken.value, refresh.value, csrf.value))
  }

  /** The session a client holds after one refresh. */
  function Renewed(held: Option<CliSession>, r: Response): Option<CliSession> {
    if held.None? then None
    else if Payload(r).AuthenticationError? then None
    else if !Payload(r).Success? then held
    else Adopted(r, held)
  }

  /** Writing the session file: it may fail before the new file replaces the old one, or after. */
  datatype Saving = Saves | SaveFails | SavesThenFails

  /** What the file system does: how a save goes, and whether the file can be removed. */
  datatype Disk = Disk(saving: Saving, clears: bool)

  /** Whether a refresh ends in an authentication error, so that the client logs itself out. */
  predicate LogsOut(held: Option<CliSession>, r: Response) {
    held.Some? && (Payload(r).AuthenticationError? || (Payload(r).Success? && Adopted(r, held).None?))
  }

  /** The session file after one refresh. */
  function Filed(file: Option<CliSession>, held: Option<CliSession>, r: Response, disk: Disk): Option<CliSession> {
    if LogsOut(held, r) then (if disk.clears then None else file)
    else if held.None? || !Payload(r).Success? || disk.saving.SaveFails? then file
    else Adopted(r, held)
  }

  /** The session file outlives the client: the next process loads it. */
  class KyrgApiClient {
    var session: Option<CliSession>
    var file: Option<CliSession>

    constructor (stored: Option<CliSession>)
      ensures session == file == stored
    {
      session, file := stored, stored;
    }

    method ClearSession(clears: bool) returns (cleared: bool)
      modifies this
      ensures session == None && file == (if clears then None else old(file)) && cleared == clears
    {
      session := None;
      if clears {
        file := None;
      }
      cleared := clears;
    }

    /** Adopts the reply in memory and then saves it. */
    method StoreAuthentication(r: Response, previous: Option<CliSession>, saving: Saving) returns (result: CliResult)
      requires Payload(r).Success?
      modifies this
      ensures Adopted(r, previous).None? ==>
        result == AuthenticationError && session == old(session) && file == old(file)
      ensures Adopted(r, previous).Some? ==>
        && session == Adopted(r, previous)
        && file == (if saving.SaveFails? then old(file) else session)
        && result == (if saving.Saves? then Success else SaveError)
    {
      if r.status == 204 || r.accessToken.None? {
        return AuthenticationError;
      }
      var refreshToken := r.refreshCookie;
      if refreshToken.None? && previous.Some? {
        refreshToken := Some(previous.value.refreshToken);
      }
      var csrfToken := r.csrfCookie;
      if csrfToken.None? && previous.Some? {
        csrfToken := Some(previous.value.csrfToken);
      }
      if refreshToken.None? || csrfToken.None? {
        return AuthenticationError;
      }
      session := Some(CliSession(r.accessToken.value, refreshToken.value, csrfToken.value));
      if !saving.SaveFails? {
        file := session;
      }
      return if saving.Saves? then Success else SaveError;
    }

    /** Sends the held token and adopts the reply; an authentication error logs the client out. */
    method RefreshSession(r: Response, disk: Disk) returns (result: CliResult)
      modifies this
      ensures session == Renewed(old(session), r)
      ensures file == Filed(old(file), old(session), r, disk)
      ensures result.Success? ==> file == session && session.Some?
      ensures result.AuthenticationError? ==> file == session == None
      ensures result in {NetworkError, ApiError, NotLoggedIn} ==> session == old(session) && file == old(file)
      ensures result.Success? <==>
        old(session).Some? && Payload(r).Success? && Adopted(r, old(session)).Some? && disk.saving.Saves?
      ensures result.NotLoggedIn? <==> old(session).None?
    {
      var previous := session;
      if previous.None? {
        return NotLoggedIn;
      }
      result := Payload(r);
      if result.Success? {
        result := StoreAuthentication(r, previous, disk.saving);
      }
      if result.AuthenticationError? {
        var cleared := ClearSession(disk.clears);
        if !cleared {
          result := SaveError;
        }
      }
    }

    /**
     An authenticated request: an authentication error is answered by one refresh and one retry, never more.
     `first`, `renewal` and `second` are the replies the transport would give.
     */
    method RequestJson(first: Response, renewal: Response, second: Response, disk: Disk)
      returns (result: CliResult, sent: nat, refreshes: nat)
      modifies this
      ensures sent <= 2 && refreshes <= 1 && (sent == 2 ==> refreshes == 1)
      ensures old(session).None? ==>
        result == NotLoggedIn && sent == refreshes == 0 && session == old(session) && file == old(file)
      ensures old(session).Some? && !Payload(first).AuthenticationError? ==>
        result == Payload(first) && sent == 1 && refreshes == 0 && session == old(session) && file == old(file)
      ensures old(session).Some? && Payload(first).AuthenticationError? ==>
        && refreshes == 1 && session == Renewed(old(session), renewal)
        && file == Filed(old(file), old(session), renewal, disk)
        && (sent == 2 ==> result == Payload(second))
        && (sent == 2 <==> Payload(renewal).Success? && Adopted(renewal, old(session)).Some? && disk.saving.Saves?)
    {
      if session.None? {
        return NotLoggedIn, 0, 0;
      }
      result, sent, refreshes := Payload(first), 1, 0;
      if result.AuthenticationError? {
        result := RefreshSession(renewal, disk);
        refreshes := 1;
        if result.Success? {
          result, sent := Payload(second), 2;
        }
      }
    }
  }
}
