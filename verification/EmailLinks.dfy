/** The email verification service and its store as the sequential code they are; each call may fail. */
module EmailLinks {
  import opened Prelude
  import opened EmailVerification

  class EmailVerificationService {
    var tokens: Tokens
    var verified: set<nat>

    predicate Valid()
      reads this
    {
      && (forall i :: i in tokens.rows ==> i < tokens.nextId)
      && (forall i, j :: i in tokens.rows && j in tokens.rows && tokens.rows[i].hash == tokens.rows[j].hash ==> i == j)
    }

    ghost function View(): State
      reads this
    {
      State(tokens, verified, map[])
    }

    constructor ()
      ensures Valid() && View() == State(Tokens(map[], 1), {}, map[])
    {
      tokens, verified := Tokens(map[], 1), {};
    }

    method GetTokenByHash(h: Hash) returns (r: Option<nat>)
      requires Valid()
      ensures r == Find(tokens, h)
    {
      if id :| id in tokens.rows && tokens.rows[id].hash == h {
        return Some(id);
      }
      return None;
    }

    /** `UPDATE ... WHERE id = ... AND used_at IS NULL`. */
    method MarkTokenUsed(id: nat, now: Time) returns (ok: bool)
      requires Valid()
      modifies `tokens
      ensures Valid()
      ensures ok <==> id in old(tokens).rows && old(tokens).rows[id].usedAt.None?
      ensures tokens == if ok then Mark(old(tokens), id, now) else old(tokens)
    {
      ok := id in tokens.rows && tokens.rows[id].usedAt.None?;
      if ok {
        tokens := tokens.(rows := tokens.rows[id := tokens.rows[id].(usedAt := Some(now))]);
      }
    }

    /** One bulk UPDATE; the answer counts the rows it changed. */
    method RevokePendingTokensForUser(userId: nat, now: Time) returns (count: nat)
      requires Valid()
      modifies `tokens
      ensures Valid() && tokens == RevokePending(old(tokens), userId, now)
      ensures count == |set id | id in old(tokens).rows && Pending(old(tokens), userId, id)|
    {
      var pending := set id | id in tokens.rows && Pending(tokens, userId, id);
      tokens := tokens.(rows := map id | id in tokens.rows ::
        if id in pending then tokens.rows[id].(usedAt := Some(now)) else tokens.rows[id]);
      assert tokens.rows == RevokePending(old(tokens), userId, now).rows;
      count := |pending|;
    }

    method CreateToken(token: Token) returns (ok: bool)
      requires Valid()
      modifies `tokens
      ensures Valid() && ok == !HashTaken(old(tokens), token.hash)
      ensures tokens == if ok then Insert(old(tokens), token) else old(tokens)
    {
      ok := !HashTaken(tokens, token.hash);
      if ok {
        tokens := Tokens(tokens.rows[tokens.nextId := token], tokens.nextId + 1);
      }
    }

    /**
     `verify_email_token`: look the token up and check it, mark it used, verify its account. Each is a transaction, and
     `faults` says how each of them goes.
     */
    method VerifyEmailToken(presented: Hash, clock: Time, now: Time, faults: (Fault, Fault, Fault)) returns (ok: bool)
      requires Valid()
      modifies this
      ensures Valid()
      ensures var (s', a) := Alone(old(View()), Verifier(presented, Looking), (clock, now, now), faults);
        View() == s' && a.Verifier? && (ok <==> a.stage.Verified?) && (!ok ==> a.stage.Rejected?)
    {
      if !faults.0.NoFault? {
        return false;
      }
      var found := GetTokenByHash(presented);
      if found.None? {
        return false;
      }
      var token := tokens.rows[found.value];
      if token.usedAt.Some? || token.expiresAt <= clock || faults.1.FailsBefore? {
        return false;
      }
      var marked := MarkTokenUsed(found.value, now);
      if !marked || faults.1.FailsAfter? || faults.2.FailsBefore? {
        return false;
      }
      verified := verified + {token.userId};
      return faults.2.NoFault?;
    }

    /** `send_verification_email`: revoke the pending tokens, create a new one, and send the message. */
    method SendVerificationEmail(userId: nat, drawn: Hash, expiresAt: Time, now: Time, faults: (Fault, Fault, Fault))
      returns (ok: bool)
      requires Valid()
      modifies this
      ensures Valid()
      ensures (View(), Sender(userId, drawn, expiresAt, Sent(ok))) ==
        Alone(old(View()), Sender(userId, drawn, expiresAt, Revoking), (now, now, now), faults)
    {
      if faults.0.FailsBefore? {
        return false;
      }
      var _ := RevokePendingTokensForUser(userId, now);
      if faults.0.FailsAfter? || faults.1.FailsBefore? {
        return false;
      }
      ok := CreateToken(Token(userId, drawn, expiresAt, None));
      return ok && faults.1.NoFault? && faults.2.NoFault?;
    }
  }
}
