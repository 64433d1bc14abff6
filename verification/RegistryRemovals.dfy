/** How agents leave the registry: deleted, revoked or reaped. */
module RegistryRemovals {
  import opened Options
  import opened Registry
  import opened RegistryRuns

  // ----- Deleting -----

  /** No operation registers or adopts the nick. */
  predicate NobodyAdds(ops: seq<Op>, nick: string) {
    forall i | 0 <= i < |ops| :: (ops[i].Register? || ops[i].Adopt?) ==> ops[i].nick != nick
  }

  lemma AbsentStays(s: State, op: Op, nick: string)
    requires nick !in s.agents && nick !in s.rows
    requires (op.Register? || op.Adopt?) ==> op.nick != nick
    ensures nick !in Step(s, op).0.agents && nick !in Step(s, op).0.rows
  {
    hide ValidConfig, Marshals, Provisioned, Expired;
  }

  lemma {:induction false} AbsentOver(s: State, ops: seq<Op>, nick: string)
    requires nick !in s.agents && nick !in s.rows && NobodyAdds(ops, nick)
    ensures nick !in Run(s, ops).agents && nick !in Run(s, ops).rows
    decreases |ops|
  {
    if ops != [] {
      AbsentStays(s, ops[0], nick);
      assert forall i | 0 <= i < |ops| - 1 :: ops[1..][i] == ops[i + 1];
      AbsentOver(Step(s, ops[0]).0, ops[1..], nick);
    }
  }

  /** A delete succeeds if and only if the agent is registered and, unless it was revoked
      before, the account server accepts the lockout. Then the nick is gone from memory and
      database, stays gone whatever happens until it is registered or adopted again, and a
      reload does not bring it back; every other agent is as it was. */
  lemma DeleteRemoves(s: State, nick: string, pass: string, change: Reply, ops: seq<Op>)
    requires NobodyAdds(ops, nick)
    ensures
      var (s', r) := Step(s, Delete(nick, pass, change));
      && (r == Done <==> nick in s.agents && (s.agents[nick].revoked || change == Accepted))
      && (r == Done ==>
            && nick !in Run(s', ops).agents && nick !in Run(s', ops).rows
            && nick !in Reloaded(Run(s', ops).rows)
            && s'.agents == s.agents - {nick} && s'.rows == s.rows - {nick}
            && s'.accounts == if s.agents[nick].revoked then s.accounts else s.accounts[nick := pass])
      && (r != Done ==> s' == s)
  {
    var (s', r) := Step(s, Delete(nick, pass, change));
    if r == Done {
      AbsentOver(s', ops, nick);
    }
  }

  // ----- Revoking -----

  /** A revoke succeeds if and only if the agent is active and the account server accepts
      the lockout. Then the agent stays listed, revoked and otherwise as it was, over any
      operations on other nicks and after a reload. */
  lemma RevokeKeepsListed(s: State, nick: string, pass: string, change: Reply, ops: seq<Op>)
    requires NobodyActs(ops, nick)
    ensures
      var (s', r) := Step(s, Revoke(nick, pass, change));
      var s2 := Run(s', ops);
      && (r == Done <==> nick in s.agents && !s.agents[nick].revoked && change == Accepted)
      && (r == Done ==>
            var a := s.agents[nick].(revoked := true);
            && nick in s2.agents && s2.agents[nick] == a
            && nick in s2.accounts && s2.accounts[nick] == pass
            && nick in s2.rows && s2.rows[nick].revoked
            && (Marshals(a.config) ==>
                  && nick in Reloaded(s2.rows)
                  && Reloaded(s2.rows)[nick].revoked && Reloaded(s2.rows)[nick].config == a.config)
            && s'.agents == s.agents[nick := a] && s'.rows.Keys == s.rows.Keys + {nick}
            && (forall n | n in s.rows && n != nick :: s'.rows[n] == s.rows[n]))
      && (r != Done ==> s' == s)
  {
    OthersLeaveAlone(Step(s, Revoke(nick, pass, change)).0, ops, nick);
    hide Run;
  }

  // ----- Reaping -----

  /** When the agent was last seen, or else created. */
  function LastSign(a: Agent): int { if a.lastSeen.Some? then a.lastSeen.value else a.createdAt }

  /** A listing marks online exactly who was seen less than the timeout ago, and a reap
      after it drops exactly who was not marked and gave no sign for longer than the age,
      with the row and never the account, whatever was done to others in between. */
  lemma ReapedAfterList(s: State, nick: string, now: int, timeout: int, ops: seq<Op>, maxAge: int, later: int)
    requires nick in s.agents && nick in s.rows && maxAge > 0 && NobodyActs(ops, nick)
    ensures
      var a := s.agents[nick];
      var s1 := Step(s, List(now, timeout)).0;
      var s2 := Run(s1, ops);
      var s3 := Step(s2, Reap(maxAge, later)).0;
      var online := a.lastSeen.Some? && now - a.lastSeen.value < timeout;
      && nick in s1.agents && s1.agents[nick] == a.(online := online)
      && (nick !in s3.agents <==> !online && later - LastSign(a) > maxAge)
      && (nick in s3.rows <==> nick in s3.agents)
      && (nick in s3.agents ==> s3.agents[nick] == a.(online := online))
      && s3.accounts == s2.accounts
  {
    var s1 := Step(s, List(now, timeout)).0;
    OthersLeaveAlone(s1, ops, nick);
    hide Run;
  }

  /** So with a timeout no longer than the age, and both at one time, a reap drops exactly
      who gave no sign for longer than the age. */
  lemma ReapedExactly(s: State, nick: string, now: int, timeout: int, maxAge: int)
    requires nick in s.agents && nick in s.rows && 0 < timeout <= maxAge
    ensures
      var s' := Step(Step(s, List(now, timeout)).0, Reap(maxAge, now)).0;
      nick !in s'.agents <==> now - LastSign(s.agents[nick]) > maxAge
  {
    ReapedAfterList(s, nick, now, timeout, [], maxAge, now);
    hide Step;
    assert Run(Step(s, List(now, timeout)).0, []) == Step(s, List(now, timeout)).0;
  }

  /** An agent marked online is not reaped, however long ago it was seen, as long as nobody
      lists the agents again. */
  lemma {:induction false} OnlineIsNotReaped(s: State, nick: string, reaps: seq<Op>)
    requires nick in s.agents && s.agents[nick].online && forall i | 0 <= i < |reaps| :: reaps[i].Reap?
    ensures nick in Run(s, reaps).agents && Run(s, reaps).agents[nick] == s.agents[nick]
    decreases |reaps|
  {
    if reaps != [] {
      assert forall i | 0 <= i < |reaps| - 1 :: reaps[1..][i] == reaps[i + 1];
      OnlineIsNotReaped(Step(s, reaps[0]).0, nick, reaps[1..]);
    }
  }
}
