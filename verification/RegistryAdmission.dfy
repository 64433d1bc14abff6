/** Which configs get into the registry, which stay sound there, and which calls succeed. */
module RegistryAdmission {
  import opened Options
  import opened Registry
  import opened RegistryRuns

  /** What engagement.go asks of a config. */
  predicate SoundChannels(channels: seq<string>) {
    forall ch | ch in channels ::
      && |ch| >= 2 && ch[0] == '#'
      && ' ' !in ch && '\t' !in ch && '\r' !in ch && '\n' !in ch && ',' !in ch
  }

  predicate OpsWithin(cfg: EngagementConfig) { forall ch | ch in cfg.opsChannels :: ch in cfg.channels }

  predicate SoundConfig(cfg: EngagementConfig) {
    && SoundChannels(cfg.channels) && OpsWithin(cfg)
    && (match cfg.messagesPerSecond
        case Finite(r) => r >= 0.0
        case NegInf => false
        case _ => true)
    && cfg.burst >= 0
    && "" !in cfg.respondToTypes
  }

  ghost predicate AllSound(s: State) { forall n | n in s.agents :: SoundConfig(s.agents[n].config) }

  lemma ValidMeansSound(cfg: EngagementConfig)
    ensures ValidConfig(cfg) <==> SoundConfig(cfg)
  {
    forall ch | ch in cfg.channels
      ensures ValidChannel(ch) <==>
              |ch| >= 2 && ch[0] == '#' && ' ' !in ch && '\t' !in ch && '\r' !in ch && '\n' !in ch && ',' !in ch
    {
    }
  }

  /** Sound configs stay sound under every operation, except that new channels may be
      unsound or leave out one of the ops channels, and an Update may store anything. */
  lemma StepKeepsSound(s: State, op: Op)
    requires AllSound(s)
    ensures AllSound(Step(s, op).0) <==>
            && (op.UpdateChannels? && Active(s, op.nick) ==>
                  && SoundChannels(op.channels)
                  && forall ch | ch in s.agents[op.nick].config.opsChannels :: ch in op.channels)
            && (op.Update? && op.nick in s.agents ==> SoundConfig(op.agent.config))
  {
    hide SoundChannels, ValidConfig, Marshals, Provisioned, Expired;
    var s' := Step(s, op).0;
    match op
    case Register(nick, agentType, cfg, pass, create, change, now) => ValidMeansSound(cfg);
    case Adopt(nick, agentType, cfg, now) => ValidMeansSound(cfg);
    case UpdateChannels(nick, channels) =>
      if Active(s, nick) {
        assert SoundConfig(s.agents[nick].config);
        assert s'.agents[nick].config.channels == channels;
      }
    case Update(nick, agent) =>
      if nick in s.agents {
        assert s'.agents[nick] == agent;
      }
    case _ =>
  }

  ghost predicate HasPart(text: string, part: string) { exists a, b :: text == a + part + b }

  lemma ContainsMeans(text: string, part: string)
    ensures Contains(text, part) <==> HasPart(text, part)
  {
    if Contains(text, part) {
      var i :| 0 <= i <= |text| && part <= text[i..];
      assert text == text[..i] + part + text[i + |part|..];
    }
    if HasPart(text, part) {
      var a, b :| text == a + part + b;
      assert text[|a|..] == part + b;
    }
  }

  /** Exactly when each call succeeds. */
  lemma SucceedsExactly(s: State, op: Op)
    ensures
      !Step(s, op).1.Failed? <==>
      match op
      case Register(nick, _, cfg, _, create, change, _) =>
        && SoundConfig(cfg) && cfg.messagesPerSecond.Finite?
        && (cfg.temperature.Some? ==> cfg.temperature.value.Finite?)
        && (nick in s.agents ==> s.agents[nick].revoked)
        && (create == Accepted
            || (create.Refused? && HasPart(create.error, "ACCOUNT_EXISTS") && change == Accepted))
      case Adopt(nick, _, cfg, _) =>
        && SoundConfig(cfg) && cfg.messagesPerSecond.Finite?
        && (cfg.temperature.Some? ==> cfg.temperature.value.Finite?)
        && (nick in s.agents ==> s.agents[nick].revoked)
      case Rotate(nick, _, change) => nick in s.agents && !s.agents[nick].revoked && change == Accepted
      case Revoke(nick, _, change) => nick in s.agents && !s.agents[nick].revoked && change == Accepted
      case Delete(nick, _, change) => nick in s.agents && (s.agents[nick].revoked || change == Accepted)
      case UpdateChannels(nick, _) => nick in s.agents && !s.agents[nick].revoked
      case Update(nick, _) => nick in s.agents
      case _ => true
  {
    if op.Register? || op.Adopt? {
      ValidMeansSound(op.cfg);
    }
    if op.Register? && op.create.Refused? {
      ContainsMeans(op.create.error, "ACCOUNT_EXISTS");
    }
    hide ValidConfig, SoundConfig, Contains, HasPart, Save;
  }

  /** What each operation leaves alone: rotating an account changes no agent and no row; only
      a registration, rotation, revocation or deletion sets a passphrase, only that of its
      nick, and to the one it was given; and listing writes no row. */
  lemma LeavesAlone(s: State, op: Op)
    ensures
      var s' := Step(s, op).0;
      && (op.Rotate? ==> s'.agents == s.agents && s'.rows == s.rows)
      && (op.List? ==> s'.rows == s.rows && s'.agents.Keys == s.agents.Keys)
      && (s'.accounts != s.accounts ==>
            && (op.Register? || op.Rotate? || op.Revoke? || op.Delete?)
            && s'.accounts == s.accounts[op.nick := op.pass])
  {
    hide ValidConfig, Marshals, Provisioned, Gone, Listed;
  }

  /** An adopted agent comes back from a reload as it was adopted, and its account is the
      one it had, over any operations on other nicks. */
  lemma AdoptionSurvives(s: State, op: Op, ops: seq<Op>)
    requires op.Adopt? && Step(s, op).1 == Done && NobodyActs(ops, op.nick)
    ensures
      var s' := Run(Step(s, op).0, ops);
      && op.nick in s'.agents && s'.agents[op.nick].config == op.cfg && !s'.agents[op.nick].revoked
      && (op.nick in s'.accounts <==> op.nick in s.accounts)
      && (op.nick in s.accounts ==> s'.accounts[op.nick] == s.accounts[op.nick])
      && op.nick in s'.rows && s'.rows[op.nick].config.Json?
      && FromRow(s'.rows[op.nick]) == Agent(op.agentType, "", op.cfg.channels, op.cfg.permissions, op.cfg,
                                            [], ToSecond(op.now), false, None, false)
  {
    hide ValidConfig;
    OthersLeaveAlone(Step(s, op).0, ops, op.nick);
    hide Run;
  }
}
