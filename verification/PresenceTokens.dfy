/** The token map as the source fills it: in place, in order, later writes
    over earlier ones. */
module PresenceTokens {
  import opened Option
  import opened Decimal
  import opened GameState
  import opened TemplateRender
  import opened PresenceMap

  class TokenMap {
    var tokens: Data

    constructor ()
      ensures tokens == map[]
    {
      tokens := map[];
    }

    method Put(name: string, text: string)
      modifies this
      ensures tokens == old(tokens)[name := text]
    {
      tokens := tokens[name := text];
    }

    method AddPartyTokens(st: State)
      modifies this
      ensures tokens == PresenceMap.AddPartyTokens(old(tokens), st)
    {
      hide Itoa;
      if st.partySize <= 0 || st.maxPartySize <= 0 {
        return;
      }
      Put("party_size", Itoa(st.partySize));
      Put("max_party_size", Itoa(st.maxPartySize));
      Put("party", "(" + Itoa(st.partySize) + "/" + Itoa(st.maxPartySize) + ")");
    }

    method AddScoreTokens(st: State, showKills: bool)
      modifies this
      ensures tokens == PresenceMap.AddScoreTokens(old(tokens), st, showKills)
    {
      hide Itoa, PluralKills;
      if st.gameScoreType == "Points" && st.queueId == "deathmatch" {
        if !showKills {
          return;
        }
        Put("kills", PluralKills(st.scoreAlly));
        Put("score", PluralKills(st.scoreAlly));
        Put("score_ally", Itoa(st.scoreAlly));
        Put("score_enemy", Itoa(st.scoreEnemy));
        return;
      }
      Put("score_ally", Itoa(st.scoreAlly));
      Put("score_enemy", Itoa(st.scoreEnemy));
      Put("score", Itoa(st.scoreAlly) + "-" + Itoa(st.scoreEnemy));
    }

    method AddPlayerTokens(env: Env, st: State, cfg: Config)
      requires tokens == map[]
      modifies this
      ensures tokens == PlayerTokens(env, st, cfg)
    {
      hide Itoa, RiotId, PhaseOf;
      Put("riot_id", RiotId(st));
      if st.accountLevel > 0 {
        Put("account_level", Itoa(st.accountLevel));
      }
      Put("availability", "Online");
      if st.isIdle {
        Put("availability", "Away");
        Put("idle", "Idle");
      }
      var tier, agent := env.cat.tier(st.competitiveTier), env.cat.agent(st.agentId);
      if cfg.showRank && tier.Some? && PhaseOf(env.casing, st) != InClient {
        Put("rank", tier.value.name);
      }
      if agent.Some? {
        Put("agent", agent.value.name);
      }
    }

    method AddPlaceTokens(env: Env, st: State)
      modifies this
      ensures tokens == PresenceMap.AddPlaceTokens(old(tokens), env, st)
    {
      hide IsCustomGame, IsRange;
      var world := env.cat.world(st.mapId);
      Put("mode", env.cat.queueName(st.queueId));
      if IsCustomGame(env.casing, st) {
        Put("mode", CUSTOM_LABEL);
        world := None;
      }
      if world.Some? {
        Put("map", world.value);
      }
      if IsRange(env.casing, st) {
        Put("map", RANGE_LABEL);
        Put("mode", RANGE_LABEL);
      }
    }

    /** Every token ends up standing for its value, unset ones for nothing. */
    method Fill(env: Env, st: State, cfg: Config)
      requires tokens == map[]
      modifies this
      ensures tokens == Tokens(env, st, cfg)
      ensures forall n :: Lookup(tokens, n) == TokenValue(env, st, cfg, n)
    {
      hide PlayerTokens, PresenceMap.AddPlaceTokens, PresenceMap.AddPartyTokens, PresenceMap.AddScoreTokens,
        TokenValue, Lookup, PhaseOf, IsRange;
      AddPlayerTokens(env, st, cfg);
      AddPlaceTokens(env, st);
      AddPartyTokens(st);
      if PhaseOf(env.casing, st) == InMatch && cfg.showStats && !IsRange(env.casing, st) {
        AddScoreTokens(st, cfg.showKills);
      }
      forall n
        ensures Lookup(tokens, n) == TokenValue(env, st, cfg, n)
      {
        TokensAreTokenValues(env, st, cfg, n);
      }
    }
  }
}
