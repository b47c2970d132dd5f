/** From a player state to the Discord payload: one resolved view, six
    builders, two rendered lines. */
module PresenceMap {
  import opened Option
  import opened Decimal
  import opened GameState
  import opened TemplateCleanup
  import opened TemplateRender

  datatype Rpc = Rpc(
    largeImage: string, largeText: string, smallImage: string, smallText: string,
    details: string, state: string, start: int)

  // --------------------------------------------------------------- constants

  const RANGE_LABEL := "The Range"
  const CUSTOM_LABEL := "Custom game"
  const LOGO_URL := "https://github.com/Its-Haze/valorant-rpc/blob/main/assets/valorant-logo.png?raw=true"
  const LOGO_BORDERLESS_URL :=
    "https://github.com/Its-Haze/valorant-rpc/blob/main/assets/valorant-logo-borderless.png?raw=true"
  const LOGO_IDLE_URL := "https://github.com/Its-Haze/valorant-rpc/blob/main/assets/valorant-logo-idle.png?raw=true"

  const COMMON_TOKENS: set<string> := {"riot_id", "account_level", "rank", "availability", "idle"}
  const PARTY_TOKENS: set<string> := {"party", "party_size", "max_party_size"}
  const SCORE_TOKENS: set<string> := {"score", "score_ally", "score_enemy", "kills"}
  const MID := " \U{00B7} "

  function ContextKey(p: Phase): string {
    match p
    case InClient => "in-client"
    case InLobby => "in-lobby"
    case InQueue => "in-queue"
    case CustomGame => "custom-game"
    case AgentSelect => "agent-select"
    case InMatch => "in-match"
  }

  /** Each phase's vocabulary and built-in lines. */
  function ContextOf(p: Phase): Context {
    var common := {"mode"} + PARTY_TOKENS + COMMON_TOKENS;
    match p
    case InClient => Context(common - {"rank"}, Token("availability"), "In client")
    case InLobby => Context(common, Token("mode"), "In lobby" + MID + Token("party") + MID + Token("idle"))
    case InQueue => Context(common, Token("mode"), "In queue" + MID + Token("party") + MID + Token("idle"))
    case CustomGame => Context(common, Token("mode"), "In lobby" + MID + Token("party") + MID + Token("idle"))
    case AgentSelect =>
      Context(common + {"map"}, Token("mode") + MID + Token("map"), "Agent select" + MID + Token("party"))
    case InMatch =>
      Context(common + SCORE_TOKENS + {"map", "agent"}, Token("mode"), "In a match" + MID + Token("score"))
  }

  // -------------------------------------------------------------- resolution

  datatype View = View(
    st: State, cfg: Config, tokens: Data,
    card: Option<string>, agent: Option<Agent>, tier: Option<Tier>)

  function RiotId(st: State): string {
    if st.riotId != "" && st.tagline != "" then st.riotId + "#" + st.tagline else st.riotId
  }

  function AddPartyTokens(tokens: Data, st: State): Data {
    if st.partySize <= 0 || st.maxPartySize <= 0 then tokens
    else
      tokens["party_size" := Itoa(st.partySize)]
            ["max_party_size" := Itoa(st.maxPartySize)]
            ["party" := "(" + Itoa(st.partySize) + "/" + Itoa(st.maxPartySize) + ")"]
  }

  function PluralKills(kills: int): string {
    if kills == 1 then "1 kill" else Itoa(kills) + " kills"
  }

  predicate IsDeathmatch(st: State) {
    st.gameScoreType == "Points" && st.queueId == "deathmatch"
  }

  /** Where a score is current: the one in the state is stale outside a match
      and meaningless in the range. */
  predicate InScoredMatch(env: Env, st: State, cfg: Config) {
    PhaseOf(env.casing, st) == InMatch && cfg.showStats && !IsRange(env.casing, st)
  }

  function AddScoreTokens(tokens: Data, st: State, showKills: bool): Data {
    if IsDeathmatch(st) then
      if !showKills then tokens
      else
        tokens["kills" := PluralKills(st.scoreAlly)]
              ["score" := PluralKills(st.scoreAlly)]
              ["score_ally" := Itoa(st.scoreAlly)]
              ["score_enemy" := Itoa(st.scoreEnemy)]
    else
      tokens["score_ally" := Itoa(st.scoreAlly)]
            ["score_enemy" := Itoa(st.scoreEnemy)]
            ["score" := Itoa(st.scoreAlly) + "-" + Itoa(st.scoreEnemy)]
  }

  /** Who the player is. */
  function PlayerTokens(env: Env, st: State, cfg: Config): Data {
    var tier, agent := env.cat.tier(st.competitiveTier), env.cat.agent(st.agentId);
    var t: Data := map["riot_id" := RiotId(st)];
    var t := if st.accountLevel > 0 then t["account_level" := Itoa(st.accountLevel)] else t;
    var t := t["availability" := "Online"];
    var t := if st.isIdle then t["availability" := "Away"]["idle" := "Idle"] else t;
    var t := if cfg.showRank && tier.Some? && PhaseOf(env.casing, st) != InClient
      then t["rank" := tier.value.name] else t;
    if agent.Some? then t["agent" := agent.value.name] else t
  }

  /** What is being played and where. A custom game replaces the mode and
      withholds the map; the range replaces both. */
  function AddPlaceTokens(tokens: Data, env: Env, st: State): Data {
    var custom := IsCustomGame(env.casing, st);
    var world := if custom then None else env.cat.world(st.mapId);
    var t := tokens["mode" := env.cat.queueName(st.queueId)];
    var t := if custom then t["mode" := CUSTOM_LABEL] else t;
    var t := if world.Some? then t["map" := world.value] else t;
    if IsRange(env.casing, st) then t["map" := RANGE_LABEL]["mode" := RANGE_LABEL] else t
  }

  function Tokens(env: Env, st: State, cfg: Config): Data {
    var t := AddPartyTokens(AddPlaceTokens(PlayerTokens(env, st, cfg), env, st), st);
    if InScoredMatch(env, st, cfg) then AddScoreTokens(t, st, cfg.showKills) else t
  }

  function Resolve(env: Env, st: State, cfg: Config): View {
    View(st, cfg, Tokens(env, st, cfg), env.cat.card(st.playerCardId),
         env.cat.agent(st.agentId), env.cat.tier(st.competitiveTier))
  }

  // ---------------------------------------------------------------- builders

  function CardImage(v: View): string {
    if v.card.Some? && v.card.value != "" then v.card.value else LOGO_URL
  }

  predicate IsRanked(env: Env, st: State) {
    && PhaseOf(env.casing, st) != InClient
    && st.queueId == "competitive"
    && !IsCustomGame(env.casing, st)
  }

  function SmallIcon(env: Env, v: View): (string, string) {
    if v.st.isIdle then (LOGO_IDLE_URL, env.smallText)
    else if v.cfg.showRank && v.tier.Some? && IsRanked(env, v.st) then (v.tier.value.largeIcon, v.tier.value.name)
    else (LOGO_BORDERLESS_URL, env.smallText)
  }

  /** The main art with the text behind it. */
  function LargeArt(env: Env, phase: Phase, v: View): (string, string) {
    if phase == InMatch && v.agent.Some? && v.cfg.matchImage != "card" then
      (v.agent.value.icon, v.agent.value.name)
    else if phase == InMatch && IsRange(env.casing, v.st) then
      (CardImage(v), RANGE_LABEL)
    else
      (CardImage(v), Lookup(v.tokens, "riot_id"))
  }

  function Override(cfg: Config, key: string): TemplatePair {
    if key in cfg.templates then cfg.templates[key] else TemplatePair("", "")
  }

  const SECOND: int := 1_000_000_000

  function MapStateToPresence(env: Env, st: State, cfg: Config): Rpc {
    var v := Resolve(env, st, cfg);
    var phase := PhaseOf(env.casing, st);
    var pair := Override(cfg, ContextKey(phase));
    var lines := RenderedPair(ContextOf(phase), pair.details, pair.state, v.tokens);
    var large, small := LargeArt(env, phase, v), SmallIcon(env, v);
    Rpc(large.0, large.1, small.0, small.1, lines.0, lines.1, st.contextEnteredAt / SECOND)
  }

  /** Idle phases are hidden on request. */
  predicate ShouldClearPresence(env: Env, st: State, cfg: Config) {
    !cfg.showInClient && (PhaseOf(env.casing, st) == InClient || PhaseOf(env.casing, st) == InLobby)
  }

  // --------------------------------------------------------- non-interference

  /** The map reaches a presence in two phases only, and never from a custom
      game or the range. */
  predicate ShowsMap(env: Env, st: State) {
    && PhaseOf(env.casing, st) in {AgentSelect, InMatch}
    && !IsCustomGame(env.casing, st) && !IsRange(env.casing, st)
  }

  /** The score reaches a presence only in a match with rounds or points. */
  predicate ShowsScore(env: Env, st: State, cfg: Config) {
    InScoredMatch(env, st, cfg) && (IsDeathmatch(st) ==> cfg.showKills)
  }

  /** The competitive tier reaches a presence as a rank token or as an emblem. */
  predicate ShowsRank(env: Env, st: State, cfg: Config) {
    cfg.showRank && PhaseOf(env.casing, st) != InClient
  }

  /** The state with everything blanked that its presence may not depend on. */
  function Visible(env: Env, st: State, cfg: Config): State {
    st.(availability := "", leaderboardPosition := 0, partyAccessibility := "", queueEntryTime := 0,
        tagline := if st.riotId == "" then "" else st.tagline,
        agentId := if PhaseOf(env.casing, st) == InMatch then st.agentId else "",
        mapId := if ShowsMap(env, st) then st.mapId else "",
        scoreAlly := if ShowsScore(env, st, cfg) then st.scoreAlly else 0,
        scoreEnemy := if ShowsScore(env, st, cfg) then st.scoreEnemy else 0,
        gameScoreType := if InScoredMatch(env, st, cfg) then st.gameScoreType else "",
        competitiveTier := if ShowsRank(env, st, cfg) then st.competitiveTier else 0)
  }

  /** Two states look the same to every template of phase p. */
  ghost predicate SameTokens(p: Phase, d: Data, e: Data) {
    forall n :: n in ContextOf(p).known ==> Lookup(d, n) == Lookup(e, n)
  }

  /** What each token stands for, one token at a time: the map is filled in
      an order with overwrites, this is what comes out. */
  function TokenValue(env: Env, st: State, cfg: Config, n: string): string {
    var phase := PhaseOf(env.casing, st);
    var custom, range := IsCustomGame(env.casing, st), IsRange(env.casing, st);
    var tier, agent, world := env.cat.tier(st.competitiveTier), env.cat.agent(st.agentId), env.cat.world(st.mapId);
    var party := st.partySize > 0 && st.maxPartySize > 0;
    var score := ShowsScore(env, st, cfg);
    if n == "riot_id" then RiotId(st)
    else if n == "account_level" then if st.accountLevel > 0 then Itoa(st.accountLevel) else ""
    else if n == "availability" then if st.isIdle then "Away" else "Online"
    else if n == "idle" then if st.isIdle then "Idle" else ""
    else if n == "rank" then if ShowsRank(env, st, cfg) && tier.Some? then tier.value.name else ""
    else if n == "agent" then if agent.Some? then agent.value.name else ""
    else if n == "mode" then
      if range then RANGE_LABEL else if custom then CUSTOM_LABEL else env.cat.queueName(st.queueId)
    else if n == "map" then
      if range then RANGE_LABEL else if !custom && world.Some? then world.value else ""
    else if n == "party_size" then if party then Itoa(st.partySize) else ""
    else if n == "max_party_size" then if party then Itoa(st.maxPartySize) else ""
    else if n == "party" then
      if party then "(" + Itoa(st.partySize) + "/" + Itoa(st.maxPartySize) + ")" else ""
    else if n == "kills" then if score && IsDeathmatch(st) then PluralKills(st.scoreAlly) else ""
    else if n == "score_ally" then if score then Itoa(st.scoreAlly) else ""
    else if n == "score_enemy" then if score then Itoa(st.scoreEnemy) else ""
    else if n == "score" then
      if !score then "" else if IsDeathmatch(st) then PluralKills(st.scoreAlly)
      else Itoa(st.scoreAlly) + "-" + Itoa(st.scoreEnemy)
    else ""
  }

  lemma PlayerTokenValues(env: Env, st: State, cfg: Config, n: string)
    ensures Lookup(PlayerTokens(env, st, cfg), n)
         == if n in {"riot_id", "account_level", "availability", "idle", "rank", "agent"}
            then TokenValue(env, st, cfg, n) else ""
  {
    hide Itoa, RiotId, PluralKills, IsCustomGame, IsRange, PhaseOf;
  }

  lemma PlaceTokenValues(env: Env, st: State, cfg: Config, t: Data, n: string)
    requires Lookup(t, "map") == ""
    ensures Lookup(AddPlaceTokens(t, env, st), n)
         == if n in {"mode", "map"} then TokenValue(env, st, cfg, n) else Lookup(t, n)
  {
    hide Itoa, RiotId, PluralKills, IsCustomGame, IsRange, PhaseOf;
  }

  lemma PartyTokenValues(env: Env, st: State, cfg: Config, t: Data, n: string)
    requires n in PARTY_TOKENS ==> Lookup(t, n) == ""
    ensures Lookup(AddPartyTokens(t, st), n)
         == if n in PARTY_TOKENS then TokenValue(env, st, cfg, n) else Lookup(t, n)
  {
    hide Itoa, RiotId, PluralKills, IsCustomGame, IsRange, PhaseOf;
  }

  lemma ScoreTokenValues(env: Env, st: State, cfg: Config, t: Data, n: string)
    requires InScoredMatch(env, st, cfg)
    requires n in SCORE_TOKENS ==> Lookup(t, n) == ""
    ensures Lookup(AddScoreTokens(t, st, cfg.showKills), n)
         == if n in SCORE_TOKENS then TokenValue(env, st, cfg, n) else Lookup(t, n)
  {
    hide Itoa, RiotId, PluralKills, IsCustomGame, IsRange, PhaseOf;
  }

  lemma TokensAreTokenValues(env: Env, st: State, cfg: Config, n: string)
    ensures Lookup(Tokens(env, st, cfg), n) == TokenValue(env, st, cfg, n)
  {
    hide Itoa, RiotId, PluralKills, IsCustomGame, IsRange, PhaseOf, PlayerTokens, AddPlaceTokens,
      AddPartyTokens, AddScoreTokens, IsDeathmatch;
    var t := PlayerTokens(env, st, cfg);
    PlayerTokenValues(env, st, cfg, n);
    PlayerTokenValues(env, st, cfg, "map");
    PlaceTokenValues(env, st, cfg, t, n);
    t := AddPlaceTokens(t, env, st);
    PartyTokenValues(env, st, cfg, t, n);
    t := AddPartyTokens(t, st);
    if InScoredMatch(env, st, cfg) {
      ScoreTokenValues(env, st, cfg, t, n);
    }
  }

  lemma VisibleKeepsPhase(env: Env, st: State, cfg: Config)
    ensures var w := Visible(env, st, cfg);
      && PhaseOf(env.casing, w) == PhaseOf(env.casing, st)
      && IsCustomGame(env.casing, w) == IsCustomGame(env.casing, st)
      && IsRange(env.casing, w) == IsRange(env.casing, st)
  {
  }

  /** The tokens only some phases know. */
  lemma PhaseTokens(p: Phase, n: string)
    requires n in ContextOf(p).known
    ensures n == "agent" ==> p == InMatch
    ensures n == "map" ==> p in {AgentSelect, InMatch}
    ensures n == "rank" ==> p != InClient
  {
  }

  lemma VisibleKeepsTokenValues(env: Env, st: State, cfg: Config, n: string)
    requires n in ContextOf(PhaseOf(env.casing, st)).known
    ensures TokenValue(env, st, cfg, n) == TokenValue(env, Visible(env, st, cfg), cfg, n)
  {
    hide Itoa, PluralKills, IsCustomGame, IsRange, PhaseOf, ContextOf;
    VisibleKeepsPhase(env, st, cfg);
    PhaseTokens(PhaseOf(env.casing, st), n);
  }

  lemma VisibleKeepsTokens(env: Env, st: State, cfg: Config)
    ensures SameTokens(PhaseOf(env.casing, st), Tokens(env, st, cfg),
                       Tokens(env, Visible(env, st, cfg), cfg))
  {
    hide TokenValue, Tokens, PhaseOf, Visible, ContextOf;
    var w := Visible(env, st, cfg);
    forall n | n in ContextOf(PhaseOf(env.casing, st)).known
      ensures Lookup(Tokens(env, st, cfg), n) == Lookup(Tokens(env, w, cfg), n)
    {
      TokensAreTokenValues(env, st, cfg, n);
      TokensAreTokenValues(env, w, cfg, n);
      VisibleKeepsTokenValues(env, st, cfg, n);
    }
  }

  lemma SameTokensRenderAlike(ctx: Context, details: string, state: string, d: Data, e: Data)
    requires forall n :: n in ctx.known ==> Lookup(d, n) == Lookup(e, n)
    ensures RenderedPair(ctx, details, state, d) == RenderedPair(ctx, details, state, e)
  {
    RenderReadsOnly(ctx, Chosen(details, ctx.details), d, e);
    RenderReadsOnly(ctx, Chosen(state, ctx.state), d, e);
  }

  lemma VisibleKeepsArt(env: Env, st: State, cfg: Config)
    ensures var w := Visible(env, st, cfg);
      && LargeArt(env, PhaseOf(env.casing, st), Resolve(env, st, cfg))
         == LargeArt(env, PhaseOf(env.casing, st), Resolve(env, w, cfg))
      && SmallIcon(env, Resolve(env, st, cfg)) == SmallIcon(env, Resolve(env, w, cfg))
  {
    hide IsCustomGame, IsRange, PhaseOf, Tokens;
    var w := Visible(env, st, cfg);
    VisibleKeepsPhase(env, st, cfg);
    TokensAreTokenValues(env, st, cfg, "riot_id");
    TokensAreTokenValues(env, w, cfg, "riot_id");
  }

  /** The payload is a function of the visible part of the state, for every
      settings file, catalogue and user template. */
  lemma PresenceReadsOnlyTheVisible(env: Env, st: State, cfg: Config)
    ensures MapStateToPresence(env, st, cfg) == MapStateToPresence(env, Visible(env, st, cfg), cfg)
  {
    hide PhaseOf, RenderedPair, ContextOf, Tokens, LargeArt, SmallIcon, IsCustomGame, IsRange, ContextKey;
    var w, phase := Visible(env, st, cfg), PhaseOf(env.casing, st);
    var pair := Override(cfg, ContextKey(phase));
    VisibleKeepsPhase(env, st, cfg);
    VisibleKeepsTokens(env, st, cfg);
    VisibleKeepsArt(env, st, cfg);
    SameTokensRenderAlike(ContextOf(phase), pair.details, pair.state,
                          Tokens(env, st, cfg), Tokens(env, w, cfg));
  }

  /** Two states with the same visible part show the same presence. */
  lemma NonInterference(env: Env, a: State, b: State, cfg: Config)
    requires Visible(env, a, cfg) == Visible(env, b, cfg)
    ensures MapStateToPresence(env, a, cfg) == MapStateToPresence(env, b, cfg)
  {
    hide MapStateToPresence, Visible;
    PresenceReadsOnlyTheVisible(env, a, cfg);
    PresenceReadsOnlyTheVisible(env, b, cfg);
  }

  /** Outside a match neither the last score nor the last agent shows. */
  lemma ScoreStaysInTheMatch(env: Env, st: State, cfg: Config, ally: int, enemy: int, kind: string, agent: string)
    requires PhaseOf(env.casing, st) != InMatch
    ensures
      var other := st.(scoreAlly := ally, scoreEnemy := enemy, gameScoreType := kind, agentId := agent);
      MapStateToPresence(env, other, cfg) == MapStateToPresence(env, st, cfg)
  {
    hide MapStateToPresence;
    var other := st.(scoreAlly := ally, scoreEnemy := enemy, gameScoreType := kind, agentId := agent);
    NonInterference(env, other, st, cfg);
  }

  /** Nothing of a custom game's map reaches the payload, in any phase. */
  lemma CustomGameHidesItsMap(env: Env, st: State, cfg: Config, mapId: string)
    requires env.casing.equalFold(st.provisioningFlow, "CustomGame")
      || env.casing.upper(st.partyState) == "CUSTOM_GAME_SETUP"
    ensures MapStateToPresence(env, st.(mapId := mapId), cfg) == MapStateToPresence(env, st, cfg)
  {
    hide MapStateToPresence;
    NonInterference(env, st.(mapId := mapId), st, cfg);
  }

  /** In the client the rank of the preselected queue does not show. */
  lemma ClientHidesTheRank(env: Env, st: State, cfg: Config, tier: int)
    requires PhaseOf(env.casing, st) == InClient
    ensures MapStateToPresence(env, st.(competitiveTier := tier), cfg) == MapStateToPresence(env, st, cfg)
  {
    hide MapStateToPresence;
    NonInterference(env, st.(competitiveTier := tier), st, cfg);
  }

  // ---------------------------------------------------------- the toggles

  /** With the rank hidden, no template and no emblem gives it away. */
  lemma HiddenRankStaysHidden(env: Env, st: State, cfg: Config, tier: int)
    requires !cfg.showRank
    ensures MapStateToPresence(env, st.(competitiveTier := tier), cfg) == MapStateToPresence(env, st, cfg)
  {
    hide MapStateToPresence;
    NonInterference(env, st.(competitiveTier := tier), st, cfg);
  }

  /** With the stats hidden, and in the range whatever the settings, the score
      shows nowhere. */
  lemma HiddenStatsStayHidden(env: Env, st: State, cfg: Config, ally: int, enemy: int, kind: string)
    requires !cfg.showStats || env.casing.equalFold(st.provisioningFlow, "ShootingRange")
    ensures MapStateToPresence(env, st.(scoreAlly := ally, scoreEnemy := enemy, gameScoreType := kind), cfg)
         == MapStateToPresence(env, st, cfg)
  {
    hide MapStateToPresence;
    NonInterference(env, st.(scoreAlly := ally, scoreEnemy := enemy, gameScoreType := kind), st, cfg);
  }

  /** With the kill count hidden, a deathmatch gives no score away. */
  lemma HiddenKillsStayHidden(env: Env, st: State, cfg: Config, ally: int, enemy: int)
    requires !cfg.showKills && st.gameScoreType == "Points" && st.queueId == "deathmatch"
    ensures MapStateToPresence(env, st.(scoreAlly := ally, scoreEnemy := enemy), cfg)
         == MapStateToPresence(env, st, cfg)
  {
    hide MapStateToPresence;
    NonInterference(env, st.(scoreAlly := ally, scoreEnemy := enemy), st, cfg);
  }

  // ------------------------------------------------------------- what shows

  /** The rank emblem is on the payload exactly for an active player with a
      known rank who shows it and chose a competitive queue. */
  lemma EmblemShowsExactly(env: Env, st: State, cfg: Config, tier: Tier)
    requires env.cat.tier(st.competitiveTier) == Some(tier)
    requires tier.largeIcon !in {LOGO_IDLE_URL, LOGO_BORDERLESS_URL}
    ensures MapStateToPresence(env, st, cfg).smallImage == tier.largeIcon <==>
      !st.isIdle && cfg.showRank && PhaseOf(env.casing, st) != InClient
      && st.queueId == "competitive" && !IsCustomGame(env.casing, st)
  {
    hide RenderedPair, PhaseOf, IsCustomGame, Tokens, LargeArt, ContextOf, ContextKey;
  }

  /** The agent is the large image exactly in a match, unless the settings ask
      for the card; everywhere else it is the player's own art. */
  lemma AgentArtShowsExactly(env: Env, st: State, cfg: Config, agent: Agent)
    requires env.cat.agent(st.agentId) == Some(agent)
    requires agent.icon != LOGO_URL && env.cat.card(st.playerCardId) != Some(agent.icon)
    ensures MapStateToPresence(env, st, cfg).largeImage == agent.icon <==>
      PhaseOf(env.casing, st) == InMatch && cfg.matchImage != "card"
  {
    hide RenderedPair, PhaseOf, IsRange, Tokens, SmallIcon, ContextOf, ContextKey;
  }

  /** Every built-in state line starts with a letter of its own. */
  lemma DefaultStateIsAnchored(p: Phase)
    ensures
      var tmpl := ContextOf(p).state;
      tmpl != "" && IsLetter(tmpl[0]) && Lit(tmpl[0]) in Parse(tmpl)
  {
    hide Parse;
    FirstLiteral(ContextOf(p).state);
  }

  /** A presence always reads as something: with the user's state template
      unset, the state line is never empty, whatever is known of the player. */
  lemma DefaultStateNeverVanishes(env: Env, st: State, cfg: Config)
    requires Override(cfg, ContextKey(PhaseOf(env.casing, st))).state == ""
    ensures MapStateToPresence(env, st, cfg).state != ""
  {
    hide Rendered, PhaseOf, ContextOf, ContextKey, Tokens, LargeArt, SmallIcon, Parse;
    var phase := PhaseOf(env.casing, st);
    var ctx := ContextOf(phase);
    DefaultStateIsAnchored(phase);
    AnchorStays(ctx, ctx.state, Tokens(env, st, cfg), ctx.state[0]);
  }

  /** The idle mark is the small image exactly while the player is idle, and
      the app's own mark exactly when neither it nor the emblem is. */
  lemma SmallImageExactly(env: Env, st: State, cfg: Config)
    requires
      var tier := env.cat.tier(st.competitiveTier);
      tier.Some? ==> tier.value.largeIcon !in {LOGO_IDLE_URL, LOGO_BORDERLESS_URL}
    ensures
      var rpc, tier := MapStateToPresence(env, st, cfg), env.cat.tier(st.competitiveTier);
      && (rpc.smallImage == LOGO_IDLE_URL <==> st.isIdle)
      && (rpc.smallImage !in {LOGO_IDLE_URL, LOGO_BORDERLESS_URL} ==>
            tier.Some? && rpc.smallImage == tier.value.largeIcon && rpc.smallText == tier.value.name)
      && (rpc.smallImage in {LOGO_IDLE_URL, LOGO_BORDERLESS_URL} ==> rpc.smallText == env.smallText)
  {
    hide RenderedPair, PhaseOf, IsCustomGame, Tokens, LargeArt, ContextOf, ContextKey;
    assert LOGO_IDLE_URL != LOGO_BORDERLESS_URL by {
      LogosDiffer();
    }
  }

  lemma LogosDiffer()
    ensures LOGO_IDLE_URL != LOGO_BORDERLESS_URL
  {
    assert |LOGO_IDLE_URL| != |LOGO_BORDERLESS_URL|;
  }

  /** Outside a match the large image names the player, tag included once Riot
      has published one, and is their card if they have any. */
  lemma LargeArtIsThePlayers(env: Env, st: State, cfg: Config)
    requires PhaseOf(env.casing, st) != InMatch
    ensures
      var rpc, card := MapStateToPresence(env, st, cfg), env.cat.card(st.playerCardId);
      && rpc.largeText == (if st.riotId != "" && st.tagline != "" then st.riotId + "#" + st.tagline else st.riotId)
      && rpc.largeImage == (if card.Some? && card.value != "" then card.value else LOGO_URL)
  {
    hide RenderedPair, PhaseOf, Tokens, SmallIcon, ContextOf, ContextKey, IsRange;
    TokensAreTokenValues(env, st, cfg, "riot_id");
  }

  /** In the range without agent art the hover text says so. */
  lemma RangeNamesItself(env: Env, st: State, cfg: Config)
    requires PhaseOf(env.casing, st) == InMatch && env.casing.equalFold(st.provisioningFlow, "ShootingRange")
    requires env.cat.agent(st.agentId).None? || cfg.matchImage == "card"
    ensures MapStateToPresence(env, st, cfg).largeText == "The Range"
  {
    hide RenderedPair, PhaseOf, Tokens, SmallIcon, ContextOf, ContextKey;
  }

  /** The elapsed timer counts from the whole second of the phase change. */
  lemma StartIsTheStamp(env: Env, st: State, cfg: Config)
    ensures
      var start := MapStateToPresence(env, st, cfg).start;
      start * 1_000_000_000 <= st.contextEnteredAt < (start + 1) * 1_000_000_000
  {
    hide RenderedPair, PhaseOf, Resolve, LargeArt, SmallIcon, ContextOf, ContextKey;
  }

  /** Who the player is and whom they are with, test by test. */
  lemma PlayerText(env: Env, st: State, cfg: Config)
    ensures
      var d, tier, agent := Tokens(env, st, cfg), env.cat.tier(st.competitiveTier), env.cat.agent(st.agentId);
      var shown := cfg.showRank && PhaseOf(env.casing, st) != InClient;
      var size, max := Itoa(st.partySize), Itoa(st.maxPartySize);
      var party := st.partySize > 0 && st.maxPartySize > 0;
      && Lookup(d, "account_level") == (if st.accountLevel > 0 then Itoa(st.accountLevel) else "")
      && Lookup(d, "availability") == (if st.isIdle then "Away" else "Online")
      && Lookup(d, "idle") == (if st.isIdle then "Idle" else "")
      && Lookup(d, "rank") == (if shown && tier.Some? then tier.value.name else "")
      && Lookup(d, "agent") == (if agent.Some? then agent.value.name else "")
      && Lookup(d, "party") == (if party then "(" + size + "/" + max + ")" else "")
      && Lookup(d, "party_size") == (if party then size else "")
      && Lookup(d, "max_party_size") == (if party then max else "")
  {
    hide Tokens, PhaseOf, Itoa;
    TokensAreTokenValues(env, st, cfg, "account_level");
    TokensAreTokenValues(env, st, cfg, "availability");
    TokensAreTokenValues(env, st, cfg, "idle");
    TokensAreTokenValues(env, st, cfg, "rank");
    TokensAreTokenValues(env, st, cfg, "agent");
    TokensAreTokenValues(env, st, cfg, "party");
    TokensAreTokenValues(env, st, cfg, "party_size");
    TokensAreTokenValues(env, st, cfg, "max_party_size");
  }

  /** The mode and the map, test by test. */
  lemma PlaceText(env: Env, st: State, cfg: Config)
    ensures
      var cs, d := env.casing, Tokens(env, st, cfg);
      var range := cs.equalFold(st.provisioningFlow, "ShootingRange");
      var custom := cs.equalFold(st.provisioningFlow, "CustomGame") || cs.upper(st.partyState) == "CUSTOM_GAME_SETUP";
      var world := env.cat.world(st.mapId);
      var named := env.cat.queueName(st.queueId);
      && Lookup(d, "mode") == (if range then "The Range" else if custom then "Custom game" else named)
      && Lookup(d, "map") == (if range then "The Range" else if custom || world.None? then "" else world.value)
  {
    hide Tokens, PhaseOf, Itoa;
    TokensAreTokenValues(env, st, cfg, "mode");
    TokensAreTokenValues(env, st, cfg, "map");
  }

  /** The score of a match whose stats show, the range having none. */
  lemma ScoreText(env: Env, st: State, cfg: Config)
    requires PhaseOf(env.casing, st) == InMatch && cfg.showStats
    requires !env.casing.equalFold(st.provisioningFlow, "ShootingRange")
    ensures
      var d, ally, enemy := Tokens(env, st, cfg), Itoa(st.scoreAlly), Itoa(st.scoreEnemy);
      if st.gameScoreType == "Points" && st.queueId == "deathmatch" then
        Lookup(d, "score") == if !cfg.showKills then "" else if st.scoreAlly == 1 then "1 kill" else ally + " kills"
      else
        Lookup(d, "score") == ally + "-" + enemy && Lookup(d, "score_ally") == ally && Lookup(d, "score_enemy") == enemy
  {
    hide Tokens, PhaseOf, Itoa;
    TokensAreTokenValues(env, st, cfg, "score");
    TokensAreTokenValues(env, st, cfg, "score_ally");
    TokensAreTokenValues(env, st, cfg, "score_enemy");
  }

  // ------------------------------------------------------ the lines that show

  /** The user's own template is what is rendered, under the phase's own key. */
  lemma UserTemplateIsRendered(env: Env, st: State, cfg: Config, key: string)
    requires
      var p := PhaseOf(env.casing, st);
      && (p == InClient ==> key == "in-client") && (p == InLobby ==> key == "in-lobby")
      && (p == InQueue ==> key == "in-queue") && (p == CustomGame ==> key == "custom-game")
      && (p == AgentSelect ==> key == "agent-select") && (p == InMatch ==> key == "in-match")
    ensures
      var ctx, d, rpc := ContextOf(PhaseOf(env.casing, st)), Tokens(env, st, cfg), MapStateToPresence(env, st, cfg);
      if key !in cfg.templates then
        rpc.details == Rendered(ctx, ctx.details, d) && rpc.state == Rendered(ctx, ctx.state, d)
      else
        var pair := cfg.templates[key];
        && rpc.details == Rendered(ctx, if pair.details != "" then pair.details else ctx.details, d)
        && rpc.state == Rendered(ctx, if pair.state != "" then pair.state else ctx.state, d)
  {
    hide PhaseOf, Rendered, Tokens, ContextOf, LargeArt, SmallIcon;
  }

  /** A value, or the mark of an empty one. */
  function Filled(v: string): string { if v == "" then [MARK] else v }

  lemma FilledToken(env: Env, st: State, cfg: Config, known: set<string>, n: string)
    requires n in known
    ensures Expand(known, Tokens(env, st, cfg), Tok(n)) == Filled(TokenValue(env, st, cfg, n))
  {
    hide Tokens, TokenValue;
    TokensAreTokenValues(env, st, cfg, n);
  }

  lemma TokenNames()
    ensures ValidName("availability") && ValidName("mode") && ValidName("map")
    ensures ValidName("party") && ValidName("idle") && ValidName("score")
    ensures '{' !in MID
  {
  }

  /** The tokens a phase's built-in lines are made of are known to it. */
  lemma DefaultsKnow(p: Phase)
    ensures
      var known := ContextOf(p).known;
      && "availability" in known && "mode" in known && "party" in known && "idle" in known
      && (p in {AgentSelect, InMatch} ==> "map" in known) && (p == InMatch ==> "score" in known)
  {
  }

  lemma RenderedText(env: Env, st: State, cfg: Config, ctx: Context, tmpl: string, text: string)
    requires Substituted(ctx.known, Tokens(env, st, cfg), tmpl) == text
    ensures Rendered(ctx, tmpl, Tokens(env, st, cfg)) == Cleanup(text)
  {
    hide Cleanup, Tokens;
  }

  /** A line of one token after literal text. */
  lemma OneTokenRendered(env: Env, st: State, cfg: Config, ctx: Context, lead: string, n: string)
    requires '{' !in lead && ValidName(n) && n in ctx.known
    ensures Rendered(ctx, lead + Token(n), Tokens(env, st, cfg))
         == Cleanup(lead + Filled(TokenValue(env, st, cfg, n)))
  {
    hide Tokens, TokenValue, Cleanup, Expand, ValidName, Filled, Token, Substituted, Rendered;
    FilledToken(env, st, cfg, ctx.known, n);
    SubstituteOne(ctx.known, Tokens(env, st, cfg), lead, n);
    RenderedText(env, st, cfg, ctx, lead + Token(n), lead + Filled(TokenValue(env, st, cfg, n)));
  }

  /** A line of two, with literal text before and between. */
  lemma TwoTokensRendered(env: Env, st: State, cfg: Config, ctx: Context, lead: string, n: string, m: string)
    requires '{' !in lead && ValidName(n) && ValidName(m) && n in ctx.known && m in ctx.known
    ensures Rendered(ctx, lead + Token(n) + MID + Token(m), Tokens(env, st, cfg))
         == Cleanup(lead + Filled(TokenValue(env, st, cfg, n)) + MID + Filled(TokenValue(env, st, cfg, m)))
  {
    hide Tokens, TokenValue, Cleanup, Expand, ValidName, Filled, Token, Substituted, Rendered;
    FilledToken(env, st, cfg, ctx.known, n);
    FilledToken(env, st, cfg, ctx.known, m);
    TokenNames();
    SubstituteTwo(ctx.known, Tokens(env, st, cfg), lead, n, MID, m);
    RenderedText(env, st, cfg, ctx, lead + Token(n) + MID + Token(m),
                 lead + Filled(TokenValue(env, st, cfg, n)) + MID + Filled(TokenValue(env, st, cfg, m)));
  }

  lemma NothingBefore(s: string)
    ensures "" + s == s
  {
  }

  /** The built-in details line, token by token. */
  lemma DefaultDetails(env: Env, st: State, cfg: Config)
    ensures
      var p := PhaseOf(env.casing, st);
      var mode := Filled(TokenValue(env, st, cfg, "mode"));
      Rendered(ContextOf(p), ContextOf(p).details, Tokens(env, st, cfg)) ==
      if p == InClient then Cleanup(Filled(TokenValue(env, st, cfg, "availability")))
      else if p == AgentSelect then Cleanup(mode + MID + Filled(TokenValue(env, st, cfg, "map")))
      else Cleanup(mode)
  {
    hide Tokens, TokenValue, Cleanup, PhaseOf, ValidName, Filled, Token, Rendered;
    var p := PhaseOf(env.casing, st);
    var ctx := ContextOf(p);
    TokenNames();
    DefaultsKnow(p);
    var first := if p == InClient then "availability" else "mode";
    NothingBefore(Token(first));
    NothingBefore(Filled(TokenValue(env, st, cfg, first)));
    if p == AgentSelect {
      TwoTokensRendered(env, st, cfg, ctx, "", "mode", "map");
    } else {
      OneTokenRendered(env, st, cfg, ctx, "", first);
    }
  }

  /** The built-in state line, token by token. */
  lemma DefaultState(env: Env, st: State, cfg: Config)
    ensures
      var p := PhaseOf(env.casing, st);
      var party := Filled(TokenValue(env, st, cfg, "party"));
      var idle := Filled(TokenValue(env, st, cfg, "idle"));
      Rendered(ContextOf(p), ContextOf(p).state, Tokens(env, st, cfg)) ==
      if p == InClient then Cleanup("In client")
      else if p == InMatch then Cleanup("In a match" + MID + Filled(TokenValue(env, st, cfg, "score")))
      else if p == AgentSelect then Cleanup("Agent select" + MID + party)
      else if p == InQueue then Cleanup("In queue" + MID + party + MID + idle)
      else Cleanup("In lobby" + MID + party + MID + idle)
  {
    hide Tokens, TokenValue, Cleanup, PhaseOf, ValidName, Filled, Token, Rendered, Substituted;
    var p := PhaseOf(env.casing, st);
    var ctx := ContextOf(p);
    TokenNames();
    DefaultsKnow(p);
    if p == InClient {
      SubstituteNone(ctx.known, Tokens(env, st, cfg), "In client");
      RenderedText(env, st, cfg, ctx, "In client", "In client");
    } else if p == InMatch {
      OneTokenRendered(env, st, cfg, ctx, "In a match" + MID, "score");
    } else if p == AgentSelect {
      OneTokenRendered(env, st, cfg, ctx, "Agent select" + MID, "party");
    } else if p == InQueue {
      TwoTokensRendered(env, st, cfg, ctx, "In queue" + MID, "party", "idle");
    } else {
      TwoTokensRendered(env, st, cfg, ctx, "In lobby" + MID, "party", "idle");
    }
  }

  /** With no template of the user's, the payload's two lines, phase by phase. */
  lemma DefaultLines(env: Env, st: State, cfg: Config)
    requires Override(cfg, ContextKey(PhaseOf(env.casing, st))) == TemplatePair("", "")
    ensures
      var p, rpc := PhaseOf(env.casing, st), MapStateToPresence(env, st, cfg);
      var mode := Filled(TokenValue(env, st, cfg, "mode"));
      var party := MID + Filled(TokenValue(env, st, cfg, "party"));
      var idle := MID + Filled(TokenValue(env, st, cfg, "idle"));
      var alone := Cleanup(mode);
      && (p == InClient ==>
            && rpc.details == Cleanup(Filled(TokenValue(env, st, cfg, "availability")))
            && rpc.state == Cleanup("In client"))
      && (p in {InLobby, CustomGame} ==> rpc.details == alone && rpc.state == Cleanup("In lobby" + (party + idle)))
      && (p == InQueue ==> rpc.details == alone && rpc.state == Cleanup("In queue" + (party + idle)))
      && (p == AgentSelect ==>
            && rpc.details == Cleanup(mode + MID + Filled(TokenValue(env, st, cfg, "map")))
            && rpc.state == Cleanup("Agent select" + party))
      && (p == InMatch ==>
            && rpc.details == alone
            && rpc.state == Cleanup("In a match" + MID + Filled(TokenValue(env, st, cfg, "score"))))
  {
    hide PhaseOf, Rendered, Tokens, TokenValue, ContextOf, ContextKey, LargeArt, SmallIcon, Cleanup, Filled;
    DefaultDetails(env, st, cfg);
    DefaultState(env, st, cfg);
    var party, idle := Filled(TokenValue(env, st, cfg, "party")), Filled(TokenValue(env, st, cfg, "idle"));
    Regrouped("In lobby", MID, party, idle);
    Regrouped("In queue", MID, party, idle);
    assert "Agent select" + (MID + party) == "Agent select" + MID + party;
  }

  lemma Regrouped(lead: string, mid: string, a: string, b: string)
    ensures lead + mid + a + mid + b == lead + ((mid + a) + (mid + b))
  {
  }
}
