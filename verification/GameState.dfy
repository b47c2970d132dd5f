/** The inputs of a presence: the player's state, the settings, and the two
    sources the app only looks things up in (the content catalogue and
    the language's string functions), which stay arbitrary. */
module GameState {
  import opened Option

  /** A point in time, in nanoseconds. */
  type Instant = int

  datatype Screen = ScreenUnknown | ScreenClient | ScreenLobby

  datatype State = State(
    availability: string, riotId: string, tagline: string, accountLevel: int, playerCardId: string,
    sessionLoop: string, partyState: string, provisioningFlow: string, isIdle: bool, menuScreen: Screen,
    mapId: string, queueId: string, agentId: string, scoreAlly: int, scoreEnemy: int,
    partySize: int, maxPartySize: int, partyAccessibility: string, queueEntryTime: Instant,
    gameScoreType: string, competitiveTier: int, leaderboardPosition: int, contextEnteredAt: Instant)

  /** Where a daemon starts, before anything has been read. */
  function NewState(now: Instant): State {
    State("Online", "", "", 0, "", "", "", "", false, ScreenUnknown,
          "", "", "", 0, 0, 0, 0, "", 0, "", 0, 0, now)
  }

  datatype Phase = InClient | InLobby | InQueue | CustomGame | AgentSelect | InMatch

  /** Upper-casing and case-insensitive comparison, as the language has them. */
  datatype Casing = Casing(upper: string -> string, equalFold: (string, string) -> bool)

  function PhaseOf(cs: Casing, s: State): Phase {
    var loop := cs.upper(s.sessionLoop);
    if loop == "PREGAME" then AgentSelect
    else if loop == "INGAME" then InMatch
    else if loop != "MENUS" && loop != "" then InClient
    else
      var party := cs.upper(s.partyState);
      if party == "MATCHMAKING" then InQueue
      else if party == "CUSTOM_GAME_SETUP" then
        if s.menuScreen == ScreenClient then InClient else CustomGame
      else if s.menuScreen == ScreenLobby then InLobby
      else InClient
  }

  predicate IsRange(cs: Casing, s: State) {
    cs.equalFold(s.provisioningFlow, "ShootingRange")
  }

  predicate IsCustomGame(cs: Casing, s: State) {
    || cs.equalFold(s.provisioningFlow, "CustomGame")
    || cs.upper(s.partyState) == "CUSTOM_GAME_SETUP"
  }

  /** When each phase is reported. Riot's party state counts in the menus
      only, and the log's screen only where the payload cannot tell. */
  lemma PhaseExactly(cs: Casing, s: State)
    ensures
      var loop, party := cs.upper(s.sessionLoop), cs.upper(s.partyState);
      var menus := loop in {"MENUS", ""};
      && (PhaseOf(cs, s) == AgentSelect <==> loop == "PREGAME")
      && (PhaseOf(cs, s) == InMatch <==> loop == "INGAME")
      && (PhaseOf(cs, s) == InQueue <==> menus && party == "MATCHMAKING")
      && (PhaseOf(cs, s) == CustomGame <==> menus && party == "CUSTOM_GAME_SETUP" && s.menuScreen != ScreenClient)
      && (PhaseOf(cs, s) == InLobby <==>
            menus && party !in {"MATCHMAKING", "CUSTOM_GAME_SETUP"} && s.menuScreen == ScreenLobby)
  {
  }

  datatype TemplatePair = TemplatePair(details: string, state: string)

  /** The settings the presence code reads. */
  datatype Config = Config(
    discordAppId: string, showRank: bool, showStats: bool, showKills: bool, matchImage: string,
    showInClient: bool, templates: map<string, TemplatePair>)

  datatype Agent = Agent(name: string, icon: string)
  datatype Tier = Tier(name: string, largeIcon: string)

  /** Catalogue lookups; an absent catalogue is the one where all miss. */
  datatype Catalogue = Catalogue(
    card: string -> Option<string>, agent: string -> Option<Agent>, world: string -> Option<string>,
    tier: int -> Option<Tier>, queueName: string -> string)

  /** What a presence is mapped with, besides the state. */
  datatype Env = Env(casing: Casing, cat: Catalogue, smallText: string)
}
