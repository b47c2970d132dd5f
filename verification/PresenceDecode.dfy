/** Reading the local player's presence out of Riot's chat payload, across the
    flat shape and the one that nests match, party and player fields. */
module PresenceDecode {
  import opened Option
  import opened Decimal

  /** What the libraries do with a raw JSON value of type R: read it as an
      object, a string, a number or a flag, or refuse. T is a point in time. */
  datatype Readers<!R, T> = Readers(
    asObject: R -> Option<map<string, R>>,
    asString: R -> Option<string>,
    asNumber: R -> Option<int>,
    asFlag: R -> Option<bool>,
    parseTime: string -> Option<T>,
    zeroTime: T)

  datatype Presence<T> = Presence(
    puuid: string, gameName: string, tagline: string,
    playerCardID: string, sessionLoopState: string, partyState: string, matchMap: string,
    queueID: string, provisioningFlow: string, scoreAllyTeam: int, scoreEnemyTeam: int,
    gameScoreType: string, partySize: int, maxPartySize: int, partyAccessibility: string,
    partyID: string, competitiveTier: int, leaderboardPosition: int, accountLevel: int,
    isIdle: bool, queueEntryTime: T)

  const CONTAINERS: seq<string> := ["matchPresenceData", "partyPresenceData", "playerPresenceData"]

  predicate IsFieldKey(key: string) {
    || key == "playerCardId" || key == "sessionLoopState" || key == "partyState" || key == "matchMap"
    || key == "queueId" || key == "provisioningFlow" || key == "partyOwnerMatchScoreAllyTeam"
    || key == "partyOwnerMatchScoreEnemyTeam" || key == "gameScoreType" || key == "partySize"
    || key == "maxPartySize" || key == "partyAccessibility" || key == "partyId"
    || key == "competitiveTier" || key == "leaderboardPosition" || key == "accountLevel"
    || key == "isIdle" || key == "queueEntryTime"
  }

  // ----------------------------------------------------------------- scopes

  type Scope<R> = map<string, R>

  /** The key's value where it is found first. */
  function Lookup<R>(scopes: seq<Scope<R>>, key: string): Option<R> {
    if scopes == [] then None
    else if key in scopes[0] then Some(scopes[0][key])
    else Lookup(scopes[1..], key)
  }

  /** A container of the nested shape, if the payload has it and it is an object. */
  function Nested<R, T>(lib: Readers<R, T>, top: Scope<R>, key: string): Option<Scope<R>> {
    if key in top then lib.asObject(top[key]) else None
  }

  function Pushed<R>(scopes: seq<Scope<R>>, scope: Option<Scope<R>>): seq<Scope<R>> {
    if scope.Some? then scopes + [scope.value] else scopes
  }

  /** The containers that are there, in order, then the top level. */
  function ScopesOf<R, T>(lib: Readers<R, T>, top: Scope<R>): seq<Scope<R>> {
    var matches := Pushed([], Nested(lib, top, CONTAINERS[0]));
    var parties := Pushed(matches, Nested(lib, top, CONTAINERS[1]));
    var players := Pushed(parties, Nested(lib, top, CONTAINERS[2]));
    players + [top]
  }

  function Text<R, T>(lib: Readers<R, T>, raw: Option<R>): string {
    if raw.Some? then (var read := lib.asString(raw.value); if read.Some? then read.value else "") else ""
  }

  function Number<R, T>(lib: Readers<R, T>, raw: Option<R>): int {
    if raw.Some? then (var read := lib.asNumber(raw.value); if read.Some? then read.value else 0) else 0
  }

  function Flag<R, T>(lib: Readers<R, T>, raw: Option<R>): bool {
    raw.Some? && lib.asFlag(raw.value) == Some(true)
  }

  function Time<R, T>(lib: Readers<R, T>, raw: Option<R>): T {
    var text := Text(lib, raw);
    var parsed := if text == "" then None else lib.parseTime(text);
    if parsed.Some? then parsed.value else lib.zeroTime
  }

  /** The presence whose fields are found by the given look-up. */
  function Build<R, T>(lib: Readers<R, T>, look: string -> Option<R>): Presence<T> {
    Presence("", "", "",
      Text(lib, look("playerCardId")), Text(lib, look("sessionLoopState")),
      Text(lib, look("partyState")), Text(lib, look("matchMap")),
      Text(lib, look("queueId")), Text(lib, look("provisioningFlow")),
      Number(lib, look("partyOwnerMatchScoreAllyTeam")), Number(lib, look("partyOwnerMatchScoreEnemyTeam")),
      Text(lib, look("gameScoreType")), Number(lib, look("partySize")), Number(lib, look("maxPartySize")),
      Text(lib, look("partyAccessibility")), Text(lib, look("partyId")),
      Number(lib, look("competitiveTier")), Number(lib, look("leaderboardPosition")),
      Number(lib, look("accountLevel")), Flag(lib, look("isIdle")), Time(lib, look("queueEntryTime")))
  }

  function DecodePrivate<R, T>(lib: Readers<R, T>, top: Scope<R>): Presence<T> {
    Build(lib, key => Lookup(ScopesOf(lib, top), key))
  }

  class Fields<R> {
    var scopes: seq<Scope<R>>

    constructor ()
      ensures scopes == []
    {
      scopes := [];
    }

    method Push(scope: Option<Scope<R>>)
      modifies this
      ensures scopes == Pushed(old(scopes), scope)
    {
      if scope.Some? {
        scopes := scopes + [scope.value];
      }
    }

    method Raw(key: string) returns (raw: Option<R>)
      ensures raw == Lookup(scopes, key)
    {
      var i := 0;
      while i < |scopes|
        invariant 0 <= i <= |scopes|
        invariant Lookup(scopes, key) == Lookup(scopes[i..], key)
      {
        if key in scopes[i] {
          return Some(scopes[i][key]);
        }
        i := i + 1;
      }
      return None;
    }
  }

  /** Pushes every container, then the top level, and reads the fields. */
  method ReadPrivate<R, T>(lib: Readers<R, T>, top: Scope<R>) returns (presence: Presence<T>)
    ensures presence == DecodePrivate(lib, top)
  {
    var fields := new Fields<R>();
    for i := 0 to |CONTAINERS|
      invariant fresh(fields)
      invariant i == 0 ==> fields.scopes == []
      invariant i == 1 ==> fields.scopes == Pushed([], Nested(lib, top, CONTAINERS[0]))
      invariant i == 2 ==>
        fields.scopes == Pushed(Pushed([], Nested(lib, top, CONTAINERS[0])), Nested(lib, top, CONTAINERS[1]))
      invariant i == 3 ==> fields.scopes + [top] == ScopesOf(lib, top)
    {
      fields.Push(Nested(lib, top, CONTAINERS[i]));
    }
    fields.Push(Some(top));
    var playerCard := fields.Raw("playerCardId");
    var loopState := fields.Raw("sessionLoopState");
    var partyState := fields.Raw("partyState");
    var matchMap := fields.Raw("matchMap");
    var queue := fields.Raw("queueId");
    var flow := fields.Raw("provisioningFlow");
    var allyScore := fields.Raw("partyOwnerMatchScoreAllyTeam");
    var enemyScore := fields.Raw("partyOwnerMatchScoreEnemyTeam");
    var scoreType := fields.Raw("gameScoreType");
    var size := fields.Raw("partySize");
    var maxSize := fields.Raw("maxPartySize");
    var access := fields.Raw("partyAccessibility");
    var party := fields.Raw("partyId");
    var tier := fields.Raw("competitiveTier");
    var position := fields.Raw("leaderboardPosition");
    var level := fields.Raw("accountLevel");
    var idle := fields.Raw("isIdle");
    var queued := fields.Raw("queueEntryTime");
    presence := Presence("", "", "",
      Text(lib, playerCard), Text(lib, loopState), Text(lib, partyState), Text(lib, matchMap),
      Text(lib, queue), Text(lib, flow), Number(lib, allyScore), Number(lib, enemyScore),
      Text(lib, scoreType), Number(lib, size), Number(lib, maxSize), Text(lib, access), Text(lib, party),
      Number(lib, tier), Number(lib, position), Number(lib, level), Flag(lib, idle), Time(lib, queued));
  }

  // --------------------------------------------------------- the migration

  /** Every scope poured into one flat payload, earlier scopes on top. */
  function Poured<R>(scopes: seq<Scope<R>>): Scope<R> {
    if scopes == [] then map[] else Poured(scopes[1..]) + scopes[0]
  }

  function Flattened<R, T>(lib: Readers<R, T>, top: Scope<R>): Scope<R> {
    Poured(ScopesOf(lib, top)) - (set c | c in CONTAINERS)
  }

  predicate IsFlat<R, T>(lib: Readers<R, T>, top: Scope<R>) {
    forall i :: 0 <= i < |CONTAINERS| ==> Nested(lib, top, CONTAINERS[i]).None?
  }

  lemma {:induction false} PouredLooksUpAlike<R>(scopes: seq<Scope<R>>, key: string)
    ensures Lookup(scopes, key) == if key in Poured(scopes) then Some(Poured(scopes)[key]) else None
  {
    if scopes != [] {
      PouredLooksUpAlike(scopes[1..], key);
    }
  }

  lemma FieldsAreNotContainers(key: string)
    requires IsFieldKey(key)
    ensures key !in CONTAINERS
  {
    assert key[|key| - 1] != 'a';
  }

  lemma FlatLooksUpItself<R, T>(lib: Readers<R, T>, top: Scope<R>, key: string)
    requires IsFlat(lib, top)
    ensures Lookup(ScopesOf(lib, top), key) == if key in top then Some(top[key]) else None
  {
    assert Nested(lib, top, CONTAINERS[0]).None?;
    assert Nested(lib, top, CONTAINERS[1]).None?;
    assert Nested(lib, top, CONTAINERS[2]).None?;
    assert ScopesOf(lib, top) == [top];
  }

  /** Two look-ups that find the same under every field key. */
  ghost predicate SameLooks<R(!new)>(f: string -> Option<R>, g: string -> Option<R>) {
    forall key :: IsFieldKey(key) ==> f(key) == g(key)
  }

  lemma SameMatchFields<R(!new)>(f: string -> Option<R>, g: string -> Option<R>)
    requires SameLooks(f, g)
    ensures f("playerCardId") == g("playerCardId")
    ensures f("sessionLoopState") == g("sessionLoopState")
    ensures f("partyState") == g("partyState")
    ensures f("matchMap") == g("matchMap")
    ensures f("queueId") == g("queueId")
    ensures f("provisioningFlow") == g("provisioningFlow")
    ensures f("partyOwnerMatchScoreAllyTeam") == g("partyOwnerMatchScoreAllyTeam")
    ensures f("partyOwnerMatchScoreEnemyTeam") == g("partyOwnerMatchScoreEnemyTeam")
    ensures f("gameScoreType") == g("gameScoreType")
  {
  }

  lemma SamePlayerFields<R(!new)>(f: string -> Option<R>, g: string -> Option<R>)
    requires SameLooks(f, g)
    ensures f("partySize") == g("partySize")
    ensures f("maxPartySize") == g("maxPartySize")
    ensures f("partyAccessibility") == g("partyAccessibility")
    ensures f("partyId") == g("partyId")
    ensures f("competitiveTier") == g("competitiveTier")
    ensures f("leaderboardPosition") == g("leaderboardPosition")
    ensures f("accountLevel") == g("accountLevel")
    ensures f("isIdle") == g("isIdle")
    ensures f("queueEntryTime") == g("queueEntryTime")
  {
  }

  /** Only the field keys are ever looked up. */
  lemma BuildReadsFieldKeys<R(!new), T>(lib: Readers<R, T>, f: string -> Option<R>, g: string -> Option<R>)
    requires SameLooks(f, g)
    ensures Build(lib, f) == Build(lib, g)
  {
    hide SameLooks, Text, Number, Flag, Time;
    SameMatchFields(f, g);
    SamePlayerFields(f, g);
  }

  lemma SameLookups<R(!new), T>(lib: Readers<R, T>, a: Scope<R>, b: Scope<R>)
    requires forall key :: IsFieldKey(key) ==> Lookup(ScopesOf(lib, a), key) == Lookup(ScopesOf(lib, b), key)
    ensures DecodePrivate(lib, a) == DecodePrivate(lib, b)
  {
    hide IsFieldKey, Build, ScopesOf;
    var f := key => Lookup(ScopesOf(lib, a), key);
    var g := key => Lookup(ScopesOf(lib, b), key);
    BuildReadsFieldKeys(lib, f, g);
    assert DecodePrivate(lib, a) == Build(lib, f) && DecodePrivate(lib, b) == Build(lib, g);
  }

  lemma FlattenedIsFlat<R, T>(lib: Readers<R, T>, top: Scope<R>)
    ensures IsFlat(lib, Flattened(lib, top))
  {
    hide Poured, ScopesOf;
    assert forall i :: 0 <= i < |CONTAINERS| ==> CONTAINERS[i] in (set c | c in CONTAINERS);
  }

  /** Any payload, however nested, reads like one flat payload in which an
      earlier scope overrides a later one. */
  lemma NestedReadsLikeFlattened<R(!new), T>(lib: Readers<R, T>, top: Scope<R>)
    ensures DecodePrivate(lib, top) == DecodePrivate(lib, Flattened(lib, top))
  {
    var flat := Flattened(lib, top);
    FlattenedIsFlat(lib, top);
    forall key | IsFieldKey(key)
      ensures Lookup(ScopesOf(lib, top), key) == Lookup(ScopesOf(lib, flat), key)
    {
      hide IsFieldKey, Poured, ScopesOf, IsFlat;
      FieldsAreNotContainers(key);
      PouredLooksUpAlike(ScopesOf(lib, top), key);
      FlatLooksUpItself(lib, flat, key);
    }
    SameLookups(lib, top, flat);
  }

  /** The fields of flat, spread over the scopes of top in any way, repeats
      included. */
  ghost predicate Spreads<R(!new), T>(lib: Readers<R, T>, flat: Scope<R>, top: Scope<R>) {
    var scopes := ScopesOf(lib, top);
    && (forall i, key :: 0 <= i < |scopes| && IsFieldKey(key) && key in scopes[i] ==>
          key in flat && scopes[i][key] == flat[key])
    && (forall key :: IsFieldKey(key) && key in flat ==> exists i :: 0 <= i < |scopes| && key in scopes[i])
  }

  lemma {:induction false} LookupFindsTheOnlyValue<R>(scopes: seq<Scope<R>>, key: string, flat: Scope<R>)
    requires forall i :: 0 <= i < |scopes| && key in scopes[i] ==> key in flat && scopes[i][key] == flat[key]
    requires key in flat ==> exists i :: 0 <= i < |scopes| && key in scopes[i]
    ensures Lookup(scopes, key) == if key in flat then Some(flat[key]) else None
  {
    if scopes != [] && key !in scopes[0] {
      if key in flat {
        var i :| 0 <= i < |scopes| && key in scopes[i];
        assert scopes[1..][i - 1] == scopes[i];
      }
      LookupFindsTheOnlyValue(scopes[1..], key, flat);
    }
  }

  /** The migration changes nothing: wherever a payload's fields are moved to,
      the presence read back is the flat payload's. */
  lemma MigrationPreservesPresence<R(!new), T>(lib: Readers<R, T>, flat: Scope<R>, top: Scope<R>)
    requires IsFlat(lib, flat) && Spreads(lib, flat, top)
    ensures DecodePrivate(lib, top) == DecodePrivate(lib, flat)
  {
    forall key | IsFieldKey(key)
      ensures Lookup(ScopesOf(lib, top), key) == Lookup(ScopesOf(lib, flat), key)
    {
      hide IsFieldKey, ScopesOf;
      LookupFindsTheOnlyValue(ScopesOf(lib, top), key, flat);
      FlatLooksUpItself(lib, flat, key);
    }
    SameLookups(lib, top, flat);
  }

  /** How Riot writes a value down; times as text. */
  datatype Writers<!R, !T> = Writers(
    text: string -> R, number: int -> R, flag: bool -> R, time: T -> string)

  /** What is written reads back: numbers up to 64 bits, times as their text. */
  ghost predicate ReadsBack<R, T(!new)>(lib: Readers<R, T>, w: Writers<R, T>) {
    && (forall s :: lib.asString(w.text(s)) == Some(s))
    && (forall n :: InInt64(n) ==> lib.asNumber(w.number(n)) == Some(n))
    && (forall b :: lib.asFlag(w.flag(b)) == Some(b))
    && (forall t :: w.time(t) != "" && lib.parseTime(w.time(t)) == Some(t))
  }

  predicate Holds<R(==)>(scope: Scope<R>, key: string, value: R) {
    key in scope && scope[key] == value
  }

  /** The flat payload carries p's fields under Riot's keys. */
  ghost predicate Carries<R, T>(w: Writers<R, T>, p: Presence<T>, flat: Scope<R>) {
    && Holds(flat, "playerCardId", w.text(p.playerCardID))
    && Holds(flat, "sessionLoopState", w.text(p.sessionLoopState))
    && Holds(flat, "partyState", w.text(p.partyState))
    && Holds(flat, "matchMap", w.text(p.matchMap))
    && Holds(flat, "queueId", w.text(p.queueID))
    && Holds(flat, "provisioningFlow", w.text(p.provisioningFlow))
    && Holds(flat, "partyOwnerMatchScoreAllyTeam", w.number(p.scoreAllyTeam))
    && Holds(flat, "partyOwnerMatchScoreEnemyTeam", w.number(p.scoreEnemyTeam))
    && Holds(flat, "gameScoreType", w.text(p.gameScoreType))
    && Holds(flat, "partySize", w.number(p.partySize))
    && Holds(flat, "maxPartySize", w.number(p.maxPartySize))
    && Holds(flat, "partyAccessibility", w.text(p.partyAccessibility))
    && Holds(flat, "partyId", w.text(p.partyID))
    && Holds(flat, "competitiveTier", w.number(p.competitiveTier))
    && Holds(flat, "leaderboardPosition", w.number(p.leaderboardPosition))
    && Holds(flat, "accountLevel", w.number(p.accountLevel))
    && Holds(flat, "isIdle", w.flag(p.isIdle))
    && Holds(flat, "queueEntryTime", w.text(w.time(p.queueEntryTime)))
  }

  predicate SmallNumbers<T>(p: Presence<T>) {
    && InInt64(p.scoreAllyTeam) && InInt64(p.scoreEnemyTeam) && InInt64(p.partySize) && InInt64(p.maxPartySize)
    && InInt64(p.competitiveTier) && InInt64(p.leaderboardPosition) && InInt64(p.accountLevel)
  }

  /** A presence written down flat and then spread over the containers in any
      way is read back field by field; who it is comes from the entry. */
  lemma PresenceReadsBack<R(!new), T(!new)>(
    lib: Readers<R, T>, w: Writers<R, T>, p: Presence<T>, flat: Scope<R>, top: Scope<R>)
    requires ReadsBack(lib, w) && SmallNumbers(p) && Carries(w, p, flat)
    requires IsFlat(lib, flat) && Spreads(lib, flat, top)
    ensures DecodePrivate(lib, top) == p.(puuid := "", gameName := "", tagline := "")
  {
    hide Spreads, Carries, ReadsBack, SmallNumbers, Build, IsFlat;
    MigrationPreservesPresence(lib, flat, top);
    var f := key => Lookup(ScopesOf(lib, flat), key);
    var g := key => if key in flat then Some(flat[key]) else None;
    forall key | IsFieldKey(key)
      ensures f(key) == g(key)
    {
      FlatLooksUpItself(lib, flat, key);
    }
    BuildReadsFieldKeys(lib, f, g);
    CarriedFieldsReadBack(lib, w, p, flat, g);
  }

  lemma CarriedFieldsReadBack<R, T(!new)>(
    lib: Readers<R, T>, w: Writers<R, T>, p: Presence<T>, flat: Scope<R>, g: string -> Option<R>)
    requires ReadsBack(lib, w) && SmallNumbers(p) && Carries(w, p, flat)
    requires forall key :: g(key) == if key in flat then Some(flat[key]) else None
    ensures Build(lib, g) == p.(puuid := "", gameName := "", tagline := "")
  {
  }

  /** A missing value, or one of the wrong type, reads as the zero value of its
      field and of no other. */
  lemma UnreadableIsZero<R, T>(lib: Readers<R, T>, raw: Option<R>)
    ensures (raw.Some? ==> lib.asString(raw.value) == None) ==> Text(lib, raw) == "" && Time(lib, raw) == lib.zeroTime
    ensures (raw.Some? ==> lib.asNumber(raw.value) == None) ==> Number(lib, raw) == 0
    ensures (raw.Some? ==> lib.asFlag(raw.value) == None) ==> !Flag(lib, raw)
    ensures raw.Some? && lib.asString(raw.value) == Some("") ==> Time(lib, raw) == lib.zeroTime
    ensures raw.Some? && lib.asString(raw.value).Some? && lib.parseTime(lib.asString(raw.value).value) == None ==>
      Time(lib, raw) == lib.zeroTime
  {
  }

  /** The key's value in one container, if that is there, is an object and has
      the key. */
  function Held<R, T>(lib: Readers<R, T>, top: Scope<R>, container: string, key: string): Option<R> {
    if container in top && lib.asObject(top[container]).Some? && key in lib.asObject(top[container]).value
    then Some(lib.asObject(top[container]).value[key])
    else None
  }

  lemma OneContainer<R, T>(lib: Readers<R, T>, top: Scope<R>, container: string, key: string)
    ensures Lookup(Pushed([], Nested(lib, top, container)), key) == Held(lib, top, container, key)
  {
  }

  /** The containers' order settles every conflict, field by field, and the top
      level comes last. */
  lemma FirstContainerWins<R, T>(lib: Readers<R, T>, top: Scope<R>, key: string)
    ensures
      var inMatch := Held(lib, top, "matchPresenceData", key);
      var inParty := Held(lib, top, "partyPresenceData", key);
      var inPlayer := Held(lib, top, "playerPresenceData", key);
      Lookup(ScopesOf(lib, top), key) ==
      if inMatch.Some? then inMatch
      else if inParty.Some? then inParty
      else if inPlayer.Some? then inPlayer
      else if key in top then Some(top[key])
      else None
  {
    hide Nested, Held;
    OneContainer(lib, top, "matchPresenceData", key);
    OneContainer(lib, top, "partyPresenceData", key);
    OneContainer(lib, top, "playerPresenceData", key);
    var a := Pushed([], Nested(lib, top, "matchPresenceData"));
    var b := Pushed([], Nested(lib, top, "partyPresenceData"));
    var c := Pushed([], Nested(lib, top, "playerPresenceData"));
    LookupSkips(a, b + (c + [top]), key);
    LookupSkips(b, c + [top], key);
    LookupSkips(c, [top], key);
    ScopesInOrder(lib, top);
  }

  lemma ScopesInOrder<R, T>(lib: Readers<R, T>, top: Scope<R>)
    ensures ScopesOf(lib, top)
         == Pushed([], Nested(lib, top, "matchPresenceData"))
            + (Pushed([], Nested(lib, top, "partyPresenceData"))
               + (Pushed([], Nested(lib, top, "playerPresenceData")) + [top]))
  {
    hide Nested;
  }

  lemma {:induction false} LookupSkips<R>(before: seq<Scope<R>>, after: seq<Scope<R>>, key: string)
    ensures Lookup(before + after, key) ==
            if Lookup(before, key).Some? then Lookup(before, key) else Lookup(after, key)
  {
    if before == [] {
      assert before + after == after;
    } else {
      LookupSkips(before[1..], after, key);
      assert (before + after)[1..] == before[1..] + after;
    }
  }

  // ------------------------------------------------------ picking the entry

  datatype Result<V, E> = Ok(value: V) | Failed(error: E)

  datatype Entry = Entry(puuid: string, product: string, gameName: string, gameTag: string, blob: string)

  /** The payload's own libraries, on top of those for single values. */
  datatype Wire<!R, T, E> = Wire(
    lib: Readers<R, T>,
    entries: string -> Result<seq<Entry>, E>,
    isValorant: string -> bool,
    padded: string -> Result<string, E>,
    unpadded: string -> Result<string, E>,
    parse: string -> Result<Scope<R>, E>)

  datatype Decoded<T, E> = Found(presence: Presence<T>) | NoPresence | Broken(error: E)

  /** An entry of the local player's that has something to read. */
  predicate IsOurs<R, T, E>(wire: Wire<R, T, E>, puuid: string, entry: Entry) {
    entry.puuid == puuid && wire.isValorant(entry.product) && entry.blob != ""
  }

  function Base64<R, T, E>(wire: Wire<R, T, E>, blob: string): Result<string, E> {
    if wire.padded(blob).Failed? && wire.unpadded(blob).Ok? then wire.unpadded(blob) else wire.padded(blob)
  }

  function ReadEntry<R, T, E>(wire: Wire<R, T, E>, entry: Entry): (r: Result<Presence<T>, E>) {
    match Base64(wire, entry.blob)
    case Failed(e) => Failed(e)
    case Ok(bytes) =>
      match wire.parse(bytes)
      case Failed(e) => Failed(e)
      case Ok(top) =>
        Ok(DecodePrivate(wire.lib, top).(puuid := entry.puuid, gameName := entry.gameName, tagline := entry.gameTag))
  }

  /** What one entry contributes on its own. */
  function Read<R, T, E>(wire: Wire<R, T, E>, puuid: string, entry: Entry): Decoded<T, E> {
    if !IsOurs(wire, puuid, entry) then NoPresence
    else
      match ReadEntry(wire, entry)
      case Ok(presence) => Found(presence)
      case Failed(e) => Broken(e)
  }

  /** The first find settles it; failing that the latest failure does. */
  function Prefer<T, E>(before: Decoded<T, E>, after: Decoded<T, E>): Decoded<T, E> {
    if before.Found? || after.NoPresence? then before else after
  }

  function Pick<R, T, E>(wire: Wire<R, T, E>, puuid: string, entries: seq<Entry>): Decoded<T, E> {
    if entries == [] then NoPresence
    else Prefer(Read(wire, puuid, entries[0]), Pick(wire, puuid, entries[1..]))
  }

  /** The list is read in parts: a later part can only mend what no earlier
      part could decode. */
  lemma {:induction false} PickConcat<R, T, E>(wire: Wire<R, T, E>, puuid: string, a: seq<Entry>, b: seq<Entry>)
    ensures Pick(wire, puuid, a + b) == Prefer(Pick(wire, puuid, a), Pick(wire, puuid, b))
  {
    if a == [] {
      assert a + b == b;
    } else {
      PickConcat(wire, puuid, a[1..], b);
      assert (a + b)[1..] == a[1..] + b && (a + b)[0] == a[0];
    }
  }

  /** The first decodable entry is the answer, whatever failed before it and
      whatever follows. */
  lemma {:induction false} FirstDecodableWins<R, T, E>(wire: Wire<R, T, E>, puuid: string, entries: seq<Entry>, i: nat)
    requires i < |entries| && Read(wire, puuid, entries[i]).Found?
    requires forall j :: 0 <= j < i ==> !Read(wire, puuid, entries[j]).Found?
    ensures Pick(wire, puuid, entries) == Read(wire, puuid, entries[i])
  {
    hide Read;
    if i > 0 {
      FirstDecodableWins(wire, puuid, entries[1..], i - 1);
    }
  }

  /** With none to decode, the last failure among ours is what is reported. */
  lemma {:induction false} LastFailureIsReported<R, T, E>(
    wire: Wire<R, T, E>, puuid: string, entries: seq<Entry>, i: nat)
    requires i < |entries| && Read(wire, puuid, entries[i]).Broken?
    requires forall j :: 0 <= j < i ==> !Read(wire, puuid, entries[j]).Found?
    requires forall j :: i < j < |entries| ==> Read(wire, puuid, entries[j]).NoPresence?
    ensures Pick(wire, puuid, entries) == Read(wire, puuid, entries[i])
  {
    hide Read;
    if i > 0 {
      LastFailureIsReported(wire, puuid, entries[1..], i - 1);
    } else {
      NothingAfter(wire, puuid, entries[1..]);
    }
  }

  lemma {:induction false} NothingAfter<R, T, E>(wire: Wire<R, T, E>, puuid: string, entries: seq<Entry>)
    requires forall j :: 0 <= j < |entries| ==> Read(wire, puuid, entries[j]).NoPresence?
    ensures Pick(wire, puuid, entries) == NoPresence
  {
    hide Read;
    if entries != [] {
      NothingAfter(wire, puuid, entries[1..]);
    }
  }

  /** Nothing of anybody else's, of another product or without a blob matters. */
  lemma OnlyOursMatter<R, T, E>(
    wire: Wire<R, T, E>, puuid: string, a: seq<Entry>, others: seq<Entry>, b: seq<Entry>)
    requires forall i :: 0 <= i < |others| ==>
      others[i].puuid != puuid || !wire.isValorant(others[i].product) || others[i].blob == ""
    ensures Pick(wire, puuid, a + others + b) == Pick(wire, puuid, a + b)
  {
    hide ReadEntry;
    NothingAfter(wire, puuid, others);
    PickConcat(wire, puuid, a + others, b);
    PickConcat(wire, puuid, a, others);
    PickConcat(wire, puuid, a, b);
  }

  /** What is found is an entry of the player's own Valorant session, under its
      own name, and its blob's presence. */
  lemma {:induction false} FoundIsOurs<R, T, E>(wire: Wire<R, T, E>, puuid: string, entries: seq<Entry>)
    returns (i: nat)
    requires Pick(wire, puuid, entries).Found?
    ensures i < |entries|
    ensures entries[i].puuid == puuid && wire.isValorant(entries[i].product) && entries[i].blob != ""
    ensures
      var p := Pick(wire, puuid, entries).presence;
      p.puuid == puuid && p.gameName == entries[i].gameName && p.tagline == entries[i].gameTag
  {
    hide DecodePrivate;
    if Read(wire, puuid, entries[0]).Found? {
      i := 0;
    } else {
      var j := FoundIsOurs(wire, puuid, entries[1..]);
      i := j + 1;
    }
  }

  /** A reported failure is one of our own entries', too. */
  lemma {:induction false} FailureIsOurs<R, T, E>(wire: Wire<R, T, E>, puuid: string, entries: seq<Entry>)
    returns (i: nat)
    requires Pick(wire, puuid, entries).Broken?
    ensures i < |entries|
    ensures entries[i].puuid == puuid && wire.isValorant(entries[i].product) && entries[i].blob != ""
  {
    hide ReadEntry;
    if Pick(wire, puuid, entries[1..]).Broken? {
      var j := FailureIsOurs(wire, puuid, entries[1..]);
      i := j + 1;
    } else {
      i := 0;
    }
  }

  /** A padded blob is read as such, an unpadded one too, and the error of
      neither is the padded reading's. */
  lemma BlobReadsEitherWay<R, T, E>(wire: Wire<R, T, E>, blob: string)
    ensures wire.padded(blob).Ok? ==> Base64(wire, blob) == wire.padded(blob)
    ensures wire.padded(blob).Failed? && wire.unpadded(blob).Ok? ==> Base64(wire, blob) == wire.unpadded(blob)
    ensures wire.padded(blob).Failed? && wire.unpadded(blob).Failed? ==> Base64(wire, blob) == wire.padded(blob)
  {
  }

  /** An entry of ours that reads is found with its own blob's fields. */
  lemma OwnEntryIsFound<R, T, E>(wire: Wire<R, T, E>, entry: Entry, bytes: string, top: Scope<R>, rest: seq<Entry>)
    requires wire.isValorant(entry.product) && entry.blob != ""
    requires wire.padded(entry.blob) == Ok(bytes) && wire.parse(bytes) == Ok(top)
    ensures Pick(wire, entry.puuid, [entry] + rest) == Found(DecodePrivate(wire.lib, top).(
      puuid := entry.puuid, gameName := entry.gameName, tagline := entry.gameTag))
  {
    hide DecodePrivate;
    FirstDecodableWins(wire, entry.puuid, [entry] + rest, 0);
  }

  /** Reads the payload: the first decodable entry of ours, else the last
      failure among ours, else nothing. */
  method Decode<R, T, E>(wire: Wire<R, T, E>, payload: string, puuid: string) returns (r: Decoded<T, E>)
    ensures payload == "" ==> r == NoPresence
    ensures payload != "" && wire.entries(payload).Failed? ==> r == Broken(wire.entries(payload).error)
    ensures payload != "" && wire.entries(payload).Ok? ==> r == Pick(wire, puuid, wire.entries(payload).value)
    ensures r.Found? ==> r.presence.puuid == puuid
  {
    if payload == "" {
      return NoPresence;
    }
    var envelope := wire.entries(payload);
    if envelope.Failed? {
      return Broken(envelope.error);
    }
    var entries := envelope.value;
    var malformed: Option<E> := None;
    var i := 0;
    while i < |entries|
      invariant 0 <= i <= |entries|
      invariant Pick(wire, puuid, entries) ==
                Prefer(if malformed.Some? then Broken(malformed.value) else NoPresence, Pick(wire, puuid, entries[i..]))
    {
      var entry := entries[i];
      i := i + 1;
      if entry.puuid != puuid || !wire.isValorant(entry.product) {
        continue;
      }
      if entry.blob == "" {
        continue;
      }
      var bytes := Base64(wire, entry.blob);
      if bytes.Failed? {
        malformed := Some(bytes.error);
        continue;
      }
      var top := wire.parse(bytes.value);
      if top.Failed? {
        malformed := Some(top.error);
        continue;
      }
      var presence := ReadPrivate(wire.lib, top.value);
      return Found(presence.(puuid := entry.puuid, gameName := entry.gameName, tagline := entry.gameTag));
    }
    if malformed.Some? {
      return Broken(malformed.value);
    }
    return NoPresence;
  }
}
