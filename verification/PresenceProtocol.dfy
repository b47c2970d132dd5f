/** The presence Updater, the Discord client under it and what Discord shows,
    as one state machine. Every method of the Updater runs under its mutex,
    so it is one step; the outcome of a pipe write is part of the step. Steps
    that cannot happen in a state leave it alone, so every sequence of events
    is a run. */
module PresenceProtocol {
  import opened Option
  import opened GameState
  import opened PresenceMap

  /** Appended to a resend's details when they would repeat the last ones. */
  const ZERO_WIDTH_SPACE := "\U{200B}"

  datatype LastSent = LastSent(data: Option<Rpc>, cleared: bool)

  datatype Pace = HeartbeatPace | ReclaimPace

  /** What becomes of one SET_ACTIVITY: answered, lost with the pipe, or
      never written because building it failed. */
  datatype Wire = Accepted | Broken | Unsent

  /** An activity Discord accepted: a real change, a heartbeat's resend, or
      the null activity that clears. */
  datatype Frame = Real(rpc: Rpc) | Resend(rpc: Rpc) | Null

  /** armed is the debounce timer's state until it fires; waiting holds the
      callbacks that fired and still wait for the mutex. */
  datatype Updater = Updater(
    armed: Option<State>, waiting: seq<State>,
    previousRpc: Option<Rpc>, previousState: Option<State>,
    reclaimRemaining: int, heartbeating: bool,
    lastSentDetails: string, lastSent: LastSent, pace: Pace)

  /** The client's connection: shown is the activity its pipe carries, frames
      everything Discord ever accepted. */
  datatype Peer = Peer(connected: bool, connectedAppId: string, shown: Option<Rpc>, frames: seq<Frame>)

  /** appId is the configured application. */
  datatype World = World(u: Updater, peer: Peer, appId: string)

  function FreshUpdater(): Updater {
    Updater(None, [], None, None, 0, false, "", LastSent(None, false), HeartbeatPace)
  }

  function FreshWorld(appId: string): World {
    World(FreshUpdater(), Peer(false, "", None, []), appId)
  }

  // ------------------------------------------------------------- the client

  function Shows(f: Frame): Option<Rpc> {
    if f.Null? then None else Some(f.rpc)
  }

  predicate IsConnected(w: World) {
    w.peer.connected && w.peer.connectedAppId == w.appId
  }

  predicate Succeeds(p: Peer, wire: Wire) {
    p.connected && wire == Accepted
  }

  /** A dead pipe takes the activity it carried with it. */
  function Send(p: Peer, f: Frame, wire: Wire): Peer {
    if !p.connected || wire == Unsent then p
    else if wire == Broken then p.(connected := false, shown := None)
    else p.(shown := Shows(f), frames := p.frames + [f])
  }

  // ------------------------------------------------------------ the updater

  function StartBurst(n: int, u: Updater): Updater {
    u.(heartbeating := true, reclaimRemaining := n, pace := if n > 0 then ReclaimPace else u.pace)
  }

  function StopHeartbeat(u: Updater): Updater {
    if u.reclaimRemaining > 0
    then u.(heartbeating := false, reclaimRemaining := 0, pace := HeartbeatPace)
    else u.(heartbeating := false)
  }

  /** A real payload went out: remember it and start defending it. */
  function Sent(n: int, u: Updater, rpc: Rpc): Updater {
    StartBurst(n, u.(previousRpc := Some(rpc), lastSentDetails := rpc.details, lastSent := LastSent(Some(rpc), false)))
  }

  /** Presence goes away, whether or not Discord hears of it. */
  function Cleared(w: World, wire: Wire, previous: Option<State>): World {
    var peer := if IsConnected(w) then Send(w.peer, Null, wire) else w.peer;
    var u := w.u.(previousRpc := None, previousState := previous, lastSent := LastSent(None, true));
    w.(peer := peer, u := StopHeartbeat(u))
  }

  function SendReal(n: int, w: World, onSuccess: Updater, onFailure: Updater, rpc: Rpc, wire: Wire): World {
    w.(peer := Send(w.peer, Real(rpc), wire),
       u := if Succeeds(w.peer, wire) then Sent(n, onSuccess, rpc) else onFailure)
  }

  function DelayUpdate(u: Updater, st: State): Updater {
    if u.previousState == Some(st) then u else u.(armed := Some(st))
  }

  function ExecuteUpdate(n: int, w: World, st: State, rpc: Rpc, clear: bool, wire: Wire): World {
    var u := w.u.(previousState := Some(st));
    if clear then Cleared(w, wire, Some(st))
    else if u.previousRpc == Some(rpc) then w.(u := u)
    else SendReal(n, w, u, u, rpc, wire)
  }

  function ImmediateUpdate(n: int, w: World, st: State, rpc: Rpc, clear: bool, wire: Wire): World {
    var u := w.u.(armed := None);
    if clear then Cleared(w.(u := u), wire, Some(st))
    else SendReal(n, w, u.(previousState := Some(st)), u, rpc, wire)
  }

  function ClearPresence(w: World, wire: Wire): World {
    Cleared(w.(u := w.u.(armed := None)), wire, None)
  }

  function Marked(rpc: Rpc): Rpc { rpc.(details := rpc.details + ZERO_WIDTH_SPACE) }

  /** The tick's share of the reclaim burst. */
  function Countdown(u: Updater): Updater {
    if u.reclaimRemaining <= 0 then u
    else u.(reclaimRemaining := u.reclaimRemaining - 1,
            pace := if u.reclaimRemaining == 1 then HeartbeatPace else u.pace)
  }

  function Heartbeat(w: World, wire: Wire): World {
    var u := Countdown(w.u);
    if !u.heartbeating || u.previousRpc == None || !IsConnected(w) then w.(u := u)
    else
      var rpc := u.previousRpc.value;
      var resend := if rpc.details == u.lastSentDetails then Marked(rpc) else rpc;
      w.(peer := Send(w.peer, Resend(resend), wire),
         u := if Succeeds(w.peer, wire)
              then u.(lastSentDetails := resend.details, lastSent := LastSent(Some(rpc), false))
              else u)
  }

  // ------------------------------------------------------------------- runs

  /** One locked step of the system. rpc and clear are whatever the mapping
      makes of the state at that moment. */
  datatype Event =
    | Delay(st: State)
    | TimerDue
    | Execute(i: nat, rpc: Rpc, clear: bool, wire: Wire)
    | Immediate(st: State, rpc: Rpc, clear: bool, wire: Wire)
    | Clear(wire: Wire)
    | Beat(wire: Wire)
    | Connect
    | Disconnect
    | SetAppId(id: string)

  function Step(n: int, w: World, e: Event): World {
    match e
    case Delay(st) => w.(u := DelayUpdate(w.u, st))
    case TimerDue =>
      if w.u.armed == None then w
      else w.(u := w.u.(armed := None, waiting := w.u.waiting + [w.u.armed.value]))
    case Execute(i, rpc, clear, wire) =>
      if i >= |w.u.waiting| then w
      else
        var st := w.u.waiting[i];
        var rest := w.u.waiting[..i] + w.u.waiting[i + 1..];
        ExecuteUpdate(n, w.(u := w.u.(waiting := rest)), st, rpc, clear, wire)
    case Immediate(st, rpc, clear, wire) => ImmediateUpdate(n, w, st, rpc, clear, wire)
    case Clear(wire) => ClearPresence(w, wire)
    case Beat(wire) => Heartbeat(w, wire)
    case Connect => w.(peer := w.peer.(connected := true, connectedAppId := w.appId, shown := None))
    case Disconnect => w.(peer := w.peer.(connected := false, shown := None))
    case SetAppId(id) => w.(appId := id)
  }

  function Run(n: int, w: World, es: seq<Event>): World
    decreases |es|
  {
    if es == [] then w else Run(n, Step(n, w, es[0]), es[1..])
  }

  // -------------------------------------------------------- the frame trace

  /** The real payload the last frame of t belongs to. */
  function Origin(t: seq<Frame>): Option<Rpc> {
    if t == [] then None
    else match t[|t| - 1]
      case Real(rpc) => Some(rpc)
      case Resend(_) => Origin(t[..|t| - 1])
      case Null => None
  }

  /** How many resends t ends with. */
  function Streak(t: seq<Frame>): nat {
    if t == [] || !t[|t| - 1].Resend? then 0 else 1 + Streak(t[..|t| - 1])
  }

  /** The k-th resend of rpc: marked, plain, marked, ... */
  function Toggled(rpc: Rpc, k: nat): Rpc {
    if k % 2 == 1 then Marked(rpc) else rpc
  }

  /** Every resend is the next turn of its real payload's alternation. */
  predicate Alternates(t: seq<Frame>) {
    t == []
    || (var front, last := t[..|t| - 1], t[|t| - 1];
        && Alternates(front)
        && (last.Resend? ==> Origin(front).Some? && last.rpc == Toggled(Origin(front).value, Streak(front) + 1)))
  }

  // -------------------------------------------------------------- invariant

  /** n is the configured burst count. */
  predicate Inv(n: int, w: World) {
    && (w.u.heartbeating <==> w.u.previousRpc.Some?)
    && w.u.lastSent.data == w.u.previousRpc
    && (w.u.lastSent.cleared ==> w.u.lastSent.data == None)
    && (w.u.pace == ReclaimPace <==> w.u.reclaimRemaining > 0)
    && (n > 0 ==> 0 <= w.u.reclaimRemaining <= n)
    && (n <= 0 ==> w.u.reclaimRemaining <= 0)
    && (!w.peer.connected ==> w.peer.shown == None)
    && Alternates(w.peer.frames)
    && (w.u.previousRpc.Some? ==>
          && Origin(w.peer.frames) == w.u.previousRpc
          && w.u.lastSentDetails == Toggled(w.u.previousRpc.value, Streak(w.peer.frames)).details)
  }

  lemma OneMoreFrame(t: seq<Frame>, f: Frame)
    ensures (t + [f])[..|t|] == t
    ensures Origin(t + [f]) == (if f.Real? then Some(f.rpc) else if f.Resend? then Origin(t) else None)
    ensures Streak(t + [f]) == (if f.Resend? then Streak(t) + 1 else 0)
    ensures Alternates(t + [f]) <==>
      Alternates(t) && (f.Resend? ==> Origin(t).Some? && f.rpc == Toggled(Origin(t).value, Streak(t) + 1))
  {
    assert (t + [f])[..|t|] == t;
  }

  lemma InvStep(n: int, w: World, e: Event)
    requires Inv(n, w)
    ensures Inv(n, Step(n, w, e))
  {
    hide Origin, Streak, Alternates, Heartbeat;
    var t := w.peer.frames;
    match e
    case Execute(_, rpc, _, _) => OneMoreFrame(t, Real(rpc)); OneMoreFrame(t, Null);
    case Immediate(_, rpc, _, _) => OneMoreFrame(t, Real(rpc)); OneMoreFrame(t, Null);
    case Clear(_) => OneMoreFrame(t, Null);
    case Beat(wire) => InvBeat(n, w, wire);
    case _ =>
  }

  lemma InvBeat(n: int, w: World, wire: Wire)
    requires Inv(n, w)
    ensures Inv(n, Heartbeat(w, wire))
  {
    hide Origin, Streak, Alternates;
    if w.u.previousRpc.Some? {
      var t := w.peer.frames;
      MarkedDiffers(w.u.previousRpc.value);
      OneMoreFrame(t, Resend(Toggled(w.u.previousRpc.value, Streak(t) + 1)));
    }
  }

  lemma MarkedDiffers(rpc: Rpc)
    ensures Marked(rpc).details != rpc.details
  {
    assert |Marked(rpc).details| == |rpc.details| + 1;
  }

  lemma InvInitially(n: int, appId: string)
    ensures Inv(n, FreshWorld(appId))
  {
  }

  /** Over every interleaving, failed writes included. */
  lemma {:induction false} InvAlways(n: int, w: World, es: seq<Event>)
    requires Inv(n, w)
    ensures Inv(n, Run(n, w, es))
    decreases |es|
  {
    if es != [] {
      InvStep(n, w, es[0]);
      InvAlways(n, Step(n, w, es[0]), es[1..]);
    }
  }

  // ------------------------------------------- what a run's trace looks like

  /** In every run: a resend follows a frame that carries a payload and its
      details differ from that frame's; it repeats the last real payload with
      a mark on every other resend and never more than one. */
  lemma ResendsAlternate(n: int, appId: string, es: seq<Event>, i: nat)
    requires i < |Run(n, FreshWorld(appId), es).peer.frames|
    requires Run(n, FreshWorld(appId), es).peer.frames[i].Resend?
    ensures var t := Run(n, FreshWorld(appId), es).peer.frames;
      && i > 0 && !t[i - 1].Null? && t[i].rpc.details != t[i - 1].rpc.details
      && exists j :: 0 <= j < i && t[j].Real?
           && (forall k :: j < k <= i ==> t[k].Resend?)
           && t[i].rpc == Toggled(t[j].rpc, i - j)
  {
    InvInitially(n, appId);
    InvAlways(n, FreshWorld(appId), es);
    var t := Run(n, FreshWorld(appId), es).peer.frames;
    var j := RealBehind(t, i);
    MarkedDiffers(t[j].rpc);
    if i - 1 > j {
      var k := RealBehind(t, i - 1);
      assert !t[k].Resend? && !t[j].Resend? && k == j;
    }
  }

  lemma {:induction false} AlternatesFront(t: seq<Frame>, i: nat)
    requires Alternates(t) && i <= |t|
    ensures Alternates(t[..i])
  {
    if i < |t| {
      AlternatesFront(t[..|t| - 1], i);
      assert t[..|t| - 1][..i] == t[..i];
    } else {
      assert t[..i] == t;
    }
  }

  /** The real payload a resend belongs to, with only resends between. */
  lemma {:induction false} OriginMeaning(t: seq<Frame>) returns (j: nat)
    requires Origin(t).Some?
    ensures Streak(t) < |t| && j == |t| - 1 - Streak(t)
    ensures t[j] == Real(Origin(t).value)
    ensures forall k :: j < k < |t| ==> t[k].Resend?
  {
    j := |t| - 1;
    if t[|t| - 1].Resend? {
      var front := t[..|t| - 1];
      j := OriginMeaning(front);
      assert forall k :: 0 <= k < |front| ==> front[k] == t[k];
    }
  }

  lemma RealBehind(t: seq<Frame>, i: nat) returns (j: nat)
    requires Alternates(t) && i < |t| && t[i].Resend?
    ensures j < i && t[j].Real? && (forall k :: j < k <= i ==> t[k].Resend?)
    ensures t[i].rpc == Toggled(t[j].rpc, i - j)
  {
    AlternatesFront(t, i + 1);
    assert t[..i + 1][..i] == t[..i];
    j := OriginMeaning(t[..i]);
    assert forall k :: 0 <= k < i ==> t[..i][k] == t[k];
  }

  // ------------------------------------------------- what each step does

  /** The clear a step performs, if it performs one, and how it fares. */
  function ClearOf(w: World, e: Event): Option<Wire> {
    match e
    case Execute(i, _, clear, wire) => if clear && i < |w.u.waiting| then Some(wire) else None
    case Immediate(_, _, clear, wire) => if clear then Some(wire) else None
    case Clear(wire) => Some(wire)
    case _ => None
  }

  /** What a step tries to put on the wire. A clear and a heartbeat ask first
      whether the client is connected under the configured id, a real payload
      does not; a callback's payload must be news. */
  function Attempt(w: World, e: Event): Option<Frame> {
    var reachable := w.peer.connected && w.peer.connectedAppId == w.appId;
    if ClearOf(w, e).Some? then if reachable then Some(Null) else None
    else if e.Immediate? && w.peer.connected then Some(Real(e.rpc))
    else if e.Execute? && e.i < |w.u.waiting| && w.u.previousRpc != Some(e.rpc) && w.peer.connected then
      Some(Real(e.rpc))
    else if e.Beat? && w.u.previousRpc.Some? && reachable then
      Some(Resend(Toggled(w.u.previousRpc.value, Streak(w.peer.frames) + 1)))
    else None
  }

  function WireOf(e: Event): Wire {
    if e.Execute? || e.Immediate? || e.Clear? || e.Beat? then e.wire else Unsent
  }

  /** Exactly which steps write which frame: an accepted one is on record and
      on show, a broken one takes the connection and its activity with it, and
      everything else leaves the wire alone. */
  lemma WireStep(n: int, w: World, e: Event)
    requires Inv(n, w)
    ensures
      var f, p, q := Attempt(w, e), w.peer, Step(n, w, e).peer;
      if f.Some? && WireOf(e) == Accepted then q == p.(frames := p.frames + [f.value], shown := Shows(f.value))
      else if f.Some? && WireOf(e) == Broken then q == p.(connected := false, shown := None)
      else if e.Connect? then q == p.(connected := true, connectedAppId := w.appId, shown := None)
      else if e.Disconnect? then q == p.(connected := false, shown := None)
      else q == p
  {
    hide Origin, Streak, Alternates;
    if w.u.previousRpc.Some? {
      MarkedDiffers(w.u.previousRpc.value);
    }
  }

  /** What each step does to the payload under defense and to the record. */
  lemma RecordStep(n: int, w: World, e: Event)
    requires Inv(n, w)
    ensures
      var f, v := Attempt(w, e), Step(n, w, e).u;
      var sent := f.Some? && WireOf(e) == Accepted;
      if ClearOf(w, e).Some? then v.previousRpc == None && v.lastSent == LastSent(None, true)
      else if sent && f.value.Real? then
        v.previousRpc == Some(f.value.rpc) && v.lastSent == LastSent(Some(f.value.rpc), false)
      else
        && v.previousRpc == w.u.previousRpc && v.lastSent.data == w.u.lastSent.data
        && v.lastSent.cleared == w.u.lastSent.cleared
  {
    hide Origin, Streak, Alternates;
  }

  /** What each step does to the debounce timer and the callbacks it started. */
  lemma TimerStep(n: int, w: World, e: Event)
    ensures
      var u, v := w.u, Step(n, w, e).u;
      && v.armed == (if e.Delay? then if u.previousState == Some(e.st) then u.armed else Some(e.st)
                     else if e.TimerDue? || e.Immediate? || e.Clear? then None
                     else u.armed)
      && v.waiting == (if e.TimerDue? && u.armed.Some? then u.waiting + [u.armed.value]
                       else if e.Execute? && e.i < |u.waiting| then u.waiting[..e.i] + u.waiting[e.i + 1..]
                       else u.waiting)
  {
    hide Send, Succeeds, IsConnected, Heartbeat;
    match e
    case Beat(wire) => BeatLeavesTimer(w, wire);
    case _ =>
  }

  /** The state a step makes the remembered one: that of the callback that got
      the mutex, of the immediate update that was sent or cleared, or none. */
  function Remembers(w: World, e: Event): Option<Option<State>> {
    if e.Clear? then Some(None)
    else if e.Immediate? && (e.clear || (w.peer.connected && e.wire == Accepted)) then Some(Some(e.st))
    else if e.Execute? && e.i < |w.u.waiting| then Some(Some(w.u.waiting[e.i]))
    else None
  }

  lemma RememberStep(n: int, w: World, e: Event)
    ensures Step(n, w, e).u.previousState ==
            if Remembers(w, e).Some? then Remembers(w, e).value else w.u.previousState
  {
    hide Send, IsConnected;
  }

  predicate RemembersNothing(n: int, w: World, es: seq<Event>)
    decreases |es|
  {
    es == [] || (Remembers(w, es[0]).None? && RemembersNothing(n, Step(n, w, es[0]), es[1..]))
  }

  /** Along any run the remembered state is the one the last such step left,
      and the one the run began with if there was none. */
  lemma {:induction false} RememberedSince(n: int, w: World, es: seq<Event>)
    requires RemembersNothing(n, w, es)
    ensures Run(n, w, es).u.previousState == w.u.previousState
    decreases |es|
  {
    hide Step, Remembers;
    if es != [] {
      RememberStep(n, w, es[0]);
      RememberedSince(n, Step(n, w, es[0]), es[1..]);
    }
  }

  lemma LastRemembered(n: int, w: World, e: Event, es: seq<Event>)
    requires Remembers(w, e).Some? && RemembersNothing(n, Step(n, w, e), es)
    ensures Run(n, w, [e] + es).u.previousState == Remembers(w, e).value
  {
    hide Step, Remembers;
    RememberStep(n, w, e);
    assert ([e] + es)[1..] == es;
    RememberedSince(n, Step(n, w, e), es);
  }

  /** After an immediate update the same state is debounced again exactly when
      the update failed and the state was not remembered before. */
  lemma FailedUpdateIsRetried(n: int, w: World, st: State, rpc: Rpc, wire: Wire)
    ensures Step(n, Step(n, w, Immediate(st, rpc, false, wire)), Delay(st)).u.armed == Some(st)
      <==> !(w.peer.connected && wire == Accepted) && w.u.previousState != Some(st)
  {
    hide Step;
    var e := Immediate(st, rpc, false, wire);
    RememberStep(n, w, e);
    TimerStep(n, w, e);
    TimerStep(n, Step(n, w, e), Delay(st));
  }

  lemma ImmediateSends(n: int, w: World, st: State, rpc: Rpc)
    requires w.peer.connected
    ensures Step(n, w, Immediate(st, rpc, false, Accepted)).peer
         == w.peer.(frames := w.peer.frames + [Real(rpc)], shown := Some(rpc))
  {
  }

  /** What a mapped state leaves on show, once it reaches Discord: nothing when
      the settings hide its phase, its payload otherwise. */
  lemma HiddenPhaseShowsNothing(n: int, w: World, env: Env, st: State, cfg: Config)
    requires Inv(n, w) && w.peer.connected && w.peer.connectedAppId == w.appId
    ensures
      var hidden := !cfg.showInClient && PhaseOf(env.casing, st) in {InClient, InLobby};
      var rpc := MapStateToPresence(env, st, cfg);
      Step(n, w, Immediate(st, rpc, ShouldClearPresence(env, st, cfg), Accepted)).peer.shown
      == if hidden then None else Some(rpc)
  {
    hide Step, Inv, PhaseOf, MapStateToPresence;
    WireStep(n, w, Immediate(st, MapStateToPresence(env, st, cfg), ShouldClearPresence(env, st, cfg), Accepted));
  }

  // -------------------------------------------------------- what Discord shows

  /** Discord shows nothing, or the payload on record up to one mark. */
  predicate ShownAgrees(w: World) {
    match w.peer.shown
    case None => true
    case Some(r) => w.u.lastSent.data.Some? && r in {w.u.lastSent.data.value, Marked(w.u.lastSent.data.value)}
  }

  /** A clear Discord hears of, or one that finds nothing to clear. */
  predicate ClearLands(w: World, wire: Wire) {
    w.peer.connected ==> IsConnected(w) && wire != Unsent
  }

  /** No clear, one that lands, or one with nothing on show. */
  predicate ClearTells(w: World, e: Event) {
    ClearOf(w, e).None? || ClearLands(w, ClearOf(w, e).value) || w.peer.shown == None
  }

  predicate EveryClearTells(n: int, w: World, es: seq<Event>)
    decreases |es|
  {
    es == [] || (ClearTells(w, es[0]) && EveryClearTells(n, Step(n, w, es[0]), es[1..]))
  }

  lemma ShownBeat(n: int, w: World, wire: Wire)
    requires Inv(n, w) && ShownAgrees(w)
    ensures ShownAgrees(Heartbeat(w, wire))
  {
    hide Origin, Streak, Alternates;
  }

  lemma ShownClear(w: World, wire: Wire, previous: Option<State>)
    requires w.peer.shown.Some? ==> w.peer.connected
    ensures ShownAgrees(Cleared(w, wire, previous)) <==> ClearLands(w, wire) || w.peer.shown == None
  {
  }

  /** One step keeps the record truthful, except a clear: that one keeps it
      truthful exactly when it lands or Discord shows nothing anyway. */
  lemma ShownStep(n: int, w: World, e: Event)
    requires Inv(n, w) && ShownAgrees(w)
    ensures ShownAgrees(Step(n, w, e)) <==> ClearTells(w, e)
  {
    hide Origin, Streak, Alternates, Heartbeat, Cleared;
    match e
    case Beat(wire) => ShownBeat(n, w, wire);
    case Clear(wire) => ShownClear(w.(u := w.u.(armed := None)), wire, None);
    case Immediate(st, _, _, wire) => ShownClear(w.(u := w.u.(armed := None)), wire, Some(st));
    case Execute(i, _, _, wire) =>
      if i < |w.u.waiting| {
        ShownClear(w.(u := w.u.(waiting := w.u.waiting[..i] + w.u.waiting[i + 1..])), wire, Some(w.u.waiting[i]));
      }
    case _ =>
  }

  /** The record is true in every state of the run. */
  predicate ShownThroughout(n: int, w: World, es: seq<Event>)
    decreases |es|
  {
    ShownAgrees(w) && (es == [] || ShownThroughout(n, Step(n, w, es[0]), es[1..]))
  }

  /** Along a run: the record is true throughout exactly when every clear
      lands or finds nothing shown. */
  lemma {:induction false} ShownAlongRun(n: int, w: World, es: seq<Event>)
    requires Inv(n, w) && ShownAgrees(w)
    ensures ShownThroughout(n, w, es) <==> EveryClearTells(n, w, es)
    decreases |es|
  {
    hide Inv, ShownAgrees, ClearTells, Step;
    if es != [] {
      var v := Step(n, w, es[0]);
      InvStep(n, w, es[0]);
      ShownStep(n, w, es[0]);
      if ShownAgrees(v) {
        ShownAlongRun(n, v, es[1..]);
      } else {
        NotThroughout(n, v, es[1..]);
      }
    }
  }

  lemma NotThroughout(n: int, w: World, es: seq<Event>)
    requires !ShownAgrees(w)
    ensures !ShownThroughout(n, w, es)
  {
  }

  lemma {:induction false} ThroughoutAtTheEnd(n: int, w: World, es: seq<Event>)
    requires ShownThroughout(n, w, es)
    ensures ShownAgrees(Run(n, w, es))
    decreases |es|
  {
    hide ShownAgrees, Step;
    if es != [] {
      ThroughoutAtTheEnd(n, Step(n, w, es[0]), es[1..]);
    }
  }

  /** The preview may trust the record: in a run whose clears land or find
      nothing shown, Discord shows nothing or the last recorded payload up to
      one trailing mark, and nothing at all once the record says cleared. */
  lemma RecordIsWhatDiscordShows(n: int, appId: string, es: seq<Event>)
    requires EveryClearTells(n, FreshWorld(appId), es)
    ensures
      var w := Run(n, FreshWorld(appId), es);
      ShownAgrees(w) && (w.u.lastSent.cleared ==> w.peer.shown == None)
  {
    InvInitially(n, appId);
    InvAlways(n, FreshWorld(appId), es);
    ShownAlongRun(n, FreshWorld(appId), es);
    ThroughoutAtTheEnd(n, FreshWorld(appId), es);
  }

  /** Events of a session with one application id in which a clear that fails
      takes the pipe with it. */
  predicate KeepsApp(e: Event) {
    && !e.SetAppId?
    && (e.Clear? || ((e.Execute? || e.Immediate?) && e.clear) ==> e.wire != Unsent)
  }

  lemma {:induction false} FixedAppClearsLand(n: int, w: World, es: seq<Event>)
    requires w.peer.connected ==> w.peer.connectedAppId == w.appId
    requires forall e :: e in es ==> KeepsApp(e)
    ensures EveryClearTells(n, w, es)
    decreases |es|
  {
    if es != [] {
      assert es[0] in es;
      SameAppStep(n, w, es[0]);
      hide Step, ClearTells, KeepsApp;
      FixedAppClearsLand(n, Step(n, w, es[0]), es[1..]);
    }
  }

  lemma SameAppStep(n: int, w: World, e: Event)
    requires (w.peer.connected ==> w.peer.connectedAppId == w.appId) && KeepsApp(e)
    ensures
      var v := Step(n, w, e);
      v.peer.connected ==> v.peer.connectedAppId == v.appId
    ensures ClearTells(w, e)
  {
  }

  /** For one application id, whatever fails on the wire: Discord shows nothing
      or the recorded payload up to one trailing mark, and nothing at all once
      the record says cleared. */
  lemma FixedAppRecordIsTrue(n: int, appId: string, es: seq<Event>)
    requires forall e :: e in es ==> KeepsApp(e)
    ensures
      var w := Run(n, FreshWorld(appId), es);
      ShownAgrees(w) && (w.u.lastSent.cleared ==> w.peer.shown == None)
  {
    FixedAppClearsLand(n, FreshWorld(appId), es);
    RecordIsWhatDiscordShows(n, appId, es);
  }

  /** A clear under a changed application id is dropped in silence and still
      recorded: Discord keeps showing what the record calls cleared. */
  lemma DroppedClearIsRecorded(rpc: Rpc, st: State)
    ensures var w := Run(8, FreshWorld("old"),
        [Connect, Immediate(st, rpc, false, Accepted), SetAppId("new"), Clear(Accepted)]);
      w.u.lastSent == LastSent(None, true) && w.peer.shown == Some(rpc)
  {
    var w1 := Step(8, FreshWorld("old"), Connect);
    var w2 := Step(8, w1, Immediate(st, rpc, false, Accepted));
    var w3 := Step(8, w2, SetAppId("new"));
    var w4 := Step(8, w3, Clear(Accepted));
    assert Run(8, w3, [Clear(Accepted)]) == Run(8, w4, []);
    assert Run(8, w2, [SetAppId("new"), Clear(Accepted)]) == w4;
    assert Run(8, w1, [Immediate(st, rpc, false, Accepted), SetAppId("new"), Clear(Accepted)]) == w4;
  }

  // -------------------------------------------------------- the reclaim burst

  /** A real payload goes out: at once, or from a callback whose payload is
      news. */
  predicate SendsReal(w: World, e: Event) {
    match e
    case Immediate(_, _, clear, wire) => !clear && Succeeds(w.peer, wire)
    case Execute(i, rpc, clear, wire) =>
      i < |w.u.waiting| && !clear && w.u.previousRpc != Some(rpc) && Succeeds(w.peer, wire)
    case _ => false
  }

  /** Neither a real send nor a clear: failed sends and unchanged payloads
      included. */
  predicate SparesBurst(w: World, e: Event) {
    !SendsReal(w, e) && ClearOf(w, e).None?
  }

  predicate SparesAlong(n: int, w: World, es: seq<Event>)
    decreases |es|
  {
    es == [] || (SparesBurst(w, es[0]) && SparesAlong(n, Step(n, w, es[0]), es[1..]))
  }

  function Beats(es: seq<Event>): nat {
    if es == [] then 0 else (if es[0].Beat? then 1 else 0) + Beats(es[1..])
  }

  /** What k ticks leave of a burst of r. */
  function Drained(r: int, k: nat): int {
    if r <= 0 then r else if r > k then r - k else 0
  }

  /** What any step does to the burst: a real send starts it over, a clear ends
      it, a tick takes one, nothing else touches it. */
  lemma BurstStep(n: int, w: World, e: Event)
    ensures Step(n, w, e).u.reclaimRemaining ==
            if SendsReal(w, e) then n
            else if ClearOf(w, e).Some? && w.u.reclaimRemaining > 0 then 0
            else if ClearOf(w, e).Some? then w.u.reclaimRemaining
            else Drained(w.u.reclaimRemaining, if e.Beat? then 1 else 0)
  {
  }

  /** k ticks use up k of the burst, sent or not, whatever else happens until
      the next real send or clear. */
  lemma {:induction false} TicksDrainTheBurst(n: int, w: World, es: seq<Event>)
    requires SparesAlong(n, w, es)
    ensures Run(n, w, es).u.reclaimRemaining == Drained(w.u.reclaimRemaining, Beats(es))
    decreases |es|
  {
    hide Step, SendsReal;
    if es != [] {
      BurstStep(n, w, es[0]);
      TicksDrainTheBurst(n, Step(n, w, es[0]), es[1..]);
    }
  }

  /** A real send, at once or debounced, restarts the whole burst. */
  lemma RealSendStartsBurst(n: int, w: World, e: Event, es: seq<Event>)
    requires SendsReal(w, e) && SparesAlong(n, Step(n, w, e), es)
    ensures Run(n, w, [e] + es).u.reclaimRemaining == Drained(n, Beats(es))
  {
    hide Step, SendsReal;
    BurstStep(n, w, e);
    assert ([e] + es)[1..] == es;
    TicksDrainTheBurst(n, Step(n, w, e), es);
  }

  // ----------------------------------------------------------- the debounce

  function DelayAll(u: Updater, ss: seq<State>): Updater {
    if ss == [] then u else DelayUpdate(DelayAll(u, ss[..|ss| - 1]), ss[|ss| - 1])
  }

  /** The last call that was not skipped, if any. */
  function LastKept(previous: Option<State>, ss: seq<State>): Option<State> {
    if ss == [] then None
    else if previous != Some(ss[|ss| - 1]) then Some(ss[|ss| - 1])
    else LastKept(previous, ss[..|ss| - 1])
  }

  /** A burst of calls leaves one armed timer, with the last call not skipped. */
  lemma {:induction false} DebounceKeepsLast(u: Updater, ss: seq<State>)
    ensures var last := LastKept(u.previousState, ss);
      DelayAll(u, ss) == u.(armed := if last.Some? then last else u.armed)
  {
    if ss != [] {
      DebounceKeepsLast(u, ss[..|ss| - 1]);
    }
  }

  /** The last call of a burst is the one left armed exactly when it is not
      the state already sent, or nothing else was ever scheduled. */
  predicate ArmsLast(u: Updater, ss: seq<State>)
    requires ss != []
  {
    var last := ss[|ss| - 1];
    u.previousState != Some(last) || (u.armed == Some(last) && forall s :: s in ss ==> s == last)
  }

  lemma LastCallIsArmed(u: Updater, ss: seq<State>)
    requires ss != []
    ensures DelayAll(u, ss).armed == Some(ss[|ss| - 1]) <==> ArmsLast(u, ss)
    ensures DelayAll(u, ss).armed == None <==> u.armed == None && forall s :: s in ss ==> u.previousState == Some(s)
  {
    var last := ss[|ss| - 1];
    DebounceKeepsLast(u, ss);
    if u.previousState == Some(last) {
      KeptIsNotPrevious(last, ss);
      assert last in ss;
    } else {
      assert LastKept(u.previousState, ss) == Some(last);
      assert last in ss;
    }
  }

  lemma {:induction false} KeptIsNotPrevious(previous: State, ss: seq<State>)
    ensures LastKept(Some(previous), ss) != Some(previous)
    ensures LastKept(Some(previous), ss) == None <==> forall s :: s in ss ==> s == previous
  {
    if ss != [] {
      var front, last := ss[..|ss| - 1], ss[|ss| - 1];
      KeptIsNotPrevious(previous, front);
      assert ss == front + [last];
      assert last in ss && forall s :: s in ss <==> s in front || s == last;
    }
  }

  /** What may happen between the calls of a burst. */
  predicate WithinBurst(e: Event) {
    e.Delay? || e.Beat? || e.Connect? || e.Disconnect? || e.SetAppId?
  }

  /** The calls of DelayUpdate among es. */
  function Calls(es: seq<Event>): seq<State> {
    if es == [] then []
    else Calls(es[..|es| - 1]) + if es[|es| - 1].Delay? then [es[|es| - 1].st] else []
  }

  lemma {:induction false} RunSnoc(n: int, w: World, es: seq<Event>, e: Event)
    ensures Run(n, w, es + [e]) == Step(n, Run(n, w, es), e)
    decreases |es|
  {
    hide Step;
    if es == [] {
      assert [] + [e] == [e];
      assert Run(n, w, [e]) == Run(n, Step(n, w, e), []);
    } else {
      assert (es + [e])[1..] == es[1..] + [e];
      RunSnoc(n, Step(n, w, es[0]), es[1..], e);
    }
  }

  lemma {:induction false} RunConcat(n: int, w: World, a: seq<Event>, b: seq<Event>)
    ensures Run(n, w, a + b) == Run(n, Run(n, w, a), b)
    decreases |a|
  {
    hide Step;
    if a == [] {
      assert a + b == b;
    } else {
      assert (a + b)[1..] == a[1..] + b;
      RunConcat(n, Step(n, w, a[0]), a[1..], b);
    }
  }

  lemma RunTwo(n: int, w: World, a: Event, b: Event)
    ensures Run(n, w, [a, b]) == Step(n, Step(n, w, a), b)
  {
    hide Step;
    assert [a, b][1..] == [b];
    assert Run(n, Step(n, w, a), [b]) == Run(n, Step(n, Step(n, w, a), b), []);
  }

  lemma RunThree(n: int, w: World, a: Event, b: Event, c: Event)
    ensures Run(n, w, [a, b, c]) == Step(n, Step(n, Step(n, w, a), b), c)
  {
    hide Step;
    assert [a, b, c][1..] == [b, c];
    RunTwo(n, Step(n, w, a), b, c);
  }

  /** A burst fires and runs nothing: it only moves the armed state. */
  lemma {:induction false} BurstArms(n: int, w: World, es: seq<Event>)
    requires forall e :: e in es ==> WithinBurst(e)
    ensures
      var u := Run(n, w, es).u;
      && u.waiting == w.u.waiting && u.previousState == w.u.previousState
      && u.armed == DelayAll(w.u, Calls(es)).armed
    decreases |es|
  {
    if es != [] {
      var front, last := es[..|es| - 1], es[|es| - 1];
      assert es == front + [last];
      assert last in es && forall e :: e in front ==> e in es;
      BurstArms(n, w, front);
      RunSnoc(n, w, front, last);
      DebounceKeepsLast(w.u, Calls(front));
      var v := Run(n, w, front);
      BetweenCalls(n, v, last);
      var ss := Calls(es);
      if last.Delay? {
        assert ss == Calls(front) + [last.st] && ss[..|ss| - 1] == Calls(front);
      } else {
        assert ss == Calls(front);
      }
    }
  }

  lemma BetweenCalls(n: int, w: World, e: Event)
    requires WithinBurst(e)
    ensures
      var u := Step(n, w, e).u;
      && u.waiting == w.u.waiting && u.previousState == w.u.previousState
      && u.armed == if e.Delay? then DelayUpdate(w.u, e.st).armed else w.u.armed
  {
  }

  /** The states whose callbacks ran, in the order they got the mutex. */
  function Executed(n: int, w: World, es: seq<Event>): seq<State>
    decreases |es|
  {
    if es == [] then []
    else
      (if es[0].Execute? && es[0].i < |w.u.waiting| then [w.u.waiting[es[0].i]] else [])
      + Executed(n, Step(n, w, es[0]), es[1..])
  }

  /** Whatever happens unprompted from here on, st is executed at most once and
      nothing else is, and it can be. */
  ghost predicate OnlyExecutes(n: int, w: World, st: State) {
    && (forall es :: (forall e :: e in es ==> Unprompted(e)) ==> Executed(n, w, es) <= [st])
    && (exists es :: (forall e :: e in es ==> Unprompted(e)) && Executed(n, w, es) == [st])
  }

  lemma BeatLeavesTimer(w: World, wire: Wire)
    ensures Heartbeat(w, wire).u.armed == w.u.armed && Heartbeat(w, wire).u.waiting == w.u.waiting
  {
    hide Send, Succeeds, IsConnected;
  }

  lemma UnpromptedStep(n: int, w: World, e: Event)
    requires Unprompted(e) && w.u.armed == None
    ensures
      var v := Step(n, w, e);
      && v.u.armed == None
      && v.u.waiting == if e.Execute? && e.i < |w.u.waiting|
                        then w.u.waiting[..e.i] + w.u.waiting[e.i + 1..] else w.u.waiting
  {
    hide Send, Succeeds, IsConnected, Heartbeat;
    match e
    case Beat(wire) => BeatLeavesTimer(w, wire);
    case _ =>
  }

  lemma {:induction false} ExecutesAtMost(n: int, w: World, st: State, es: seq<Event>)
    requires w.u.armed == None && (w.u.waiting == [] || w.u.waiting == [st])
    requires forall e :: e in es ==> Unprompted(e)
    ensures Executed(n, w, es) <= w.u.waiting
    decreases |es|
  {
    hide Step;
    if es != [] {
      assert es[0] in es;
      UnpromptedStep(n, w, es[0]);
      ExecutesAtMost(n, Step(n, w, es[0]), st, es[1..]);
    }
  }

  lemma ExecutesFirst(n: int, w: World, e: Event, es: seq<Event>)
    requires e.Execute? && e.i == 0 && w.u.waiting != []
    ensures Executed(n, w, [e] + es) == [w.u.waiting[0]] + Executed(n, Step(n, w, e), es)
    ensures Executed(n, w, []) == []
  {
    hide Step;
    assert ([e] + es)[1..] == es;
  }

  /** With no timer armed, what can still execute is what waits. */
  lemma OnlyTheWaitingExecutes(n: int, w: World, st: State)
    requires w.u.armed == None
    ensures OnlyExecutes(n, w, st) <==> w.u.waiting == [st]
  {
    hide Step, Executed;
    if w.u.waiting == [] || w.u.waiting == [st] {
      forall es | forall e :: e in es ==> Unprompted(e)
        ensures Executed(n, w, es) <= w.u.waiting
      {
        ExecutesAtMost(n, w, st, es);
      }
      if w.u.waiting == [st] {
        var _ := RunsFirst(n, w);
      }
    } else {
      var _ := RunsFirst(n, w);
      if |w.u.waiting| > 1 {
        var _ := RunsTwo(n, w);
      }
    }
  }

  /** Some unprompted run executes just the first waiting callback. */
  lemma RunsFirst(n: int, w: World) returns (es: seq<Event>)
    requires w.u.waiting != []
    ensures (forall e :: e in es ==> Unprompted(e)) && Executed(n, w, es) == [w.u.waiting[0]]
  {
    var e := Execute(0, Rpc("", "", "", "", "", "", 0), false, Unsent);
    es := [e] + [];
    ExecutesFirst(n, w, e, []);
    assert Executed(n, Step(n, w, e), []) == [];
    assert [w.u.waiting[0]] + [] == [w.u.waiting[0]];
  }

  /** Some unprompted run executes two of several. */
  lemma RunsTwo(n: int, w: World) returns (es: seq<Event>)
    requires |w.u.waiting| > 1 && w.u.armed == None
    ensures (forall e :: e in es ==> Unprompted(e)) && |Executed(n, w, es)| == 2
  {
    hide Step, Executed;
    var e := Execute(0, Rpc("", "", "", "", "", "", 0), false, Unsent);
    UnpromptedStep(n, w, e);
    var v := Step(n, w, e);
    ExecutesFirst(n, v, e, []);
    ExecutesFirst(n, w, e, [e]);
    es := [e] + [e];
    NothingExecuted(n, Step(n, v, e));
    assert [e] + [] == [e];
  }

  lemma NothingExecuted(n: int, w: World)
    ensures Executed(n, w, []) == []
  {
  }

  /** The documented debounce, from any state and with anything but a timer,
      a callback or a send of the caller's in between: once the timer has had
      its turn only the last call is left to execute, and it is, exactly when no
      earlier callback still waits and the last call is not the state already
      sent or is all that was ever scheduled. (Or nothing was scheduled and the
      one callback waiting happens to carry the same state.) */
  lemma OnlyTheLastCallExecutes(n: int, w: World, es: seq<Event>)
    requires (forall e :: e in es ==> WithinBurst(e)) && Calls(es) != []
    ensures
      var ss := Calls(es);
      var last := ss[|ss| - 1];
      OnlyExecutes(n, Run(n, w, es + [TimerDue]), last) <==>
        || (w.u.waiting == [] && ArmsLast(w.u, ss))
        || (w.u.waiting == [last] && w.u.armed == None && forall s :: s in ss ==> w.u.previousState == Some(s))
  {
    hide Executed, OnlyExecutes, ArmsLast, DelayAll;
    var ss := Calls(es);
    BurstArms(n, w, es);
    RunSnoc(n, w, es, TimerDue);
    LastCallIsArmed(w.u, ss);
    OnlyTheWaitingExecutes(n, Run(n, w, es + [TimerDue]), ss[|ss| - 1]);
    TimersTurn(n, Run(n, w, es), ss[|ss| - 1]);
  }

  lemma TimersTurn(n: int, w: World, st: State)
    ensures Step(n, w, TimerDue).u.armed == None
    ensures Step(n, w, TimerDue).u.waiting == [st] <==>
      (w.u.waiting == [] && w.u.armed == Some(st)) || (w.u.waiting == [st] && w.u.armed == None)
  {
    if w.u.armed.Some? {
      var fired := w.u.waiting + [w.u.armed.value];
      assert fired[|fired| - 1] == w.u.armed.value;
      assert w.u.waiting == [] ==> fired == [w.u.armed.value];
    }
  }

  /** What the run below comes to, one step at a time. */
  lemma FiredThenCalled(b: State, c: State, rpcB: Rpc, rpcC: Rpc)
    requires rpcB != rpcC
    ensures
      var fired := Step(8, Step(8, Step(8, FreshWorld("app"), Connect), Delay(b)), TimerDue);
      var ran := Step(8, Step(8, fired, Delay(c)), Execute(0, rpcB, false, Accepted));
      Step(8, Step(8, ran, TimerDue), Execute(0, rpcC, false, Accepted)).peer.frames == [Real(rpcB), Real(rpcC)]
  {
    var fired := Step(8, Step(8, Step(8, FreshWorld("app"), Connect), Delay(b)), TimerDue);
    var ran := Step(8, Step(8, fired, Delay(c)), Execute(0, rpcB, false, Accepted));
    assert ran.u.waiting == [] && ran.u.armed == Some(c);
    assert ran.u.previousRpc == Some(rpcB) && ran.peer.frames == [Real(rpcB)];
  }

  /** The timer fires, a new call follows, and both callbacks run. */
  lemma FiredCallbackRunsToo(b: State, c: State, rpcB: Rpc, rpcC: Rpc)
    requires rpcB != rpcC
    ensures Run(8, FreshWorld("app"),
                [Connect, Delay(b), TimerDue, Delay(c), Execute(0, rpcB, false, Accepted), TimerDue,
                 Execute(0, rpcC, false, Accepted)]).peer.frames == [Real(rpcB), Real(rpcC)]
  {
    hide Step, Run, FreshWorld;
    var w := FreshWorld("app");
    var eB, eC := Execute(0, rpcB, false, Accepted), Execute(0, rpcC, false, Accepted);
    FiredThenCalled(b, c, rpcB, rpcC);
    RunThree(8, w, Connect, Delay(b), TimerDue);
    var fired := Run(8, w, [Connect, Delay(b), TimerDue]);
    RunThree(8, fired, Delay(c), eB, TimerDue);
    RunConcat(8, w, [Connect, Delay(b), TimerDue], [Delay(c), eB, TimerDue]);
    var six := [Connect, Delay(b), TimerDue] + [Delay(c), eB, TimerDue];
    RunSnoc(8, w, six, eC);
    assert six + [eC] == [Connect, Delay(b), TimerDue, Delay(c), eB, TimerDue, eC];
  }

  lemma ReturnIsSkipped(u: Updater, b: State, a: State)
    requires u.previousState == Some(a) && a != b
    ensures DelayAll(u, [b, a]).armed == Some(b)
  {
    var first := DelayUpdate(u, b);
    assert [b][..0] == [] && [b, a][..1] == [b];
    assert DelayAll(u, [b]) == DelayUpdate(DelayAll(u, []), b) == first;
    assert DelayAll(u, [b, a]) == DelayUpdate(first, a);
  }

  /** What the run below comes to, one step at a time. */
  lemma SentThenReturned(a: State, b: State, rpcA: Rpc, rpcB: Rpc)
    requires a != b && rpcA != rpcB
    ensures
      var w := Step(8, Step(8, FreshWorld("app"), Connect), Immediate(a, rpcA, false, Accepted));
      var fired := Step(8, Step(8, Step(8, w, Delay(b)), Delay(a)), TimerDue);
      && w.u.previousState == Some(a)
      && Step(8, fired, Execute(0, rpcB, false, Accepted)).peer.frames == [Real(rpcA), Real(rpcB)]
  {
    var w := Step(8, Step(8, FreshWorld("app"), Connect), Immediate(a, rpcA, false, Accepted));
    assert w.u.previousState == Some(a) && w.u.previousRpc == Some(rpcA) && w.peer.frames == [Real(rpcA)];
    var back := Step(8, Step(8, w, Delay(b)), Delay(a));
    assert back == w.(u := w.u.(armed := Some(b)));
    var fired := Step(8, back, TimerDue);
    assert fired == w.(u := w.u.(armed := None, waiting := [b]));
  }

  /** A was sent, B is scheduled, the player returns to A: B still goes out. */
  lemma ReturningToTheSentStateSendsTheOther(a: State, b: State, rpcA: Rpc, rpcB: Rpc)
    requires a != b && rpcA != rpcB
    ensures
      var w := Run(8, FreshWorld("app"), [Connect, Immediate(a, rpcA, false, Accepted)]);
      DelayAll(w.u, [b, a]).armed == Some(b)
      && Run(8, w, [Delay(b), Delay(a), TimerDue, Execute(0, rpcB, false, Accepted)]).peer.frames
         == [Real(rpcA), Real(rpcB)]
  {
    hide Step, Run, FreshWorld, DelayAll;
    var sent, e := Immediate(a, rpcA, false, Accepted), Execute(0, rpcB, false, Accepted);
    var w := Run(8, FreshWorld("app"), [Connect, sent]);
    SentThenReturned(a, b, rpcA, rpcB);
    RunTwo(8, FreshWorld("app"), Connect, sent);
    ReturnIsSkipped(w.u, b, a);
    RunThree(8, w, Delay(b), Delay(a), TimerDue);
    RunSnoc(8, w, [Delay(b), Delay(a), TimerDue], e);
    assert [Delay(b), Delay(a), TimerDue] + [e] == [Delay(b), Delay(a), TimerDue, e];
  }

  // ---------------------------------------------------------- after a clear

  /** Steps nobody asks the Updater for: its ticker, its timers, the client. */
  predicate Unprompted(e: Event) {
    e.TimerDue? || e.Execute? || e.Beat? || e.Connect? || e.Disconnect? || e.SetAppId?
  }

  /** No presence to defend, no timer armed, no callback on its way. */
  predicate Quiet(u: Updater) {
    u.armed == None && !u.heartbeating && u.waiting == []
  }

  lemma {:induction false} QuietStaysQuiet(n: int, w: World, es: seq<Event>)
    requires Quiet(w.u) && forall e :: e in es ==> Unprompted(e)
    ensures Run(n, w, es).peer.frames == w.peer.frames && Quiet(Run(n, w, es).u)
    decreases |es|
  {
    if es != [] {
      assert es[0] in es;
      QuietStaysQuiet(n, Step(n, w, es[0]), es[1..]);
    }
  }

  /** What a clear leaves, whatever becomes of it on the wire. */
  lemma AfterClear(n: int, w: World, wire: Wire)
    ensures
      var v := Step(n, w, Clear(wire));
      && v.u.waiting == w.u.waiting && v.u.previousRpc == None
      && v.u.armed == None && !v.u.heartbeating
  {
  }

  /** A waiting callback with something new to say sends it once connected. */
  lemma SendAfterConnect(n: int, w: World, rpc: Rpc)
    requires w.u.waiting != [] && w.u.previousRpc != Some(rpc)
    ensures Step(n, Step(n, w, Connect), Execute(0, rpc, false, Accepted)).peer.frames == w.peer.frames + [Real(rpc)]
  {
  }

  /** So does a heartbeat with something to defend. */
  lemma BeatAfterConnect(n: int, w: World)
    requires w.u.heartbeating && w.u.previousRpc.Some?
    ensures |Step(n, Step(n, w, Connect), Beat(Accepted)).peer.frames| == |w.peer.frames| + 1
  {
  }

  /** A clear is final, nothing follows it unprompted, exactly when no timer
      callback was already waiting for the mutex: Stop cannot call it back. */
  lemma ClearIsFinal(n: int, w: World, wire: Wire)
    ensures
      var c := Step(n, w, Clear(wire));
      (forall es :: (forall e :: e in es ==> Unprompted(e)) ==> Run(n, c, es).peer.frames == c.peer.frames)
      <==> w.u.waiting == []
  {
    hide Step, Run;
    var c := Step(n, w, Clear(wire));
    AfterClear(n, w, wire);
    if w.u.waiting == [] {
      forall es | forall e :: e in es ==> Unprompted(e)
        ensures Run(n, c, es).peer.frames == c.peer.frames
      {
        QuietStaysQuiet(n, c, es);
      }
    } else {
      var rpc := Rpc("", "", "", "", "", "", 0);
      var es := [Connect, Execute(0, rpc, false, Accepted)];
      SendAfterConnect(n, c, rpc);
      RunTwo(n, c, es[0], es[1]);
      assert forall e :: e in es ==> Unprompted(e);
    }
  }
}
