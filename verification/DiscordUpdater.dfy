/** The Discord client and the presence Updater as the objects they are. Each
    method is shown to take one step of the protocol. */
module DiscordUpdater {
  import opened Option
  import opened ConfigStore
  import opened GameState
  import opened PresenceMap
  import opened PresenceProtocol

  class Client {
    const store: Store
    var hasConn: bool
    var connected: bool
    var connectedAppId: string

    ghost var shown: Option<Rpc>
    ghost var frames: seq<Frame>

    ghost predicate Valid() reads this {
      hasConn == connected && (!connected ==> shown == None)
    }

    ghost function Abs(): Peer reads this {
      Peer(connected, connectedAppId, shown, frames)
    }

    constructor (store: Store)
      ensures Valid() && this.store == store && Abs() == Peer(false, "", None, [])
    {
      this.store := store;
      hasConn, connected, connectedAppId := false, false, "";
      shown, frames := None, [];
    }

    /** Dial and handshake; either may fail and then nothing changes. */
    method Connect(dialed: bool, handshook: bool) returns (ok: bool)
      requires Valid()
      modifies this
      ensures Valid() && ok == (dialed && handshook)
      ensures Abs() == if ok then Peer(true, store.cur.discordAppId, None, old(frames)) else old(Abs())
    {
      var appId := store.cur.discordAppId;
      if !dialed || !handshook {
        return false;
      }
      hasConn, connected, connectedAppId := true, true, appId;
      shown := None;
      ok := true;
    }

    method Disconnect()
      requires Valid()
      modifies this
      ensures Valid() && Abs() == old(Abs()).(connected := false, shown := None)
    {
      hasConn, connected := false, false;
      shown := None;
    }

    method IsConnected() returns (r: bool)
      ensures r == (connected && connectedAppId == store.cur.discordAppId)
    {
      r := connected && connectedAppId == store.cur.discordAppId;
    }

    /** One SET_ACTIVITY frame; a transport failure drops the connection. */
    method SetActivity(ghost f: Frame, wire: Wire) returns (ok: bool)
      requires Valid()
      modifies this
      ensures Valid() && ok == Succeeds(old(Abs()), wire) && Abs() == Send(old(Abs()), f, wire)
    {
      if !connected || !hasConn {
        return false;
      }
      if wire == Unsent {
        return false;
      }
      if wire == Broken {
        connected, hasConn := false, false;
        shown := None;
        return false;
      }
      shown, frames := Shows(f), frames + [f];
      ok := true;
    }

    method UpdatePresence(rpc: Rpc, ghost resend: bool, wire: Wire) returns (ok: bool)
      requires Valid()
      modifies this
      ensures Valid() && ok == Succeeds(old(Abs()), wire)
      ensures Abs() == Send(old(Abs()), if resend then Resend(rpc) else Real(rpc), wire)
    {
      ok := SetActivity(if resend then Resend(rpc) else Real(rpc), wire);
    }

    method ClearPresence(wire: Wire) returns (ok: bool)
      requires Valid()
      modifies this
      ensures Valid()
      ensures Abs() == if old(connected && connectedAppId == store.cur.discordAppId)
                       then Send(old(Abs()), Null, wire) else old(Abs())
    {
      var reachable := IsConnected();
      if !reachable {
        return true;
      }
      ok := SetActivity(Null, wire);
    }
  }

  /** The debounce timer: pending until it fires or is stopped. */
  datatype Timer = Timer(st: State, pending: bool)

  class Updater {
    const client: Client
    const store: Store
    const burst: int
    var env: Env
    var timer: Option<Timer>
    var waiting: seq<State>
    var previousRpc: Option<Rpc>
    var previousState: Option<State>
    var tickerPace: Pace
    var reclaimRemaining: int
    var heartbeating: bool
    var lastSentDetails: string
    var lastSent: LastSent

    ghost predicate Valid() reads this, client {
      client.Valid() && client.store == store
    }

    ghost function Abs(): PresenceProtocol.Updater reads this {
      PresenceProtocol.Updater(
        if timer.Some? && timer.value.pending then Some(timer.value.st) else None, waiting,
        previousRpc, previousState, reclaimRemaining, heartbeating, lastSentDetails, lastSent, tickerPace)
    }

    ghost function Now(): World reads this, client, store {
      World(Abs(), client.Abs(), store.cur.discordAppId)
    }

    constructor (client: Client, store: Store, env: Env, burst: int)
      requires client.Valid() && client.store == store
      ensures Valid() && this.client == client && this.store == store && this.burst == burst
      ensures Abs() == FreshUpdater()
    {
      this.client, this.store, this.env, this.burst := client, store, env, burst;
      timer, waiting, previousRpc, previousState := None, [], None, None;
      tickerPace, reclaimRemaining, heartbeating := HeartbeatPace, 0, false;
      lastSentDetails, lastSent := "", LastSent(None, false);
    }

    // -------------------------------------------------- helpers under the lock

    method StartReclaimBurst()
      modifies this`heartbeating, this`reclaimRemaining, this`tickerPace
      ensures Abs() == StartBurst(burst, old(Abs()))
    {
      heartbeating := true;
      reclaimRemaining := burst;
      if burst > 0 {
        tickerPace := ReclaimPace;
      }
    }

    method StopHeartbeat()
      modifies this`heartbeating, this`reclaimRemaining, this`tickerPace
      ensures Abs() == PresenceProtocol.StopHeartbeat(old(Abs()))
    {
      heartbeating := false;
      if reclaimRemaining > 0 {
        reclaimRemaining := 0;
        tickerPace := HeartbeatPace;
      }
    }

    method CountTick()
      modifies this`reclaimRemaining, this`tickerPace
      ensures Abs() == Countdown(old(Abs()))
    {
      if reclaimRemaining > 0 {
        reclaimRemaining := reclaimRemaining - 1;
        if reclaimRemaining == 0 {
          tickerPace := HeartbeatPace;
        }
      }
    }

    method StopTimer()
      modifies this`timer
      ensures Abs() == old(Abs()).(armed := None)
    {
      if timer.Some? {
        timer := None;
      }
    }

    /** The three clearing paths differ in what they remember as sent. */
    method ClearTo(previous: Option<State>, wire: Wire)
      requires Valid()
      modifies this`previousRpc, this`previousState, this`lastSent, client
      modifies this`heartbeating, this`reclaimRemaining, this`tickerPace
      ensures Valid() && Now() == Cleared(old(Now()), wire, previous)
    {
      var _ := client.ClearPresence(wire);
      previousRpc := None;
      previousState := previous;
      StopHeartbeat();
      lastSent := LastSent(None, true);
    }

    method RememberSent(rpc: Rpc)
      modifies this`previousRpc, this`lastSentDetails, this`lastSent
      modifies this`heartbeating, this`reclaimRemaining, this`tickerPace
      ensures Abs() == Sent(burst, old(Abs()), rpc)
    {
      previousRpc := Some(rpc);
      lastSentDetails := rpc.details;
      lastSent := LastSent(Some(rpc), false);
      StartReclaimBurst();
    }

    // ------------------------------------------------------------- operations

    method DelayUpdate(st: State)
      requires Valid()
      modifies this`timer
      ensures Valid() && Now() == Step(burst, old(Now()), Delay(st))
    {
      if previousState.Some? && previousState.value == st {
        return;
      }
      StopTimer();
      timer := Some(Timer(st, true));
    }

    /** The runtime starts the timer's callback, which queues for the lock. */
    method TimerFires()
      requires Valid()
      modifies this`timer, this`waiting
      ensures Valid() && Now() == Step(burst, old(Now()), TimerDue)
    {
      if timer.Some? && timer.value.pending {
        waiting := waiting + [timer.value.st];
        timer := Some(timer.value.(pending := false));
      }
    }

    /** One waiting callback gets the lock. */
    method ExecuteUpdate(i: nat, wire: Wire)
      requires Valid() && i < |waiting|
      modifies this, client
      ensures Valid()
      ensures Now() == Step(burst, old(Now()),
        Execute(i, MapStateToPresence(old(env), old(waiting[i]), old(store.cur)),
                ShouldClearPresence(old(env), old(waiting[i]), old(store.cur)), wire))
      ensures env == old(env)
    {
      hide MapStateToPresence, ShouldClearPresence, Sent, StartBurst, PresenceProtocol.StopHeartbeat, Send;
      var st := waiting[i];
      waiting := waiting[..i] + waiting[i + 1..];
      previousState := Some(st);
      var cfg := store.cur;
      var rpc := MapStateToPresence(env, st, cfg);
      if ShouldClearPresence(env, st, cfg) {
        ClearTo(Some(st), wire);
        return;
      }
      if previousRpc.Some? && previousRpc.value == rpc {
        return;
      }
      var ok := client.UpdatePresence(rpc, false, wire);
      if !ok {
        return;
      }
      RememberSent(rpc);
    }

    method ImmediateUpdate(st: State, wire: Wire)
      requires Valid()
      modifies this, client
      ensures Valid()
      ensures Now() == Step(burst, old(Now()),
        Immediate(st, MapStateToPresence(old(env), st, old(store.cur)),
                  ShouldClearPresence(old(env), st, old(store.cur)), wire))
      ensures
        var counts := ShouldClearPresence(old(env), st, old(store.cur)) || (old(client.connected) && wire == Accepted);
        previousState == if counts then Some(st) else old(previousState)
      ensures env == old(env)
    {
      hide MapStateToPresence, ShouldClearPresence;
      StopTimer();
      var cfg := store.cur;
      var rpc := MapStateToPresence(env, st, cfg);
      if ShouldClearPresence(env, st, cfg) {
        ClearTo(Some(st), wire);
        return;
      }
      var ok := client.UpdatePresence(rpc, false, wire);
      if !ok {
        return;
      }
      previousState := Some(st);
      RememberSent(rpc);
    }

    method ClearPresence(wire: Wire)
      requires Valid()
      modifies this, client
      ensures Valid() && env == old(env)
      ensures Now() == Step(burst, old(Now()), Clear(wire))
    {
      StopTimer();
      ClearTo(None, wire);
    }

    /** One ticker tick. */
    method Heartbeat(wire: Wire)
      requires Valid()
      modifies this, client
      ensures Valid() && env == old(env)
      ensures Now() == Step(burst, old(Now()), Beat(wire))
    {
      CountTick();
      if !heartbeating || previousRpc.None? {
        return;
      }
      var reachable := client.IsConnected();
      if !reachable {
        return;
      }
      var resend := previousRpc.value;
      if resend.details == lastSentDetails {
        resend := resend.(details := resend.details + ZERO_WIDTH_SPACE);
      }
      var ok := client.UpdatePresence(resend, true, wire);
      if !ok {
        return;
      }
      lastSentDetails := resend.details;
      lastSent := LastSent(previousRpc, false);
    }
  }
}
