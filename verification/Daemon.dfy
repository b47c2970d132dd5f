/** The presence loop's cases as methods of the daemon, run one after another.
    Each is the loop machine's run of the acts it is made of; acts whose turn
    does not come are the machine's idle ones. */
module Daemon {
  import opened Option
  import opened GameState
  import opened PresenceMap
  import opened PresenceLoop
  import PP = PresenceProtocol
  import DU = DiscordUpdater

  /** What one reconcile reads from the connections, and how its sends fare. */
  datatype Readings = Readings(
    discordUp: bool, stalled: bool, riotUp: bool, discordUpLater: bool,
    edgeState: State, enterState: State, edgeWire: PP.Wire, enterWire: PP.Wire, clearWire: PP.Wire)

  /** A visible state whose payload is accepted is what Discord shows next. */
  ghost predicate Shown(before: Loop, st: State, env: Env, cfg: Config, wire: PP.Wire, after: Loop) {
    var rpc := MapStateToPresence(env, st, cfg);
    before.w.peer.connected && wire == PP.Accepted && !ShouldClearPresence(env, st, cfg) ==>
      after.w.peer.frames == before.w.peer.frames + [PP.Real(rpc)] && after.w.peer.shown == Some(rpc)
  }

  class Daemon {
    const updater: DU.Updater
    var paused: bool
    var pauseToken: bool
    var mode: Mode
    var discordConnected: bool
    ghost var unread: bool
    ghost var lastRead: bool

    ghost predicate Valid() reads this, updater, updater.client {
      updater.Valid()
    }

    /** The loop at its select. */
    ghost function Now(): Loop reads this, updater, updater.client, updater.store {
      Loop(updater.Now(), mode, discordConnected, Idle, paused, pauseToken, 0, unread, lastRead)
    }

    constructor (updater: DU.Updater)
      requires updater.Valid()
      ensures Valid() && this.updater == updater
      ensures Now() == Loop(updater.Now(), ModeUnknown, false, Idle, false, false, 0, false, false)
    {
      this.updater := updater;
      paused, pauseToken, mode, discordConnected := false, false, ModeUnknown, false;
      unread, lastRead := false, false;
    }

    method SetPaused(b: bool)
      requires Valid()
      modifies this`paused, this`pauseToken, this`unread
      ensures Valid() && Now() == Run(updater.burst, old(Now()), [StorePause(b), SignalPause])
      ensures paused == b && pauseToken
    {
      hide PP.Step, DU.Updater.Now, DU.Updater.Valid;
      ghost var l, n := Now(), updater.burst;
      paused, unread := b, true;
      if !pauseToken {
        pauseToken := true;
      }
      ghost var l1 := Step(n, l, StorePause(b));
      assert Run(n, l1, [SignalPause]) == Run(n, Step(n, l1, SignalPause), []);
    }

    ghost function EdgeAct(r: Readings): Act reads updater, updater.store {
      Edge(r.discordUp, r.edgeState, MapStateToPresence(updater.env, r.edgeState, updater.store.cur),
           ShouldClearPresence(updater.env, r.edgeState, updater.store.cur), r.edgeWire)
    }

    ghost function EnterAct(r: Readings): Act reads updater, updater.store {
      Enter(r.discordUpLater, r.enterState, MapStateToPresence(updater.env, r.enterState, updater.store.cur),
            ShouldClearPresence(updater.env, r.enterState, updater.store.cur), r.enterWire)
    }

    /** Clears presence unless it is cleared already. */
    method HoldCleared(wire: PP.Wire)
      requires Valid()
      modifies this`mode, updater, updater.client
      ensures Valid() && updater.env == old(updater.env) && mode == ModeCleared
      ensures Now() == if old(mode) == ModeCleared then old(Now())
        else Step(updater.burst, old(Now()).(pc := Clearing), DoClear(wire))
    {
      if mode != ModeCleared {
        updater.ClearPresence(wire);
        mode := ModeCleared;
      }
    }

    /** The reconnect edge of a reconcile. */
    method ResendOnReconnect(r: Readings)
      requires Valid()
      modifies this`discordConnected, updater, updater.client
      ensures Valid() && updater.env == old(updater.env) && discordConnected == r.discordUp
      ensures Now().(pc := Choosing) == Step(updater.burst, old(Now()).(pc := AtEdge), old(EdgeAct(r)))
    {
      hide MapStateToPresence, ShouldClearPresence, PP.Step, DU.Updater.Now, DU.Updater.Valid, Step;
      ghost var before, edge := Now().(pc := AtEdge), EdgeAct(r);
      EdgeStep(updater.burst, before, edge);
      if r.discordUp && !discordConnected && mode == ModeConnected {
        updater.ImmediateUpdate(r.edgeState, r.edgeWire);
      }
      discordConnected := r.discordUp;
    }

    /** The decision of a reconcile that found the flag unset. */
    method FollowRiot(r: Readings)
      requires Valid()
      modifies this`mode, updater, updater.client
      ensures Valid()
      ensures mode == if r.riotUp && !r.stalled then ModeConnected else ModeCleared
      ensures Now() == Run(updater.burst, old(Now()).(pc := Choosing),
        [Choose(r.riotUp, r.stalled), old(EnterAct(r)), DoClear(r.clearWire)])
    {
      hide MapStateToPresence, ShouldClearPresence, PP.Step, DU.Updater.Now, DU.Updater.Valid, Step, Run;
      FollowRun(updater.burst, Now().(pc := Choosing), r.riotUp, r.stalled, EnterAct(r), r.clearWire);
      EnterStep(updater.burst, Now().(pc := Entering), EnterAct(r));
      if r.riotUp && !r.stalled {
        if mode != ModeConnected {
          if r.discordUpLater {
            updater.ImmediateUpdate(r.enterState, r.enterWire);
          }
          mode := ModeConnected;
        }
      } else {
        HoldCleared(r.clearWire);
      }
    }

    /** One reconcile, woken by the poll or, with the token taken, by a pause. */
    method Reconcile(byPause: bool, r: Readings)
      requires Valid() && (byPause ==> pauseToken)
      modifies this, updater, updater.client
      ensures Valid()
      ensures mode == if old(paused) || !r.riotUp || r.stalled then ModeCleared else ModeConnected
      ensures discordConnected == if old(paused) then old(discordConnected) else r.discordUp
      ensures Now() == Run(updater.burst, old(Now()),
        [if byPause then WakeByPause else WakeByTick, ReadPause]
        + if old(paused) then [DoClear(r.clearWire)]
          else [old(EdgeAct(r)), Choose(r.riotUp, r.stalled), old(EnterAct(r)), DoClear(r.clearWire)])
    {
      hide MapStateToPresence, ShouldClearPresence, PP.Step, DU.Updater.Now, DU.Updater.Valid, Step, Run;
      ReconcileRun(updater.burst, Now(), byPause, EdgeAct(r), Choose(r.riotUp, r.stalled), EnterAct(r), r.clearWire);
      if byPause {
        pauseToken := false;
      }
      unread, lastRead := false, paused;
      if paused {
        HoldCleared(r.clearWire);
      } else {
        ResendOnReconnect(r);
        FollowRiot(r);
      }
    }

    /** A state change arrives. */
    method OnState(st: State)
      requires Valid()
      modifies updater`timer
      ensures Valid() && Now() == Run(updater.burst, old(Now()), [GotState(st), DoDelay])
      ensures mode == ModeConnected && updater.previousState != Some(st) ==> updater.Abs().armed == Some(st)
      ensures mode != ModeConnected ==> updater.Abs() == old(updater.Abs())
    {
      hide PP.Step, DU.Updater.Valid;
      RunTwo(updater.burst, Now(), GotState(st), DoDelay);
      PP.TimerStep(updater.burst, updater.Now(), PP.Delay(st));
      if mode == ModeConnected {
        updater.DelayUpdate(st);
      }
    }

    /** The settings changed. */
    method OnConfig(st: State, wire: PP.Wire)
      requires Valid()
      modifies updater, updater.client
      ensures Valid()
      ensures Now() == Run(updater.burst, old(Now()),
        [GotConfig, DoRefresh(st, MapStateToPresence(old(updater.env), st, old(updater.store.cur)),
                              ShouldClearPresence(old(updater.env), st, old(updater.store.cur)), wire)])
      ensures mode == old(mode)
      ensures mode == ModeConnected ==> Shown(old(Now()), st, old(updater.env), old(updater.store.cur), wire, Now())
    {
      hide MapStateToPresence, ShouldClearPresence, PP.Step;
      RunTwo(updater.burst, Now(), GotConfig,
        DoRefresh(st, MapStateToPresence(updater.env, st, updater.store.cur),
                  ShouldClearPresence(updater.env, st, updater.store.cur), wire));
      ghost var rpc := MapStateToPresence(updater.env, st, updater.store.cur);
      ghost var w := updater.Now();
      if w.peer.connected {
        PP.ImmediateSends(updater.burst, w, st, rpc);
      }
      if mode == ModeConnected {
        updater.ImmediateUpdate(st, wire);
      }
    }
  }

  // ------------------------------------- the acts of a reconcile, unfolded

  lemma FollowRun(n: int, l: Loop, riotUp: bool, stalled: bool, enter: Act, wire: PP.Wire)
    requires l.pc == Choosing && enter.Enter?
    ensures Run(n, l, [Choose(riotUp, stalled), enter, DoClear(wire)]) ==
      if riotUp && !stalled then
        if l.mode != ModeConnected then Step(n, l.(pc := Entering), enter) else l.(pc := Idle)
      else if l.mode != ModeCleared then Step(n, l.(pc := Clearing), DoClear(wire)) else l.(pc := Idle)
  {
    hide Step, Run;
    var choose := Choose(riotUp, stalled);
    RunThree(n, l, choose, enter, DoClear(wire));
    ChooseStep(n, l, choose);
    var m := Step(n, l, choose);
    if m.pc == Entering {
      EnterStep(n, m, enter);
      OutOfTurn(n, Step(n, m, enter), DoClear(wire));
    } else {
      OutOfTurn(n, m, enter);
      if m.pc == Idle {
        OutOfTurn(n, m, DoClear(wire));
      }
    }
  }

  /** A reconcile reads the flag once and either holds presence cleared or
      goes on to the connections. */
  lemma ReconcileRun(n: int, l: Loop, byPause: bool, edge: Act, choose: Act, enter: Act, wire: PP.Wire)
    requires l.pc == Idle && (byPause ==> l.token) && edge.Edge?
    ensures var wake := if byPause then WakeByPause else WakeByTick;
      var read := l.(token := l.token && !byPause, unread := false, lastRead := l.paused);
      if l.paused then
        Run(n, l, [wake, ReadPause] + [DoClear(wire)])
        == if l.mode == ModeCleared then read else Step(n, read.(pc := Clearing), DoClear(wire))
      else
        Run(n, l, [wake, ReadPause] + [edge, choose, enter, DoClear(wire)])
        == Run(n, Step(n, read.(pc := AtEdge), edge), [choose, enter, DoClear(wire)])
  {
    hide PP.Step, Run;
    var wake := if byPause then WakeByPause else WakeByTick;
    var m := Step(n, Step(n, l, wake), ReadPause);
    RunTwo(n, l, wake, ReadPause);
    RunConcat(n, l, [wake, ReadPause], [DoClear(wire)]);
    RunOne(n, m, DoClear(wire));
    RunConcat(n, l, [wake, ReadPause], [edge, choose, enter, DoClear(wire)]);
    RunConcat(n, m, [edge], [choose, enter, DoClear(wire)]);
    assert [edge] + [choose, enter, DoClear(wire)] == [edge, choose, enter, DoClear(wire)];
    RunOne(n, m, edge);
  }

  lemma RunTwo(n: int, l: Loop, a: Act, b: Act)
    ensures Run(n, l, [a, b]) == Step(n, Step(n, l, a), b)
  {
    hide Step;
    assert [a, b][1..] == [b];
    RunOne(n, Step(n, l, a), b);
  }

  lemma RunThree(n: int, l: Loop, a: Act, b: Act, c: Act)
    ensures Run(n, l, [a, b, c]) == Step(n, Step(n, Step(n, l, a), b), c)
  {
    hide Step;
    assert [a, b, c][1..] == [b, c];
    RunTwo(n, Step(n, l, a), b, c);
  }
}
