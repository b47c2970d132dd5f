/** The daemon's presence loop over the Updater. The loop runs in its own
    goroutine: it takes its decisions one read and one Updater call at a time,
    and timers, ticker, client and SetPaused callers may act between any two
    of them. */
module PresenceLoop {
  import opened Option
  import opened GameState
  import opened PresenceMap
  import PP = PresenceProtocol

  datatype Mode = ModeUnknown | ModeConnected | ModeCleared

  /** Where the loop stands: at its select, or inside one of its cases. */
  datatype Pc =
    | Idle
    | Woken                   // reconcile begins: the pause flag is read next
    | Clearing                // about to clear presence
    | AtEdge                  // not paused: the reconnect edge is next
    | Choosing                // the Riot connection decides next
    | Entering                // about to become connected
    | Delaying(st: State)     // a state change to hand to the debounce
    | Refreshing              // a settings change to show at once

  /** unread: the flag was stored since reconcile last read it; lastRead: what
      it read. callers are the SetPaused calls that have stored the flag and
      not yet signalled. */
  datatype Loop = Loop(
    w: PP.World, mode: Mode, discordConnected: bool, pc: Pc,
    paused: bool, token: bool, callers: nat,
    unread: bool, lastRead: bool)

  function FreshLoop(appId: string): Loop {
    Loop(PP.FreshWorld(appId), ModeUnknown, false, Idle, false, false, 0, false, false)
  }

  datatype Act =
    | StorePause(b: bool)
    | SignalPause
    | WakeByPause
    | WakeByTick
    | ReadPause
    | DoClear(wire: PP.Wire)
    | Edge(up: bool, st: State, rpc: Rpc, clear: bool, wire: PP.Wire)
    | Choose(riotUp: bool, stalled: bool)
    | Enter(up: bool, st: State, rpc: Rpc, clear: bool, wire: PP.Wire)
    | GotState(st: State)
    | DoDelay
    | GotConfig
    | DoRefresh(st: State, rpc: Rpc, clear: bool, wire: PP.Wire)
    | Other(e: PP.Event)      // whatever happens without the loop

  /** The Updater step an act performs, if it performs one. */
  function EventOf(l: Loop, a: Act): Option<PP.Event> {
    match a
    case DoClear(wire) => if l.pc == Clearing then Some(PP.Clear(wire)) else None
    case Edge(up, st, rpc, clear, wire) =>
      if l.pc == AtEdge && up && !l.discordConnected && l.mode == ModeConnected
      then Some(PP.Immediate(st, rpc, clear, wire)) else None
    case Enter(up, st, rpc, clear, wire) =>
      if l.pc == Entering && up then Some(PP.Immediate(st, rpc, clear, wire)) else None
    case DoDelay => if l.pc.Delaying? then Some(PP.Delay(l.pc.st)) else None
    case DoRefresh(st, rpc, clear, wire) =>
      if l.pc == Refreshing then Some(PP.Immediate(st, rpc, clear, wire)) else None
    case Other(e) => if PP.Unprompted(e) then Some(e) else None
    case _ => None
  }

  /** The loop's own bookkeeping. */
  function Control(l: Loop, a: Act): Loop {
    match a
    case StorePause(b) => l.(paused := b, unread := true, callers := l.callers + 1)
    case SignalPause => if l.callers == 0 then l else l.(token := true, callers := l.callers - 1)
    case WakeByPause => if l.pc == Idle && l.token then l.(pc := Woken, token := false) else l
    case WakeByTick => if l.pc == Idle then l.(pc := Woken) else l
    case ReadPause =>
      if l.pc != Woken then l
      else
        var pc := if !l.paused then AtEdge else if l.mode != ModeCleared then Clearing else Idle;
        l.(pc := pc, unread := false, lastRead := l.paused)
    case DoClear(_) => if l.pc == Clearing then l.(pc := Idle, mode := ModeCleared) else l
    case Edge(up, _, _, _, _) => if l.pc == AtEdge then l.(pc := Choosing, discordConnected := up) else l
    case Choose(riotUp, stalled) =>
      if l.pc != Choosing then l
      else if riotUp && !stalled then l.(pc := if l.mode != ModeConnected then Entering else Idle)
      else l.(pc := if l.mode != ModeCleared then Clearing else Idle)
    case Enter(_, _, _, _, _) => if l.pc == Entering then l.(pc := Idle, mode := ModeConnected) else l
    case GotState(st) => if l.pc == Idle && l.mode == ModeConnected then l.(pc := Delaying(st)) else l
    case DoDelay => if l.pc.Delaying? then l.(pc := Idle) else l
    case GotConfig => if l.pc == Idle && l.mode == ModeConnected then l.(pc := Refreshing) else l
    case DoRefresh(_, _, _, _) => if l.pc == Refreshing then l.(pc := Idle) else l
    case Other(_) => l
  }

  function Step(n: int, l: Loop, a: Act): Loop {
    var e := EventOf(l, a);
    Control(l, a).(w := if e.Some? then PP.Step(n, l.w, e.value) else l.w)
  }

  function Run(n: int, l: Loop, acts: seq<Act>): Loop
    decreases |acts|
  {
    if acts == [] then l else Run(n, Step(n, l, acts[0]), acts[1..])
  }

  // -------------------------------------------------------------- invariant

  predicate PresenceInv(n: int, l: Loop) {
    && PP.Inv(n, l.w)
    && (l.mode != ModeConnected ==> l.w.u.armed == None)
    && (l.pc.Delaying? || l.pc == Refreshing ==> l.mode == ModeConnected)
  }

  predicate PauseInv(l: Loop) {
    && (!l.unread ==> l.paused == l.lastRead)
    && (l.unread ==> l.token || l.callers > 0 || l.pc == Woken)
    && (l.lastRead ==> l.pc in {Idle, Woken, Clearing})
    && (l.lastRead && l.pc != Clearing ==> l.mode == ModeCleared)
  }

  predicate LoopInv(n: int, l: Loop) {
    PresenceInv(n, l) && PauseInv(l)
  }

  /** What each Updater step does to the timer the loop relies on. */
  lemma StepEffects(n: int, w: PP.World, e: PP.Event)
    ensures e.Clear? ==> PP.Step(n, w, e).u.armed == None
    ensures PP.Unprompted(e) && w.u.armed == None ==> PP.Step(n, w, e).u.armed == None
  {
  }

  lemma PresenceInvOther(n: int, l: Loop, e: PP.Event)
    requires PresenceInv(n, l)
    ensures PresenceInv(n, Step(n, l, Other(e)))
  {
    hide PP.Inv, PP.Step;
    PP.InvStep(n, l.w, e);
    StepEffects(n, l.w, e);
  }

  /** The loop's own acts: whatever they send, they send on the way into
      connected mode or within it, unless it is a clear. */
  lemma OwnActs(l: Loop, a: Act)
    requires !a.Other? && (l.pc.Delaying? || l.pc == Refreshing ==> l.mode == ModeConnected)
    ensures
      var e, m := EventOf(l, a), Control(l, a);
      && (e.Some? ==> e.value.Clear? || m.mode == ModeConnected)
      && (e.None? ==> m.mode == ModeConnected || m.mode == l.mode)
      && (m.pc.Delaying? || m.pc == Refreshing ==> m.mode == ModeConnected)
  {
  }

  lemma PresenceInvOwn(n: int, l: Loop, a: Act)
    requires PresenceInv(n, l) && !a.Other?
    ensures PresenceInv(n, Step(n, l, a))
  {
    hide PP.Inv, PP.Step, Control, EventOf;
    OwnActs(l, a);
    var e := EventOf(l, a);
    if e.Some? {
      PP.InvStep(n, l.w, e.value);
      StepEffects(n, l.w, e.value);
    }
  }

  lemma PresenceInvStep(n: int, l: Loop, a: Act)
    requires PresenceInv(n, l)
    ensures PresenceInv(n, Step(n, l, a))
  {
    hide PresenceInv, Step;
    if a.Other? {
      PresenceInvOther(n, l, a.e);
    } else {
      PresenceInvOwn(n, l, a);
    }
  }

  lemma PauseInvControl(l: Loop, a: Act)
    requires PauseInv(l)
    ensures PauseInv(Control(l, a))
  {
    match a
    case StorePause(_) =>
    case SignalPause =>
    case WakeByPause =>
    case ReadPause =>
    case Choose(_, _) =>
    case _ =>
  }

  /** The pause bookkeeping is the loop's own: no Updater step touches it. */
  lemma PauseInvStep(n: int, l: Loop, a: Act)
    requires PauseInv(l)
    ensures PauseInv(Step(n, l, a))
  {
    hide PP.Step, EventOf, Control;
    PauseInvControl(l, a);
  }

  lemma {:induction false} LoopInvAlways(n: int, l: Loop, acts: seq<Act>)
    requires LoopInv(n, l)
    ensures LoopInv(n, Run(n, l, acts))
    decreases |acts|
  {
    hide Step, PauseInv, PresenceInv;
    if acts != [] {
      PresenceInvStep(n, l, acts[0]);
      PauseInvStep(n, l, acts[0]);
      LoopInvAlways(n, Step(n, l, acts[0]), acts[1..]);
    }
  }

  lemma LoopInvInitially(n: int, appId: string)
    ensures LoopInv(n, FreshLoop(appId))
  {
    PP.InvInitially(n, appId);
  }

  // ------------------------------------------------------------ main results

  /** Outside connected mode no timer is ever armed, in any run at all. */
  lemma NoTimerOutsideConnectedMode(n: int, appId: string, acts: seq<Act>)
    ensures
      var l := Run(n, FreshLoop(appId), acts);
      l.mode != ModeConnected ==> l.w.u.armed == None
  {
    LoopInvInitially(n, appId);
    LoopInvAlways(n, FreshLoop(appId), acts);
  }

  // --------------------------------------------------- what the loop does do

  lemma ClearStep(n: int, l: Loop, wire: PP.Wire)
    requires l.pc == Clearing
    ensures Step(n, l, DoClear(wire)) == l.(pc := Idle, mode := ModeCleared, w := PP.Step(n, l.w, PP.Clear(wire)))
  {
    hide PP.Step;
  }

  lemma EdgeStep(n: int, l: Loop, a: Act)
    requires l.pc == AtEdge && a.Edge?
    ensures Step(n, l, a) == l.(pc := Choosing, discordConnected := a.up,
      w := if a.up && !l.discordConnected && l.mode == ModeConnected
           then PP.Step(n, l.w, PP.Immediate(a.st, a.rpc, a.clear, a.wire)) else l.w)
  {
    hide PP.Step;
  }

  lemma EnterStep(n: int, l: Loop, a: Act)
    requires l.pc == Entering && a.Enter?
    ensures Step(n, l, a) == l.(pc := Idle, mode := ModeConnected,
      w := if a.up then PP.Step(n, l.w, PP.Immediate(a.st, a.rpc, a.clear, a.wire)) else l.w)
  {
    hide PP.Step;
  }

  lemma ChooseStep(n: int, l: Loop, a: Act)
    requires l.pc == Choosing && a.Choose?
    ensures Step(n, l, a) == l.(pc :=
      if a.riotUp && !a.stalled then if l.mode != ModeConnected then Entering else Idle
      else if l.mode != ModeCleared then Clearing else Idle)
  {
    hide PP.Step;
  }

  /** An act whose turn has not come changes nothing. */
  lemma OutOfTurn(n: int, l: Loop, a: Act)
    requires (a.Enter? && l.pc != Entering) || (a.DoClear? && l.pc != Clearing)
    ensures Step(n, l, a) == l
  {
    hide PP.Step;
  }

  /** In connected mode a state not yet sent is scheduled. */
  lemma StateChangeIsDebounced(n: int, l: Loop, st: State)
    requires l.pc == Idle && l.mode == ModeConnected
    ensures
      var m := Step(n, Step(n, l, GotState(st)), DoDelay);
      && m == l.(w := m.w)
      && m.w.u.armed == (if l.w.u.previousState == Some(st) then l.w.u.armed else Some(st))
      && m.w.peer == l.w.peer
  {
    hide PP.Inv;
    PP.TimerStep(n, l.w, PP.Delay(st));
  }

  /** In connected mode new settings are shown at once. */
  lemma SettingsShowAtOnce(n: int, l: Loop, st: State, rpc: Rpc)
    requires l.pc == Idle && l.mode == ModeConnected && l.w.peer.connected && PP.Inv(n, l.w)
    ensures
      var m := Step(n, Step(n, l, GotConfig), DoRefresh(st, rpc, false, PP.Accepted));
      && m == l.(w := m.w)
      && m.w.peer == l.w.peer.(frames := l.w.peer.frames + [PP.Real(rpc)], shown := Some(rpc))
  {
    hide PP.Step, PP.Inv;
    PP.WireStep(n, l.w, PP.Immediate(st, rpc, false, PP.Accepted));
  }

  /** Outside connected mode neither does anything. */
  lemma NothingOutsideConnectedMode(n: int, l: Loop, a: Act, b: Act)
    requires l.pc == Idle && l.mode != ModeConnected
    requires (a.GotState? && b.DoDelay?) || (a.GotConfig? && b.DoRefresh?)
    ensures Step(n, Step(n, l, a), b) == l
  {
    hide PP.Step;
  }

  /** Discord coming up shows the presence of a loop that has one to show, and
      a loop that is already connected sends on that edge only. */
  lemma ReconnectEdgeResends(n: int, l: Loop, up: bool, st: State, rpc: Rpc)
    requires l.pc == AtEdge && l.w.peer.connected && PP.Inv(n, l.w)
    ensures
      var m := Step(n, l, Edge(up, st, rpc, false, PP.Accepted));
      && m.discordConnected == up && m.pc == Choosing && m.mode == l.mode
      && m.w.peer.frames == l.w.peer.frames
         + if l.mode == ModeConnected && up && !l.discordConnected then [PP.Real(rpc)] else []
  {
    hide PP.Step, PP.Inv;
    PP.WireStep(n, l.w, PP.Immediate(st, rpc, false, PP.Accepted));
    assert l.w.peer.frames + [] == l.w.peer.frames;
  }

  /** A reconcile that reads the flag unset ends connected exactly when the
      Riot Client is up and has not stalled, cleared otherwise; it sends on
      entering and clears on leaving, once. */
  lemma ReconcileDecides(n: int, l: Loop, riotUp: bool, stalled: bool, enter: Act, wire: PP.Wire)
    requires l.pc == Choosing && enter.Enter?
    ensures
      var m := Step(n, Step(n, Step(n, l, Choose(riotUp, stalled)), enter), DoClear(wire));
      && m.pc == Idle
      && m.mode == (if riotUp && !stalled then ModeConnected else ModeCleared)
      && m.w == (if m.mode == l.mode then l.w
                 else if m.mode == ModeCleared then PP.Step(n, l.w, PP.Clear(wire))
                 else if enter.up then PP.Step(n, l.w, PP.Immediate(enter.st, enter.rpc, enter.clear, enter.wire))
                 else l.w)
  {
    hide PP.Step, Step;
    var choose := Choose(riotUp, stalled);
    var m1 := Step(n, l, choose);
    ChooseStep(n, l, choose);
    if m1.pc == Entering {
      EnterStep(n, m1, enter);
      OutOfTurn(n, Step(n, m1, enter), DoClear(wire));
    } else {
      OutOfTurn(n, m1, enter);
      if m1.pc == Idle {
        OutOfTurn(n, m1, DoClear(wire));
      } else {
        ClearStep(n, m1, wire);
      }
    }
  }

  /** One that reads it set ends cleared, clearing once. */
  lemma PausedReconcileClears(n: int, l: Loop, wire: PP.Wire)
    requires l.pc == Woken && l.paused
    ensures
      var m := Step(n, Step(n, l, ReadPause), DoClear(wire));
      && m.pc == Idle && m.mode == ModeCleared && m.lastRead
      && m.w == if l.mode == ModeCleared then l.w else PP.Step(n, l.w, PP.Clear(wire))
  {
    hide PP.Step;
  }

  /** The loop is at its select and every SetPaused has returned and been
      heard. */
  predicate AtRest(l: Loop) {
    l.pc == Idle && !l.token && l.callers == 0
  }

  /** No pause change is lost: an unread one always has a wake-up pending, and
      at rest a set flag means presence is cleared. */
  lemma NoPauseIsLost(n: int, appId: string, acts: seq<Act>)
    ensures var l := Run(n, FreshLoop(appId), acts);
      && (l.unread && l.callers == 0 ==> l.token || l.pc == Woken)
      && (AtRest(l) ==> !l.unread && l.lastRead == l.paused)
      && (AtRest(l) && l.paused ==> l.mode == ModeCleared)
  {
    LoopInvInitially(n, appId);
    LoopInvAlways(n, FreshLoop(appId), acts);
  }

  /** A reconcile has read the flag set and has finished clearing. */
  predicate Held(l: Loop) {
    && l.lastRead && l.mode == ModeCleared && l.pc in {Idle, Woken}
    && PP.Quiet(l.w.u)
  }

  /** No reconcile of the run reads the flag unset. */
  predicate NeverReadsUnset(n: int, l: Loop, acts: seq<Act>)
    decreases |acts|
  {
    acts == []
    || (&& (acts[0] == ReadPause && l.pc == Woken ==> l.paused)
        && NeverReadsUnset(n, Step(n, l, acts[0]), acts[1..]))
  }

  lemma HeldStep(n: int, l: Loop, a: Act)
    requires Held(l) && (a == ReadPause && l.pc == Woken ==> l.paused)
    ensures Held(Step(n, l, a)) && Step(n, l, a).w.peer.frames == l.w.peer.frames
  {
    var e := EventOf(l, a);
    if e.Some? {
      var es := [e.value];
      PP.QuietStaysQuiet(n, l.w, es);
      assert PP.Run(n, l.w, es) == PP.Run(n, PP.Step(n, l.w, e.value), []);
    }
  }

  /** From the reconcile that saw the pause to the one that sees it lifted
      nothing at all is sent, whatever else happens and however often the flag
      is stored in between. */
  lemma {:induction false} NothingIsSentWhileHeld(n: int, l: Loop, acts: seq<Act>)
    requires Held(l) && NeverReadsUnset(n, l, acts)
    ensures Run(n, l, acts).w.peer.frames == l.w.peer.frames && Held(Run(n, l, acts))
    decreases |acts|
  {
    hide Held, Step;
    if acts != [] {
      HeldStep(n, l, acts[0]);
      NothingIsSentWhileHeld(n, Step(n, l, acts[0]), acts[1..]);
    }
  }

  lemma RunOne(n: int, l: Loop, a: Act)
    ensures Run(n, l, [a]) == Step(n, l, a)
  {
    hide Step;
    assert Run(n, l, [a]) == Run(n, Step(n, l, a), []);
  }

  lemma {:induction false} RunConcat(n: int, l: Loop, a: seq<Act>, b: seq<Act>)
    ensures Run(n, l, a + b) == Run(n, Run(n, l, a), b)
    decreases |a|
  {
    hide Step;
    if a == [] {
      assert a + b == b;
    } else {
      assert (a + b)[1..] == a[1..] + b;
      RunConcat(n, Step(n, l, a[0]), a[1..], b);
    }
  }

  // ----------------------------------- when no callback is in flight

  /** Whenever the loop clears, no timer callback is waiting for the mutex. */
  predicate ClearsFindNoCallback(n: int, l: Loop, acts: seq<Act>)
    decreases |acts|
  {
    acts == []
    || (&& (acts[0].DoClear? && l.pc == Clearing ==> l.w.u.waiting == [])
        && ClearsFindNoCallback(n, Step(n, l, acts[0]), acts[1..]))
  }

  /** Timer firing is atomic: a callback gets the mutex as soon as it starts. */
  predicate FiresAtomically(acts: seq<Act>) {
    forall i :: 0 <= i < |acts| - 1 && acts[i] == Other(PP.TimerDue) ==>
      acts[i + 1].Other? && acts[i + 1].e.Execute? && acts[i + 1].e.i == 0
  }

  lemma WaitingStep(n: int, l: Loop, a: Act)
    requires l.w.u.waiting == [] && a != Other(PP.TimerDue)
    ensures Step(n, l, a).w.u.waiting == []
  {
  }

  lemma FireAndRun(n: int, l: Loop, a: Act)
    requires l.w.u.waiting == [] && a.Other? && a.e.Execute? && a.e.i == 0
    ensures Step(n, Step(n, l, Other(PP.TimerDue)), a).w.u.waiting == []
  {
  }

  lemma {:induction false} AtomicTimersLeaveNoCallback(n: int, l: Loop, acts: seq<Act>)
    requires l.w.u.waiting == [] && FiresAtomically(acts)
    ensures ClearsFindNoCallback(n, l, acts)
    decreases |acts|
  {
    hide Step;
    if acts == [] {
    } else if acts[0] != Other(PP.TimerDue) {
      WaitingStep(n, l, acts[0]);
      AtomicTimersLeaveNoCallback(n, Step(n, l, acts[0]), acts[1..]);
    } else if |acts| > 1 {
      FireAndRun(n, l, acts[1]);
      assert acts[1..][1..] == acts[2..];
      AtomicTimersLeaveNoCallback(n, Step(n, Step(n, l, acts[0]), acts[1]), acts[2..]);
    }
  }

  /** Outside connected mode there is nothing left to act on its own. */
  predicate SilentOutside(l: Loop) {
    && (l.mode != ModeConnected ==> PP.Quiet(l.w.u))
    && (l.pc.Delaying? || l.pc == Refreshing ==> l.mode == ModeConnected)
  }

  lemma QuietStep(n: int, w: PP.World, e: PP.Event)
    ensures e.Clear? && w.u.waiting == [] ==> PP.Quiet(PP.Step(n, w, e).u)
    ensures PP.Unprompted(e) && PP.Quiet(w.u) ==> PP.Quiet(PP.Step(n, w, e).u)
  {
  }

  lemma SilentStep(n: int, l: Loop, a: Act)
    requires SilentOutside(l) && (a.DoClear? && l.pc == Clearing ==> l.w.u.waiting == [])
    ensures SilentOutside(Step(n, l, a))
  {
    hide PP.Step, Control, EventOf;
    var e := EventOf(l, a);
    if e.Some? {
      QuietStep(n, l.w, e.value);
    }
    if a.Other? {
      OthersLeaveControl(l, a);
    } else {
      OwnActs(l, a);
      OwnClears(l, a);
    }
  }

  lemma OthersLeaveControl(l: Loop, a: Act)
    requires a.Other?
    ensures Control(l, a) == l
    ensures EventOf(l, a).Some? ==> PP.Unprompted(EventOf(l, a).value)
  {
  }

  lemma OwnClears(l: Loop, a: Act)
    requires !a.Other?
    ensures EventOf(l, a).Some? && EventOf(l, a).value.Clear? ==> a.DoClear? && l.pc == Clearing
  {
  }

  lemma {:induction false} SilentAlways(n: int, l: Loop, acts: seq<Act>)
    requires SilentOutside(l) && ClearsFindNoCallback(n, l, acts)
    ensures SilentOutside(Run(n, l, acts))
    decreases |acts|
  {
    hide Step, SilentOutside;
    if acts != [] {
      SilentStep(n, l, acts[0]);
      SilentAlways(n, Step(n, l, acts[0]), acts[1..]);
    }
  }

  /** In every run whose clears find no callback in flight: outside connected
      mode no timer is armed, no callback waits and nothing is defended; and
      every reconcile that reads the flag set ends in the held state, whether
      it had something to clear or found it cleared already. */
  lemma EveryPauseIsHeld(n: int, appId: string, acts: seq<Act>)
    requires ClearsFindNoCallback(n, FreshLoop(appId), acts)
    ensures
      var l := Run(n, FreshLoop(appId), acts);
      && (l.mode != ModeConnected ==> PP.Quiet(l.w.u))
      && (l.lastRead && l.pc != Clearing ==> Held(l))
  {
    LoopInvInitially(n, appId);
    LoopInvAlways(n, FreshLoop(appId), acts);
    SilentAlways(n, FreshLoop(appId), acts);
  }

  /** The whole pause, with timer firing atomic: from any reconcile that read
      the flag set, its clear done, until one that reads it unset, nothing is
      transmitted. */
  lemma PauseIsSilent(n: int, appId: string, before: seq<Act>, during: seq<Act>)
    requires FiresAtomically(before)
    requires
      var l := Run(n, FreshLoop(appId), before);
      l.lastRead && l.pc != Clearing && NeverReadsUnset(n, l, during)
    ensures Run(n, FreshLoop(appId), before + during).w.peer.frames
         == Run(n, FreshLoop(appId), before).w.peer.frames
  {
    hide Held, Step;
    AtomicTimersLeaveNoCallback(n, FreshLoop(appId), before);
    EveryPauseIsHeld(n, appId, before);
    RunConcat(n, FreshLoop(appId), before, during);
    NothingIsSentWhileHeld(n, Run(n, FreshLoop(appId), before), during);
  }

  /** Without that assumption, exactly when a pause is silent: once a reconcile
      has read the flag set and has no clear left to do, nothing is sent until
      one reads it unset if and only if no callback waits and no callback that
      ran late left a presence to defend. */
  lemma PauseIsSilentExactly(n: int, l: Loop)
    requires LoopInv(n, l) && l.lastRead && l.pc != Clearing
    ensures (forall acts :: NeverReadsUnset(n, l, acts) ==> Run(n, l, acts).w.peer.frames == l.w.peer.frames)
      <==> l.w.u.waiting == [] && !l.w.u.heartbeating
  {
    hide LoopInv, PresenceInv, PP.Step, Run, NeverReadsUnset, PP.Inv;
    HeldOrNot(n, l);
    var rpc := Rpc("", "", "", "", "", "", 0);
    if l.w.u.waiting == [] && !l.w.u.heartbeating {
      forall acts | NeverReadsUnset(n, l, acts)
        ensures Run(n, l, acts).w.peer.frames == l.w.peer.frames
      {
        NothingIsSentWhileHeld(n, l, acts);
      }
    } else if l.w.u.waiting != [] {
      var news := if l.w.u.previousRpc == Some(rpc) then rpc.(details := "x") else rpc;
      TwoOthers(n, l, PP.Connect, PP.Execute(0, news, false, PP.Accepted));
      PP.SendAfterConnect(n, l.w, news);
    } else {
      TwoOthers(n, l, PP.Connect, PP.Beat(PP.Accepted));
      PP.BeatAfterConnect(n, l.w);
    }
  }

  lemma HeldOrNot(n: int, l: Loop)
    requires LoopInv(n, l) && l.lastRead && l.pc != Clearing
    ensures l.w.u.waiting == [] && !l.w.u.heartbeating ==> Held(l)
    ensures l.w.u.heartbeating <==> l.w.u.previousRpc.Some?
  {
    hide PP.Alternates, PP.Origin, PP.Streak;
  }

  /** Two events nobody asked the loop for are a run that reads no flag. */
  lemma TwoOthers(n: int, l: Loop, e: PP.Event, f: PP.Event)
    requires PP.Unprompted(e) && PP.Unprompted(f)
    ensures NeverReadsUnset(n, l, [Other(e), Other(f)])
    ensures Run(n, l, [Other(e), Other(f)]).w == PP.Step(n, PP.Step(n, l.w, e), f)
  {
    hide PP.Step;
    var acts := [Other(e), Other(f)];
    assert acts[1..] == [Other(f)] && acts[1..][1..] == [];
    assert NeverReadsUnset(n, Step(n, Step(n, l, Other(e)), Other(f)), []);
    assert NeverReadsUnset(n, Step(n, l, Other(e)), acts[1..]);
    assert Run(n, Step(n, l, Other(e)), acts[1..]) == Run(n, Step(n, Step(n, l, Other(e)), Other(f)), acts[1..][1..]);
  }

  /** The clear that answers a pause puts the loop in the held state, unless a
      callback was already waiting. */
  lemma PauseIsHeld(n: int, l: Loop, wire: PP.Wire)
    requires l.pc == Clearing && l.lastRead && l.w.u.waiting == []
    ensures Held(Step(n, l, DoClear(wire)))
  {
    hide PP.Step;
    PP.AfterClear(n, l.w, wire);
  }

  /** The clear that answers a pause silences it exactly when no callback is
      waiting as it is made, in any state at all. */
  lemma PauseClearIsSilentExactly(n: int, l: Loop, wire: PP.Wire)
    requires l.pc == Clearing && l.lastRead
    ensures
      var m := Step(n, l, DoClear(wire));
      (forall acts :: NeverReadsUnset(n, m, acts) ==> Run(n, m, acts).w.peer.frames == m.w.peer.frames)
      <==> l.w.u.waiting == []
  {
    hide Run, NeverReadsUnset, PP.Step;
    var m := Step(n, l, DoClear(wire));
    PP.AfterClear(n, l.w, wire);
    if l.w.u.waiting == [] {
      PauseIsHeld(n, l, wire);
      forall acts | NeverReadsUnset(n, m, acts)
        ensures Run(n, m, acts).w.peer.frames == m.w.peer.frames
      {
        NothingIsSentWhileHeld(n, m, acts);
      }
    } else {
      var rpc := Rpc("", "", "", "", "", "", 0);
      TwoOthers(n, m, PP.Connect, PP.Execute(0, rpc, false, PP.Accepted));
      PP.SendAfterConnect(n, m.w, rpc);
    }
  }

  /** Every clear of the run reaches Discord or finds nothing shown. */
  predicate ClearsLand(n: int, l: Loop, acts: seq<Act>)
    decreases |acts|
  {
    acts == []
    || (var e := EventOf(l, acts[0]);
        && (e.Some? ==> PP.ClearTells(l.w, e.value))
        && ClearsLand(n, Step(n, l, acts[0]), acts[1..]))
  }

  lemma {:induction false} RecordStaysTrue(n: int, l: Loop, acts: seq<Act>)
    requires PP.Inv(n, l.w) && PP.ShownAgrees(l.w) && ClearsLand(n, l, acts)
    ensures PP.ShownAgrees(Run(n, l, acts).w)
    decreases |acts|
  {
    hide PP.Inv, PP.ShownAgrees, PP.Step, Control, EventOf;
    if acts != [] {
      var e := EventOf(l, acts[0]);
      if e.Some? {
        PP.InvStep(n, l.w, e.value);
        PP.ShownStep(n, l.w, e.value);
      }
      RecordStaysTrue(n, Step(n, l, acts[0]), acts[1..]);
    }
  }

  /** The acts of a session with one application id in which a clear that
      fails takes the pipe with it. */
  predicate ActKeepsApp(a: Act) {
    match a
    case DoClear(wire) => wire != PP.Unsent
    case Edge(_, _, _, clear, wire) => clear ==> wire != PP.Unsent
    case Enter(_, _, _, clear, wire) => clear ==> wire != PP.Unsent
    case DoRefresh(_, _, clear, wire) => clear ==> wire != PP.Unsent
    case Other(e) => PP.KeepsApp(e)
    case _ => true
  }

  lemma {:induction false} FixedAppLoopClearsLand(n: int, l: Loop, acts: seq<Act>)
    requires l.w.peer.connected ==> l.w.peer.connectedAppId == l.w.appId
    requires forall a :: a in acts ==> ActKeepsApp(a)
    ensures ClearsLand(n, l, acts)
    decreases |acts|
  {
    hide PP.Step, Control;
    if acts != [] {
      assert acts[0] in acts;
      var e := EventOf(l, acts[0]);
      if e.Some? {
        PP.SameAppStep(n, l.w, e.value);
      }
      FixedAppLoopClearsLand(n, Step(n, l, acts[0]), acts[1..]);
    }
  }

  /** End to end, for one application id and atomic timers, whatever fails on
      the wire: a daemon at rest with the pause flag set shows nothing on
      Discord, defends nothing and has nothing scheduled. */
  lemma PausedShowsNothing(n: int, appId: string, acts: seq<Act>)
    requires FiresAtomically(acts) && forall a :: a in acts ==> ActKeepsApp(a)
    ensures
      var l := Run(n, FreshLoop(appId), acts);
      AtRest(l) && l.paused ==> l.w.peer.shown == None && PP.Quiet(l.w.u)
  {
    NoPauseIsLost(n, appId, acts);
    AtomicTimersLeaveNoCallback(n, FreshLoop(appId), acts);
    EveryPauseIsHeld(n, appId, acts);
    FixedAppLoopClearsLand(n, FreshLoop(appId), acts);
    LoopInvInitially(n, appId);
    LoopInvAlways(n, FreshLoop(appId), acts);
    RecordStaysTrue(n, FreshLoop(appId), acts);
  }

  /** Why the late callback is excluded: from every connected state with an
      armed timer there is a run that ends at rest, paused, its clear landed,
      and with a presence on show. */
  lemma LateCallbackOutlivesThePause(n: int, l: Loop, rpc: Rpc)
    requires l.pc == Idle && l.mode == ModeConnected && !l.paused && l.callers == 0
    requires PP.IsConnected(l.w) && l.w.u.armed.Some? && l.w.u.waiting == []
    ensures var m := Run(n, l, [Other(PP.TimerDue), StorePause(true), SignalPause, WakeByPause, ReadPause,
                                DoClear(PP.Accepted), Other(PP.Execute(0, rpc, false, PP.Accepted))]);
      AtRest(m) && m.paused && m.w.u.heartbeating && m.w.peer.shown == Some(rpc)
  {
    hide PP.Step, Run;
    var timer, late := Other(PP.TimerDue), Other(PP.Execute(0, rpc, false, PP.Accepted));
    var pause := [StorePause(true), SignalPause, WakeByPause, ReadPause];
    var acts := [timer] + pause + [DoClear(PP.Accepted)] + [late];
    assert acts == [timer, StorePause(true), SignalPause, WakeByPause, ReadPause, DoClear(PP.Accepted), late];
    var l1 := Step(n, l, timer);
    var l2 := l1.(paused := true, unread := false, lastRead := true, pc := Clearing, token := false);
    PauseReachesReconcile(n, l1);
    assert Run(n, l1, pause) == l2;
    var l3 := Step(n, l2, DoClear(PP.Accepted));
    RunConcat(n, l, [timer] + pause + [DoClear(PP.Accepted)], [late]);
    RunConcat(n, l, [timer] + pause, [DoClear(PP.Accepted)]);
    RunConcat(n, l, [timer], pause);
    RunOne(n, l, timer);
    RunOne(n, l2, DoClear(PP.Accepted));
    RunOne(n, l3, late);
    LateSend(n, l.w, rpc);
  }

  lemma LateSend(n: int, w: PP.World, rpc: Rpc)
    requires PP.IsConnected(w) && w.u.armed.Some? && w.u.waiting == []
    ensures
      var fired := PP.Step(n, w, PP.TimerDue);
      var cleared := PP.Step(n, fired, PP.Clear(PP.Accepted));
      && cleared.u.waiting != []
      && PP.Step(n, cleared, PP.Execute(0, rpc, false, PP.Accepted)).peer.shown == Some(rpc)
      && PP.Step(n, cleared, PP.Execute(0, rpc, false, PP.Accepted)).u.heartbeating
  {
  }

  lemma PauseReachesReconcile(n: int, l: Loop)
    requires l.pc == Idle && l.mode == ModeConnected && l.callers == 0
    ensures Run(n, l, [StorePause(true), SignalPause, WakeByPause, ReadPause])
         == l.(paused := true, unread := false, lastRead := true, pc := Clearing, token := false)
  {
    var l1 := Step(n, l, StorePause(true));
    var l2 := Step(n, l1, SignalPause);
    var l3 := Step(n, l2, WakeByPause);
    assert Run(n, l3, [ReadPause]) == Run(n, Step(n, l3, ReadPause), []);
    assert Run(n, l2, [WakeByPause, ReadPause]) == Run(n, l3, [ReadPause]);
    assert Run(n, l1, [SignalPause, WakeByPause, ReadPause]) == Run(n, l2, [WakeByPause, ReadPause]);
  }
}
