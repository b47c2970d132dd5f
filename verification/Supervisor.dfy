/** The connection supervisor's retry loop. The world answers each thing the
    loop asks or waits for; a script of answers is as much of a run as has
    been observed, so statements about every script are about every run. */
module Supervisor {

  /** An answer, read by the question: ready, connected, error-free, or slept
      for Yes; the opposite for No; the context was canceled for Canceled. */
  datatype Answer = Yes | No | Canceled

  datatype Ev =
    | SawCancel | GateReady | GateNotReady
    | ConnectOk | ConnectFailed | ConnectAbandoned
    | OnConnect | StillConnected | LostConnection | PollCanceled
    | Disconnect | OnDisconnect
    | Slept | SleepCanceled

  predicate IsConnect(e: Ev) { e in {ConnectOk, ConnectFailed, ConnectAbandoned} }

  // ------------------------------------------------------------ the language

  /** What may open a turn of the loop. */
  predicate Opens(hasGate: bool, e: Ev) {
    e == SawCancel || (if hasGate then e in {GateReady, GateNotReady} else IsConnect(e))
  }

  predicate Follows(hasGate: bool, a: Ev, b: Ev) {
    match a
    case GateReady => IsConnect(b)
    case GateNotReady => b in {Slept, SleepCanceled}
    case ConnectFailed => b in {Slept, SleepCanceled}
    case ConnectOk => b == OnConnect
    case OnConnect => b in {StillConnected, LostConnection, PollCanceled}
    case StillConnected => b in {StillConnected, LostConnection, PollCanceled}
    case LostConnection => b == Disconnect
    case PollCanceled => b == Disconnect
    case Disconnect => b == OnDisconnect
    case OnDisconnect => Opens(hasGate, b)
    case Slept => Opens(hasGate, b)
    case SawCancel => false
    case SleepCanceled => false
    case ConnectAbandoned => false
  }

  /** A teardown that a cancellation asked for is the end of the trace. */
  predicate EndsHere(t: seq<Ev>, i: int) {
    2 <= i < |t| && t[i] == OnDisconnect && t[i - 2] == PollCanceled
  }

  /** The traces of the loop. */
  ghost predicate InLanguage(hasGate: bool, t: seq<Ev>) {
    && (t != [] ==> Opens(hasGate, t[0]))
    && (forall i :: 0 <= i < |t| - 1 ==> Follows(hasGate, t[i], t[i + 1]))
    && (forall i :: 0 <= i < |t| - 1 ==> !EndsHere(t, i))
  }

  /** The run is over, and a cancellation ended it. */
  predicate Returned(t: seq<Ev>) {
    t != [] && (t[|t| - 1] in {SawCancel, SleepCanceled, ConnectAbandoned} || EndsHere(t, |t| - 1))
  }

  /** The last of the two callbacks in t is the connect one. */
  predicate Up(t: seq<Ev>) {
    t != [] && (t[|t| - 1] == OnConnect || (t[|t| - 1] != OnDisconnect && Up(t[..|t| - 1])))
  }

  lemma Extends(hasGate: bool, t: seq<Ev>, e: Ev)
    requires InLanguage(hasGate, t) && !EndsHere(t, |t| - 1)
    requires if t == [] then Opens(hasGate, e) else Follows(hasGate, t[|t| - 1], e)
    ensures InLanguage(hasGate, t + [e])
    ensures Up(t + [e]) <==> e == OnConnect || (e != OnDisconnect && Up(t))
  {
    var u := t + [e];
    assert u[..|t|] == t;
    forall i | 0 <= i < |u| - 1 ensures !EndsHere(u, i) {
      assert EndsHere(u, i) == EndsHere(t, i);
    }
  }

  // ---------------------------------------------------------------- the loop

  /** What the loop asks next. */
  datatype Phase = Top | AskGate | Connecting | Sleeping | Polling

  datatype Next = Over | More(value: Phase)

  /** What one answer adds to the trace, and where the loop goes from there. */
  function Turn(hasGate: bool, p: Phase, a: Answer): (r: (seq<Ev>, Next)) {
    match p
    case Top => if a == Canceled then ([SawCancel], Over) else ([], More(if hasGate then AskGate else Connecting))
    case AskGate => if a == Yes then ([GateReady], More(Connecting)) else ([GateNotReady], More(Sleeping))
    case Connecting =>
      if a == Canceled then ([ConnectAbandoned], Over)
      else if a == No then ([ConnectFailed], More(Sleeping))
      else ([ConnectOk, OnConnect], More(Polling))
    case Sleeping => if a == Canceled then ([SleepCanceled], Over) else ([Slept], More(Top))
    case Polling =>
      if a == Canceled then ([PollCanceled, Disconnect, OnDisconnect], Over)
      else if a == No then ([LostConnection, Disconnect, OnDisconnect], More(Top))
      else ([StillConnected], More(Polling))
  }

  /** The trace the answers lead to, as far as they go. */
  function TraceOf(hasGate: bool, p: Phase, env: seq<Answer>): seq<Ev>
    decreases |env|
  {
    if env == [] then []
    else
      var (here, next) := Turn(hasGate, p, env[0]);
      here + if next.Over? then [] else TraceOf(hasGate, next.value, env[1..])
  }

  /** t ends where a loop in phase p stands. */
  predicate Reaches(hasGate: bool, t: seq<Ev>, p: Phase) {
    match p
    case Top => AtTop(t)
    case AskGate => hasGate && AtTop(t)
    case Connecting => if hasGate then t != [] && t[|t| - 1] == GateReady else AtTop(t)
    case Sleeping => t != [] && t[|t| - 1] in {GateNotReady, ConnectFailed}
    case Polling => t != [] && t[|t| - 1] in {OnConnect, StillConnected}
  }

  predicate AtTop(t: seq<Ev>) {
    t == [] || (t[|t| - 1] in {Slept, OnDisconnect} && !EndsHere(t, |t| - 1))
  }

  lemma TurnInLanguage(hasGate: bool, t: seq<Ev>, p: Phase, a: Answer)
    requires InLanguage(hasGate, t) && Reaches(hasGate, t, p)
    ensures var (here, next) := Turn(hasGate, p, a);
      && InLanguage(hasGate, t + here)
      && (next.More? ==> Reaches(hasGate, t + here, next.value))
  {
    hide InLanguage, Up;
    var here := Turn(hasGate, p, a).0;
    if here == [] {
      assert t + here == t;
    } else {
      var t1 := t + [here[0]];
      Extends(hasGate, t, here[0]);
      if |here| == 1 {
        assert t1 == t + here;
      } else {
        var t2 := t1 + [here[1]];
        Extends(hasGate, t1, here[1]);
        if |here| == 2 {
          assert t2 == t + here;
        } else {
          Extends(hasGate, t2, here[2]);
          assert t2 + [here[2]] == t + here;
        }
      }
    }
  }

  /** Every run's trace is in the language. */
  lemma {:induction false} TraceInLanguage(hasGate: bool, t: seq<Ev>, p: Phase, env: seq<Answer>)
    requires InLanguage(hasGate, t) && Reaches(hasGate, t, p)
    ensures InLanguage(hasGate, t + TraceOf(hasGate, p, env))
    decreases |env|
  {
    hide InLanguage, Turn, Reaches;
    if env == [] {
      assert t + [] == t;
      return;
    }
    var (here, next) := Turn(hasGate, p, env[0]);
    TurnInLanguage(hasGate, t, p, env[0]);
    if next.More? {
      var rest := TraceOf(hasGate, next.value, env[1..]);
      TraceInLanguage(hasGate, t + here, next.value, env[1..]);
      assert t + (here + rest) == t + here + rest;
    } else {
      assert t + (here + []) == t + here;
    }
  }

  /** The observed part of every run is a trace of the language. */
  lemma EveryRunIsInTheLanguage(hasGate: bool, env: seq<Answer>)
    ensures InLanguage(hasGate, TraceOf(hasGate, Top, env))
  {
    TraceInLanguage(hasGate, [], Top, env);
    assert [] + TraceOf(hasGate, Top, env) == TraceOf(hasGate, Top, env);
  }

  class Supervisor {
    const hasGate: bool
    /** What the wrapping supervisors report as Connected. */
    var connected: bool
    ghost var trace: seq<Ev>

    constructor (hasGate: bool)
      ensures this.hasGate == hasGate && !connected && trace == []
    {
      this.hasGate := hasGate;
      connected, trace := false, [];
    }

    method WrappedOnConnect()
      modifies this
      ensures connected && trace == old(trace) + [OnConnect]
    {
      connected := true;
      trace := trace + [OnConnect];
    }

    method WrappedOnDisconnect()
      modifies this
      ensures !connected && trace == old(trace) + [OnDisconnect]
    {
      connected := false;
      trace := trace + [OnDisconnect];
    }

    /** What is traced, and what the answers from i on add from phase p on,
        is the whole run. */
    ghost predicate OnTrack(env: seq<Answer>, i: nat, p: Phase)
      requires i <= |env|
      reads this
    {
      trace + TraceOf(hasGate, p, env[i..]) == TraceOf(hasGate, Top, env)
    }

    /** Waits out the retry interval; false when it was cut short. */
    method Sleep(env: seq<Answer>, i: nat) returns (done: bool)
      requires i < |env| && OnTrack(env, i, Sleeping)
      modifies this`trace
      ensures done == (env[i] != Canceled)
      ensures trace == old(trace) + [if done then Slept else SleepCanceled]
      ensures if done then OnTrack(env, i + 1, Top) else trace == TraceOf(hasGate, Top, env)
    {
      OneTurn(hasGate, trace, Sleeping, env, i);
      done := env[i] != Canceled;
      trace := trace + [if done then Slept else SleepCanceled];
    }

    /** Polls until the connection is lost, the run is canceled, or there is
        nothing more to observe. */
    method WaitWhileConnected(env: seq<Answer>, i: nat) returns (j: nat, ended: bool, canceled: bool)
      requires i <= |env| && OnTrack(env, i, Polling) && Reaches(hasGate, trace, Polling)
      modifies this`trace
      ensures i <= j <= |env|
      ensures !ended ==> j == |env| && OnTrack(env, j, Polling) && Reaches(hasGate, trace, Polling)
      ensures ended ==> trace != [] && trace[|trace| - 1] == if canceled then PollCanceled else LostConnection
      ensures ended && canceled ==> trace + [Disconnect, OnDisconnect] == TraceOf(hasGate, Top, env)
      ensures ended && !canceled ==>
        i < j && trace + [Disconnect, OnDisconnect] + TraceOf(hasGate, Top, env[j..]) == TraceOf(hasGate, Top, env)
    {
      hide TraceOf;
      j := i;
      while j < |env|
        invariant i <= j <= |env| && OnTrack(env, j, Polling) && Reaches(hasGate, trace, Polling)
      {
        OneTurn(hasGate, trace, Polling, env, j);
        j := j + 1;
        if env[j - 1] == Canceled {
          TeardownAfter(trace, PollCanceled);
          trace := trace + [PollCanceled];
          return j, true, true;
        }
        if env[j - 1] == No {
          TeardownAfter(trace, LostConnection);
          trace := trace + [LostConnection];
          return j, true, false;
        }
        trace := trace + [StillConnected];
      }
      return j, false, false;
    }

    /** What one stage of a turn leaves: another turn, a finished run, or an
        observation that stops here. */
    ghost predicate Leaves(env: seq<Answer>, j: nat, outcome: Outcome)
      requires j <= |env|
      reads this
    {
      match outcome
      case Retry => OnTrack(env, j, Top) && AtTop(trace) && !connected
      case Ended => trace == TraceOf(hasGate, Top, env) && Returned(trace) && !connected
      case Unfinished => trace == TraceOf(hasGate, Top, env) && !Returned(trace) && connected == InSession(trace)
    }

    /** Sleeps before a retry, if there is anything left to observe. */
    method RetryLater(env: seq<Answer>, i: nat) returns (j: nat, outcome: Outcome)
      requires i <= |env| && OnTrack(env, i, Sleeping) && !connected && Reaches(hasGate, trace, Sleeping)
      modifies this`trace
      ensures i <= j <= |env| && Leaves(env, j, outcome)
    {
      hide TraceOf;
      j := i;
      if i == |env| {
        NoMoreAnswers(hasGate, trace, Sleeping, env);
        return j, Unfinished;
      }
      var slept := Sleep(env, i);
      return i + 1, if slept then Retry else Ended;
    }

    /** An open session: polled until it ends, then torn down. */
    method Session(env: seq<Answer>, i: nat) returns (j: nat, outcome: Outcome)
      requires i <= |env| && OnTrack(env, i, Polling) && connected && Reaches(hasGate, trace, Polling)
      modifies this
      ensures i <= j <= |env| && Leaves(env, j, outcome)
    {
      hide TraceOf;
      var ended, canceled;
      j, ended, canceled := WaitWhileConnected(env, i);
      if !ended {
        NoMoreAnswers(hasGate, trace, Polling, env);
        return j, Unfinished;
      }
      TwoMore(trace, Disconnect, OnDisconnect);
      trace := trace + [Disconnect];
      WrappedOnDisconnect();
      outcome := if canceled then Ended else Retry;
    }

    /** One connect attempt and, if it succeeds, the session it opens. */
    method Attempt(env: seq<Answer>, i: nat) returns (j: nat, outcome: Outcome)
      requires i <= |env| && OnTrack(env, i, Connecting) && !connected && Reaches(hasGate, trace, Connecting)
      modifies this
      ensures i <= j <= |env| && Leaves(env, j, outcome)
    {
      hide TraceOf;
      j := i;
      if i == |env| {
        NoMoreAnswers(hasGate, trace, Connecting, env);
        return j, Unfinished;
      }
      OneTurn(hasGate, trace, Connecting, env, i);
      if env[i] == Canceled {
        trace := trace + [ConnectAbandoned];
        return i + 1, Ended;
      }
      if env[i] == No {
        trace := trace + [ConnectFailed];
        j, outcome := RetryLater(env, i + 1);
        return;
      }
      TwoMore(trace, ConnectOk, OnConnect);
      trace := trace + [ConnectOk];
      WrappedOnConnect();
      j, outcome := Session(env, i + 1);
    }

    /** The context check and the gate at the top of a turn; passed when a
        connect attempt is next. */
    method AwaitGate(env: seq<Answer>, i: nat) returns (j: nat, passed: bool, outcome: Outcome)
      requires i < |env| && Leaves(env, i, Retry)
      modifies this`trace
      ensures passed <==> env[i] != Canceled && (!hasGate || (i + 1 < |env| && env[i + 1] == Yes))
      ensures i < j <= |env| && !connected
      ensures if passed then OnTrack(env, j, Connecting) && Reaches(hasGate, trace, Connecting)
              else Leaves(env, j, outcome)
    {
      hide TraceOf;
      OneTurn(hasGate, trace, Top, env, i);
      j, passed, outcome := i + 1, false, Unfinished;
      if env[i] == Canceled {
        trace := trace + [SawCancel];
        return j, false, Ended;
      }
      if !hasGate {
        return j, true, outcome;
      }
      if j == |env| {
        NoMoreAnswers(hasGate, trace, AskGate, env);
        return;
      }
      OneTurn(hasGate, trace, AskGate, env, j);
      if env[j] == Yes {
        trace := trace + [GateReady];
        return j + 1, true, outcome;
      }
      trace := trace + [GateNotReady];
      j, outcome := RetryLater(env, j + 1);
    }

    /** Retries until a cancellation ends the run or the answers run out. */
    method Run(env: seq<Answer>) returns (returned: bool)
      requires trace == [] && !connected
      modifies this
      ensures trace == TraceOf(hasGate, Top, env)
      ensures connected == Up(trace) && returned == Returned(trace)
      ensures returned ==> !connected
    {
      hide InLanguage, Up, TraceOf, EndsHere, AtTop, Returned, InSession;
      WholeRun(hasGate, env);
      var i, outcome := 0, Retry;
      while i < |env| && outcome == Retry
        invariant i <= |env| && Leaves(env, i, outcome)
        decreases |env| - i
      {
        var passed;
        i, passed, outcome := AwaitGate(env, i);
        if passed {
          i, outcome := Attempt(env, i);
        }
      }
      if outcome == Retry {
        NoMoreAnswers(hasGate, trace, Top, env);
      }
      returned := outcome == Ended;
    }
  }

  datatype Outcome = Retry | Ended | Unfinished

  /** Between the two callbacks, both included but the last. */
  predicate InSession(t: seq<Ev>) {
    t != [] && t[|t| - 1] in {OnConnect, StillConnected, LostConnection, PollCanceled, Disconnect}
  }

  lemma WholeRun(hasGate: bool, env: seq<Answer>)
    ensures [] + TraceOf(hasGate, Top, env[0..]) == TraceOf(hasGate, Top, env)
    ensures AtTop([])
    ensures var t := TraceOf(hasGate, Top, env); Up(t) <==> InSession(t)
    ensures forall t :: AtTop(t) || Returned(t) ==> !InSession(t)
    ensures forall t :: AtTop(t) ==> !Returned(t)
  {
    hide InLanguage, Up, TraceOf;
    EveryRunIsInTheLanguage(hasGate, env);
    UpOnlyInSession(hasGate, TraceOf(hasGate, Top, env));
    assert env[0..] == env;
  }

  /** One answer, unfolded at the end of a trace. */
  lemma OneTurn(hasGate: bool, t: seq<Ev>, p: Phase, env: seq<Answer>, i: nat)
    requires i < |env|
    ensures var (here, next) := Turn(hasGate, p, env[i]);
      t + TraceOf(hasGate, p, env[i..])
      == if next.Over? then t + here else (t + here) + TraceOf(hasGate, next.value, env[i + 1..])
    ensures t + [] == t
  {
    hide Turn;
    var (here, next) := Turn(hasGate, p, env[i]);
    assert env[i..][0] == env[i] && env[i..][1..] == env[i + 1..];
    if next.More? {
      var rest := TraceOf(hasGate, next.value, env[i + 1..]);
      assert t + (here + rest) == (t + here) + rest;
    } else {
      assert here + [] == here;
    }
  }

  lemma TwoMore(t: seq<Ev>, a: Ev, b: Ev)
    ensures t + [a] + [b] == t + [a, b]
  {
  }

  lemma TeardownAfter(t: seq<Ev>, e: Ev)
    ensures t + [e, Disconnect, OnDisconnect] == t + [e] + [Disconnect, OnDisconnect]
  {
  }

  lemma NoMoreAnswers(hasGate: bool, t: seq<Ev>, p: Phase, env: seq<Answer>)
    ensures t + TraceOf(hasGate, p, env[|env|..]) == t
  {
  }

  // ------------------------------------------------- what the language means

  /** With a gate, each connect attempt directly follows a ready one. */
  lemma ConnectFollowsReadyGate(t: seq<Ev>, i: nat)
    requires InLanguage(true, t) && i < |t| && IsConnect(t[i])
    ensures i > 0 && t[i - 1] == GateReady
  {
    if i > 0 {
      assert Follows(true, t[i - 1], t[i]);
    }
  }

  /** Where the session opened by a success at i stops being polled. */
  lemma {:induction false} SessionEnd(hasGate: bool, t: seq<Ev>, i: nat) returns (m: nat)
    requires InLanguage(hasGate, t) && i < |t| && t[i] in {OnConnect, StillConnected}
    ensures i < m <= |t| && forall k :: i < k < m ==> t[k] == StillConnected
    ensures m < |t| ==> t[m] in {LostConnection, PollCanceled}
    decreases |t| - i
  {
    m := i + 1;
    if m < |t| {
      assert Follows(hasGate, t[i], t[m]);
      if t[m] == StillConnected {
        m := SessionEnd(hasGate, t, m);
      }
    }
  }

  /** After a teardown nothing of a session happens until the next success. */
  lemma {:induction false} BetweenSessions(hasGate: bool, t: seq<Ev>, i: nat, j: nat)
    requires InLanguage(hasGate, t) && i < j <= |t|
    requires t[i] == OnDisconnect
    requires forall k :: i < k < j ==> t[k] != ConnectOk
    ensures forall k :: i < k < j ==>
      t[k] in {SawCancel, GateReady, GateNotReady, ConnectFailed, ConnectAbandoned, Slept, SleepCanceled}
    decreases j - i
  {
    if i + 1 < j {
      BetweenSessions(hasGate, t, i, j - 1);
      assert Follows(hasGate, t[j - 2], t[j - 1]);
    }
  }

  /** Each observed success is followed by the connect callback, then one
      Disconnect, then the disconnect callback, all before the next connect
      attempt, and nothing of the kind happens twice. */
  lemma OneTeardownPerSuccess(hasGate: bool, t: seq<Ev>, i: nat, j: nat) returns (d: nat)
    requires InLanguage(hasGate, t)
    requires i < j < |t| && t[i] == ConnectOk && IsConnect(t[j])
    requires forall k :: i < k < j ==> !IsConnect(t[k])
    ensures i + 2 < d < j - 1
    ensures t[i + 1] == OnConnect && t[d] == Disconnect && t[d + 1] == OnDisconnect
    ensures forall k :: i < k < j ==>
      (t[k] == OnConnect <==> k == i + 1) && (t[k] == Disconnect <==> k == d) && (t[k] == OnDisconnect <==> k == d + 1)
  {
    assert Follows(hasGate, t[i], t[i + 1]);
    var m := SessionEnd(hasGate, t, i + 1);
    assert IsConnect(t[j]) && t[j] != StillConnected;
    assert m < j && t[m] in {LostConnection, PollCanceled};
    assert Follows(hasGate, t[m], t[m + 1]);
    d := m + 1;
    assert Follows(hasGate, t[d], t[d + 1]);
    BetweenSessions(hasGate, t, d + 1, j);
  }

  /** The reported flag is up exactly from a connect callback to the matching
      disconnect callback, so it is down whenever no session is open. */
  lemma {:induction false} UpOnlyInSession(hasGate: bool, t: seq<Ev>)
    requires InLanguage(hasGate, t)
    ensures Up(t) <==> InSession(t)
  {
    if t != [] {
      var front := t[..|t| - 1];
      assert forall i :: 0 <= i < |front| ==> EndsHere(front, i) == EndsHere(t, i);
      UpOnlyInSession(hasGate, front);
      if front != [] {
        assert Follows(hasGate, t[|t| - 2], t[|t| - 1]);
      }
    }
  }

  // ------------------------------------------------- which answer does what

  /** Without a ready answer the gate lets no attempt through. */
  lemma {:induction false} NoReadyGateNoConnect(p: Phase, env: seq<Answer>)
    requires p in {Top, AskGate, Sleeping}
    requires forall i :: 0 <= i < |env| ==> env[i] != Yes
    ensures forall e :: e in TraceOf(true, p, env) ==> !IsConnect(e)
    decreases |env|
  {
    if env != [] {
      var (here, next) := Turn(true, p, env[0]);
      if next.More? {
        NoReadyGateNoConnect(next.value, env[1..]);
      }
    }
  }

  /** One answer, unfolded at the front. */
  lemma FirstTurn(hasGate: bool, p: Phase, a: Answer, rest: seq<Answer>)
    ensures
      var (here, next) := Turn(hasGate, p, a);
      TraceOf(hasGate, p, [a] + rest) == here + if next.Over? then [] else TraceOf(hasGate, next.value, rest)
  {
    assert ([a] + rest)[1..] == rest;
  }

  /** The turn up to the attempt: a ready gate, or none, and the context alive. */
  lemma ReadyGateConnects(hasGate: bool, a: Answer, rest: seq<Answer>)
    requires a != Canceled
    ensures TraceOf(true, Top, [a, Yes] + rest) == [GateReady] + TraceOf(true, Connecting, rest)
    ensures TraceOf(false, Top, [a] + rest) == TraceOf(false, Connecting, rest)
  {
    hide TraceOf;
    FirstTurn(true, Top, a, [Yes] + rest);
    FirstTurn(true, AskGate, Yes, rest);
    FirstTurn(false, Top, a, rest);
    assert [a] + ([Yes] + rest) == [a, Yes] + rest;
    assert [] + TraceOf(true, AskGate, [Yes] + rest) == TraceOf(true, AskGate, [Yes] + rest);
    assert [] + TraceOf(false, Connecting, rest) == TraceOf(false, Connecting, rest);
  }

  /** A gate that is not ready, or fails, costs a full wait and another turn. */
  lemma NotReadyWaits(a: Answer, gate: Answer, slept: Answer, rest: seq<Answer>)
    requires a != Canceled && gate != Yes && slept != Canceled
    ensures TraceOf(true, Top, [a, gate, slept] + rest) == [GateNotReady, Slept] + TraceOf(true, Top, rest)
  {
    hide TraceOf;
    FirstTurn(true, Top, a, [gate, slept] + rest);
    FirstTurn(true, AskGate, gate, [slept] + rest);
    FirstTurn(true, Sleeping, slept, rest);
    assert [a] + ([gate, slept] + rest) == [a, gate, slept] + rest;
    assert [gate] + ([slept] + rest) == [gate, slept] + rest;
    assert [GateNotReady] + ([Slept] + TraceOf(true, Top, rest)) == [GateNotReady, Slept] + TraceOf(true, Top, rest);
  }

  /** So does a failed attempt, gate or no gate. */
  lemma FailedConnectWaits(hasGate: bool, slept: Answer, rest: seq<Answer>)
    requires slept != Canceled
    ensures TraceOf(hasGate, Connecting, [No, slept] + rest) == [ConnectFailed, Slept] + TraceOf(hasGate, Top, rest)
  {
    hide TraceOf;
    FirstTurn(hasGate, Connecting, No, [slept] + rest);
    FirstTurn(hasGate, Sleeping, slept, rest);
    assert [No] + ([slept] + rest) == [No, slept] + rest;
    assert [ConnectFailed] + ([Slept] + TraceOf(hasGate, Top, rest))
        == [ConnectFailed, Slept] + TraceOf(hasGate, Top, rest);
  }

  /** A successful attempt opens a session that goes on exactly while the polls
      answer yes; a lost one is torn down and tried again. */
  lemma {:induction false} SessionLasts(hasGate: bool, polls: nat, rest: seq<Answer>)
    ensures TraceOf(hasGate, Polling, seq(polls, _ => Yes) + [No] + rest)
         == seq(polls, _ => StillConnected) + [LostConnection, Disconnect, OnDisconnect] + TraceOf(hasGate, Top, rest)
  {
    hide TraceOf;
    if polls == 0 {
      FirstTurn(hasGate, Polling, No, rest);
      assert seq(0, _ => Yes) + [No] + rest == [No] + rest;
      assert seq(0, _ => StillConnected) == [];
    } else {
      var env := seq(polls - 1, _ => Yes) + [No] + rest;
      var ev := seq(polls - 1, _ => StillConnected) + [LostConnection, Disconnect, OnDisconnect];
      SessionLasts(hasGate, polls - 1, rest);
      FirstTurn(hasGate, Polling, Yes, env);
      assert seq(polls, _ => Yes) + [No] + rest == [Yes] + env;
      assert [StillConnected] + (ev + TraceOf(hasGate, Top, rest))
          == seq(polls, _ => StillConnected) + [LostConnection, Disconnect, OnDisconnect] + TraceOf(hasGate, Top, rest);
    }
  }

  lemma ConnectOpensSession(hasGate: bool, rest: seq<Answer>)
    ensures TraceOf(hasGate, Connecting, [Yes] + rest) == [ConnectOk, OnConnect] + TraceOf(hasGate, Polling, rest)
  {
    FirstTurn(hasGate, Connecting, Yes, rest);
  }

  /** A cancellation ends the run wherever it is noticed, after the teardown if
      a session is open; at the gate it is only noticed by the wait. */
  lemma CancellationEnds(hasGate: bool, rest: seq<Answer>)
    ensures TraceOf(hasGate, Top, [Canceled] + rest) == [SawCancel]
    ensures TraceOf(hasGate, Connecting, [Canceled] + rest) == [ConnectAbandoned]
    ensures TraceOf(hasGate, Sleeping, [Canceled] + rest) == [SleepCanceled]
    ensures TraceOf(hasGate, Polling, [Canceled] + rest) == [PollCanceled, Disconnect, OnDisconnect]
  {
    FirstTurn(hasGate, Top, Canceled, rest);
    FirstTurn(hasGate, Connecting, Canceled, rest);
    FirstTurn(hasGate, Sleeping, Canceled, rest);
    FirstTurn(hasGate, Polling, Canceled, rest);
  }
}
