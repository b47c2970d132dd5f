/** The Riot Client connection as the object it is, driven by one goroutine
    between lock sections. Every method leaves the transport's invariants in
    place and says what becomes of the registry, the sockets and the flag. */
module RiotClient {
  import opened Option
  import RR = RiotRegistry
  import opened RiotTransport

  /** The connections once the newest one's listener is gone. */
  function Over(socks: seq<Sock>): (r: seq<Sock>)
    ensures |r| == |socks|
  {
    if socks == [] || socks[|socks| - 1].listener == Gone then socks
    else socks[|socks| - 1 := socks[|socks| - 1].(listener := Gone, closes := socks[|socks| - 1].closes + 1)]
  }

  class Client<H> {
    const subs: RR.Registry<H>
    var conn: Option<nat>
    var connected: bool
    var haveCreds: bool
    /** Every connection so far, newest last: the network's side of things. */
    var socks: seq<Sock>

    ghost function Now(): Transport<H> reads this, subs {
      Transport(subs.Abs(), socks, conn, connected, Free, Unlocked)
    }

    /** The transport's invariants, a completed replay behind every current
        socket, and credentials exactly while there is one. */
    ghost predicate Valid() reads this, subs {
      && Generations(Now()) && Subscriptions(Now())
      && (conn.Some? ==> socks[conn.value].replayed)
      && (haveCreds <==> conn.Some?)
    }

    constructor ()
      ensures Valid() && fresh(subs) && Now() == Fresh<H>()
    {
      subs := new RR.Registry<H>();
      conn, connected, haveCreds, socks := None, false, false, [];
    }

    /** The newest connection's listener sees the socket die, lowers the flag
        and closes the channel. */
    method ListenerExits()
      requires Valid()
      modifies this`connected, this`socks
      ensures Valid() && !connected && socks == Over(old(socks)) && PreviousGone(Now())
    {
      connected := false;
      if socks != [] {
        var g := |socks| - 1;
        if socks[g].listener != Gone {
          socks := socks[g := socks[g].(listener := Gone, closes := socks[g].closes + 1)];
        }
      }
    }

    method Disconnect()
      requires Valid()
      modifies this`conn, this`connected, this`haveCreds
      ensures Valid() && conn == None && !connected
      ensures Now() == Run(old(Now()), [BeginDisconnect, Owns(true), Owns(true)])
    {
      RunThree(Now(), BeginDisconnect, Owns(true), Owns(true));
      conn, haveCreds := None, false;
      connected := false;
    }

    /** found: discovery and dial succeed. failAt: how many replayed frames go
        out before a write fails. The wait for the previous listener ends with
        its exit. */
    method Connect(found: bool, failAt: nat) returns (ok: bool)
      requires Valid()
      modifies this
      ensures Valid() && subs.Abs() == old(subs.Abs())
      ensures ok == (found && failAt >= |subs.order|) && connected == ok
      ensures !found ==> socks == Over(old(socks)) && conn == if old(connected) then None else old(conn)
      ensures found ==> |socks| == |old(socks)| + 1 && socks[..|old(socks)|] == Over(old(socks))
      ensures ok ==> conn == Some(|socks| - 1) && socks[|socks| - 1] == Sock(subs.order, true, Running, 0)
      ensures found && !ok ==>
        conn == None && socks[|socks| - 1] == Sock(subs.order[..failAt], false, Gone, 1)
    {
      hide Generations, Subscriptions, Run;
      if connected {
        Disconnect();
      }
      ListenerExits();
      NewConnection(Now(), failAt);
      if !found {
        return false;
      }
      ok := Open(failAt);
    }

    /** Publishes a new socket, replays the subscriptions on it and either
        starts its listener or tears it down again. */
    method Open(failAt: nat) returns (ok: bool)
      requires !connected
      modifies this
      ensures ok == (failAt >= |subs.order|) && connected == ok
      ensures conn == (if ok then Some(|old(socks)|) else None) && haveCreds == ok
      ensures socks == old(socks) + [if ok then Sock(subs.order, true, Running, 0)
                                     else Sock(subs.order[..failAt], false, Gone, 1)]
    {
      var g := |socks|;
      socks := socks + [Sock([], false, NotStarted, 0)];
      conn, haveCreds := Some(g), true;
      ok := ReplaySubscriptions(failAt);
      if !ok {
        socks := socks[g := socks[g].(listener := Gone, closes := socks[g].closes + 1)];
        conn, haveCreds := None, false;
        return;
      }
      connected := true;
      socks := socks[g := socks[g].(replayed := true, listener := Running)];
    }

    /** Every registered name goes out on the newest socket, in order. */
    method ReplaySubscriptions(failAt: nat) returns (ok: bool)
      requires socks != [] && socks[|socks| - 1].frames == []
      modifies this`socks
      ensures ok == (failAt >= |subs.order|)
      ensures var g, before := |old(socks)| - 1, old(socks);
        socks == before[g := before[g].(frames := if ok then subs.order else subs.order[..failAt])]
    {
      var g, names := |socks| - 1, subs.order;
      for k := 0 to |names|
        invariant k <= failAt
        invariant socks == old(socks)[g := old(socks)[g].(frames := names[..k])]
      {
        if k == failAt {
          return false;
        }
        assert names[..k + 1] == names[..k] + [names[k]];
        socks := socks[g := socks[g].(frames := socks[g].frames + [names[k]])];
      }
      assert names[..|names|] == names;
      ok := true;
    }

    /** sent: whether the subscribe frame, if one is needed, can be written. */
    method Subscribe(name: string, h: H, sent: bool) returns (ok: bool)
      requires Valid()
      modifies this`socks, subs
      ensures Valid()
      ensures ok == (name != "" && (name in old(subs.handlers) || conn.None? || sent))
      ensures subs.Abs() == if ok then RR.Add(old(subs.Abs()), name, h) else old(subs.Abs())
      ensures Now() == Step(Step(old(Now()), BeginSubscribe(name, h)), SendSubscribe(sent))
    {
      hide RR.WellFormed, Generations, Subscriptions;
      ghost var t := Now();
      GenerationsStep(t, BeginSubscribe(name, h));
      SubscriptionsStep(t, BeginSubscribe(name, h));
      GenerationsStep(Step(t, BeginSubscribe(name, h)), SendSubscribe(sent));
      SubscriptionsStep(Step(t, BeginSubscribe(name, h)), SendSubscribe(sent));
      CurIsNewest(t);
      if name == "" {
        return false;
      }
      RR.RemoveLastUndoesAdd(subs.Abs(), name, h);
      var isNew := subs.AddHandler(name, h);
      if !isNew {
        return true;
      }
      if conn.None? {
        return true;
      }
      if !sent {
        subs.RemoveLastHandler(name);
        return false;
      }
      socks := socks[conn.value := socks[conn.value].(frames := socks[conn.value].frames + [name])];
      ok := true;
    }
  }

  /** What Connect leaves behind keeps the invariants, replayed or not. */
  lemma NewConnection<H>(t: Transport<H>, failAt: nat)
    requires Generations(t) && Subscriptions(t) && t.owner == Free && t.sub == Unlocked && PreviousGone(t)
    ensures
      var up := t.(socks := t.socks + [Sock(t.reg.order, true, Running, 0)],
                   cur := Some(|t.socks|), connected := true);
      Generations(up) && Subscriptions(up)
    ensures failAt <= |t.reg.order| ==>
      var down := t.(socks := t.socks + [Sock(t.reg.order[..failAt], false, Gone, 1)], cur := None, connected := false);
      Generations(down) && Subscriptions(down)
  {
    hide RR.WellFormed;
  }

  lemma CurIsNewest<H>(t: Transport<H>)
    requires Generations(t) && Subscriptions(t)
    ensures t.cur.Some? ==> t.cur.value < |t.socks|
    ensures RR.WellFormed(t.reg)
  {
  }

  lemma RunThree<H>(t: Transport<H>, a: Act<H>, b: Act<H>, c: Act<H>)
    ensures Run(t, [a, b, c]) == Step(Step(Step(t, a), b), c)
  {
    hide Step;
    assert [a, b, c][1..] == [b, c] && [b, c][1..] == [c];
    assert Run(Step(Step(t, a), b), [c]) == Run(Step(Step(Step(t, a), b), c), []);
    assert Run(Step(t, a), [b, c]) == Run(Step(Step(t, a), b), [c]);
  }
}
