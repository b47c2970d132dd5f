/** The Riot Client transport under reconnects, as a state machine: one owner
    runs Connect and Disconnect, any goroutine may Subscribe, and each socket
    has a listener that lowers the connected flag and then closes the
    connection's channel when the socket drops. Every lock section and every
    blocking call is its own step; steps that cannot happen change nothing. */
module RiotTransport {
  import opened Option
  import opened RiotRegistry

  datatype Listener = NotStarted | Running | FlagLowered | Gone

  /** One connection: the subscribe frames written to it, whether its replay
      completed, its listener, and how often its channel was closed. */
  datatype Sock = Sock(frames: seq<string>, replayed: bool, listener: Listener, closes: nat)

  /** Where the owner stands in Connect or Disconnect. */
  datatype Owner =
    | Free
    | Taking(reconnect: bool)     // Disconnect: about to take the socket away
    | Lowering(reconnect: bool)   // Disconnect: about to lower the flag
    | Waiting                     // Connect: the previous listener must be gone
    | Finding(dead: bool)         // discovery and dial; dead on a canceled context
    | Publishing                  // about to publish the new socket
    | Replay(k: nat)              // re-sending the k-th subscription
    | TearingDown                 // the replay failed
    | Marking                     // about to raise the flag
    | Spawning                    // about to start the listener

  /** The holder of the lock that pairs the registry with the socket. */
  datatype SubLock = Unlocked | ReplayHolds | Subscribing(name: string, to: nat)

  datatype Transport<H> = Transport(
    reg: Reg<H>, socks: seq<Sock>, cur: Option<nat>, connected: bool, owner: Owner, sub: SubLock)

  function Fresh<H>(): Transport<H> {
    Transport(Reg(map[], []), [], None, false, Free, Unlocked)
  }

  datatype Act<H> =
    | BeginConnect
    | BeginDisconnect
    | Owns(ok: bool)                       // the owner's next step, ok unless it fails
    | Drop(g: nat)                         // a listener sees its socket die
    | CloseChannel(g: nat)                 // and then closes the channel
    | BeginSubscribe(name: string, h: H)
    | SendSubscribe(ok: bool)

  /** The channel Connect waits on is the newest one. */
  predicate PreviousGone<H>(t: Transport<H>) {
    t.socks == [] || t.socks[|t.socks| - 1].listener == Gone
  }

  function OwnerStep<H>(t: Transport<H>, ok: bool): Transport<H> {
    var last := |t.socks| - 1;
    match t.owner
    case Free => t
    case Taking(reconnect) => t.(cur := None, owner := Lowering(reconnect))
    case Lowering(reconnect) => t.(connected := false, owner := if reconnect then Waiting else Free)
    case Waiting =>
      // not ok: the context was canceled and the wait was cut short
      if !ok then t.(owner := Finding(true))
      else if PreviousGone(t) then t.(owner := Finding(false))
      else t
    case Finding(dead) => t.(owner := if ok && !dead then Publishing else Free)
    case Publishing =>
      if t.sub != Unlocked then t
      else t.(socks := t.socks + [Sock([], false, NotStarted, 0)], cur := Some(|t.socks|),
              owner := Replay(0), sub := ReplayHolds)
    case Replay(k) =>
      if t.socks == [] then t
      else if k >= |t.reg.order| then
        t.(socks := t.socks[last := t.socks[last].(replayed := true)], owner := Marking, sub := Unlocked)
      else if ok then
        t.(socks := t.socks[last := t.socks[last].(frames := t.socks[last].frames + [t.reg.order[k]])],
           owner := Replay(k + 1))
      else t.(owner := TearingDown, sub := Unlocked)
    case TearingDown =>
      if t.socks == [] then t
      else t.(socks := t.socks[last := t.socks[last].(listener := Gone, closes := t.socks[last].closes + 1)],
              cur := None, owner := Free)
    case Marking => t.(connected := true, owner := Spawning)
    case Spawning =>
      if t.socks == [] then t
      else t.(socks := t.socks[last := t.socks[last].(listener := Running)], owner := Free)
  }

  function Step<H>(t: Transport<H>, a: Act<H>): Transport<H> {
    match a
    case BeginConnect =>
      if t.owner != Free then t else t.(owner := if t.connected then Taking(true) else Waiting)
    case BeginDisconnect => if t.owner != Free then t else t.(owner := Taking(false))
    case Owns(ok) => OwnerStep(t, ok)
    case Drop(g) =>
      if g < |t.socks| && t.socks[g].listener == Running
      then t.(socks := t.socks[g := t.socks[g].(listener := FlagLowered)], connected := false)
      else t
    case CloseChannel(g) =>
      if g < |t.socks| && t.socks[g].listener == FlagLowered
      then t.(socks := t.socks[g := t.socks[g].(listener := Gone, closes := t.socks[g].closes + 1)])
      else t
    case BeginSubscribe(name, h) =>
      if t.sub != Unlocked || name == "" then t
      else
        var isNew := name !in t.reg.handlers;
        t.(reg := Add(t.reg, name, h),
           sub := if isNew && t.cur.Some? then Subscribing(name, t.cur.value) else Unlocked)
    case SendSubscribe(ok) =>
      if !t.sub.Subscribing? || t.sub.to >= |t.socks| then t
      else if ok then
        var g := t.sub.to;
        t.(socks := t.socks[g := t.socks[g].(frames := t.socks[g].frames + [t.sub.name])], sub := Unlocked)
      else t.(reg := RemoveLast(t.reg, t.sub.name), sub := Unlocked)
  }

  function Run<H>(t: Transport<H>, acts: seq<Act<H>>): Transport<H>
    decreases |acts|
  {
    if acts == [] then t else Run(Step(t, acts[0]), acts[1..])
  }

  // -------------------------------------------------------------- invariants

  /** Between publishing a socket and starting its listener. */
  predicate Building(o: Owner) {
    o.Replay? || o.TearingDown? || o.Marking? || o.Spawning?
  }

  /** One generation at a time: every older connection is over, each channel
      is closed once, and the flag vouches for the newest one only. */
  ghost predicate Generations<H>(t: Transport<H>) {
    && (forall g :: 0 <= g < |t.socks| ==> t.socks[g].closes == if t.socks[g].listener == Gone then 1 else 0)
    && (forall g :: 0 <= g < |t.socks| - 1 ==> t.socks[g].listener == Gone)
    && (t.owner == Finding(false) || t.owner == Publishing ==> PreviousGone(t))
    && (Building(t.owner) ==>
          t.socks != [] && t.socks[|t.socks| - 1].listener == NotStarted && t.cur == Some(|t.socks| - 1))
    && (!Building(t.owner) ==> t.socks == [] || t.socks[|t.socks| - 1].listener != NotStarted)
    && (t.connected ==> t.socks != [])
    && (t.connected ==> t.owner == Spawning || t.socks[|t.socks| - 1].listener == Running)
    && (t.connected && Building(t.owner) ==> t.owner == Spawning)
    && (t.connected ==> t.owner !in {Waiting, Finding(false), Finding(true), Publishing})
    && (t.cur.Some? ==> t.cur.value == |t.socks| - 1)
  }

  /** The current socket, once replayed, carries exactly the registry. */
  ghost predicate Subscriptions<H>(t: Transport<H>) {
    && WellFormed(t.reg)
    && (t.cur.Some? ==> t.cur.value == |t.socks| - 1)
    && (t.sub == ReplayHolds <==> t.owner.Replay?)
    && (Building(t.owner) ==> t.socks != [] && t.cur == Some(|t.socks| - 1))
    && (t.owner.Replay? ==>
          var s := t.socks[|t.socks| - 1];
          !s.replayed && t.owner.k <= |t.reg.order| && s.frames == t.reg.order[..t.owner.k])
    && (t.owner.TearingDown? ==> !t.socks[|t.socks| - 1].replayed)
    && (t.sub.Subscribing? ==>
          && t.sub.to < |t.socks| && (t.cur.Some? ==> t.cur.value == t.sub.to)
          && t.sub.name in t.reg.handlers && |t.reg.handlers[t.sub.name]| == 1
          && t.reg.order != [] && t.reg.order[|t.reg.order| - 1] == t.sub.name)
    && (t.cur.Some? && t.socks[t.cur.value].replayed ==>
          t.socks[t.cur.value].frames
          == if t.sub.Subscribing? then t.reg.order[..|t.reg.order| - 1] else t.reg.order)
  }

  lemma GenerationsPublish<H>(t: Transport<H>, ok: bool)
    requires Generations(t) && t.owner.Publishing?
    ensures Generations(OwnerStep(t, ok))
  {
  }

  lemma GenerationsReplay<H>(t: Transport<H>, ok: bool)
    requires Generations(t) && t.owner.Replay?
    ensures Generations(OwnerStep(t, ok))
  {
  }

  lemma GenerationsTearDown<H>(t: Transport<H>, ok: bool)
    requires Generations(t) && t.owner.TearingDown?
    ensures Generations(OwnerStep(t, ok))
  {
  }

  lemma GenerationsSpawn<H>(t: Transport<H>, ok: bool)
    requires Generations(t) && t.owner.Spawning?
    ensures Generations(OwnerStep(t, ok))
  {
  }

  /** Steps of the owner that leave every socket as it is. */
  predicate LeavesSockets(o: Owner) {
    !o.Publishing? && !o.Replay? && !o.TearingDown? && !o.Spawning?
  }

  lemma GenerationsElsewhere<H>(t: Transport<H>, ok: bool)
    requires Generations(t) && LeavesSockets(t.owner)
    ensures Generations(OwnerStep(t, ok))
  {
  }

  lemma GenerationsOwnerStep<H>(t: Transport<H>, ok: bool)
    requires Generations(t)
    ensures Generations(OwnerStep(t, ok))
  {
    hide Generations, OwnerStep;
    match t.owner
    case Publishing => GenerationsPublish(t, ok);
    case Replay(_) => GenerationsReplay(t, ok);
    case TearingDown => GenerationsTearDown(t, ok);
    case Spawning => GenerationsSpawn(t, ok);
    case _ => GenerationsElsewhere(t, ok);
  }

  lemma GenerationsStep<H>(t: Transport<H>, a: Act<H>)
    requires Generations(t)
    ensures Generations(Step(t, a))
  {
    hide OwnerStep;
    match a
    case Owns(ok) => GenerationsOwnerStep(t, ok);
    case Drop(_) =>
    case CloseChannel(_) =>
    case SendSubscribe(_) =>
    case _ =>
  }

  lemma SubscriptionsPublish<H>(t: Transport<H>, ok: bool)
    requires Subscriptions(t) && t.owner.Publishing?
    ensures Subscriptions(OwnerStep(t, ok))
  {
    hide WellFormed;
  }

  lemma SubscriptionsReplay<H>(t: Transport<H>, ok: bool)
    requires Subscriptions(t) && t.owner.Replay?
    ensures Subscriptions(OwnerStep(t, ok))
  {
    hide WellFormed;
    var k := t.owner.k;
    if k < |t.reg.order| {
      assert t.reg.order[..k + 1] == t.reg.order[..k] + [t.reg.order[k]];
    }
  }

  lemma SubscriptionsTearDown<H>(t: Transport<H>, ok: bool)
    requires Subscriptions(t) && t.owner.TearingDown?
    ensures Subscriptions(OwnerStep(t, ok))
  {
    hide WellFormed;
  }

  lemma SubscriptionsSpawn<H>(t: Transport<H>, ok: bool)
    requires Subscriptions(t) && t.owner.Spawning?
    ensures Subscriptions(OwnerStep(t, ok))
  {
    hide WellFormed;
  }

  lemma SubscriptionsElsewhere<H>(t: Transport<H>, ok: bool)
    requires Subscriptions(t) && LeavesSockets(t.owner)
    ensures Subscriptions(OwnerStep(t, ok))
  {
    hide WellFormed;
  }

  lemma SubscriptionsOwnerStep<H>(t: Transport<H>, ok: bool)
    requires Subscriptions(t)
    ensures Subscriptions(OwnerStep(t, ok))
  {
    hide Subscriptions, OwnerStep;
    match t.owner
    case Publishing => SubscriptionsPublish(t, ok);
    case Replay(_) => SubscriptionsReplay(t, ok);
    case TearingDown => SubscriptionsTearDown(t, ok);
    case Spawning => SubscriptionsSpawn(t, ok);
    case _ => SubscriptionsElsewhere(t, ok);
  }

  lemma AddedFront<H>(r: Reg<H>, name: string, h: H)
    requires WellFormed(r)
    ensures
      var a := Add(r, name, h);
      && WellFormed(a) && name in a.handlers
      && (name in r.handlers ==> a.order == r.order)
      && (name !in r.handlers ==> a.order == r.order + [name] && a.handlers[name] == [h])
  {
    hide WellFormed;
    AddKeepsWellFormed(r, name, h);
  }

  lemma SubscriptionsBegin<H>(t: Transport<H>, name: string, h: H)
    requires Subscriptions(t)
    ensures Subscriptions(Step(t, BeginSubscribe(name, h)))
  {
    hide WellFormed, Add;
    AddedFront(t.reg, name, h);
    assert (t.reg.order + [name])[..|t.reg.order|] == t.reg.order;
  }

  lemma RemovedFront<H>(r: Reg<H>, name: string)
    requires WellFormed(r) && name in r.handlers && |r.handlers[name]| == 1
    requires r.order != [] && r.order[|r.order| - 1] == name
    ensures WellFormed(RemoveLast(r, name)) && RemoveLast(r, name).order == r.order[..|r.order| - 1]
  {
    RemoveLastKeepsWellFormed(r, name);
    WithoutOne(r.order, |r.order| - 1);
  }

  lemma SubscriptionsSend<H>(t: Transport<H>, ok: bool)
    requires Subscriptions(t)
    ensures Subscriptions(Step(t, SendSubscribe(ok)))
  {
    hide WellFormed, RemoveLast;
    if t.sub.Subscribing? {
      assert t.reg.order == t.reg.order[..|t.reg.order| - 1] + [t.sub.name];
      RemovedFront(t.reg, t.sub.name);
    }
  }

  lemma SubscriptionsStep<H>(t: Transport<H>, a: Act<H>)
    requires Subscriptions(t)
    ensures Subscriptions(Step(t, a))
  {
    hide OwnerStep, WellFormed, Add, RemoveLast;
    match a
    case BeginSubscribe(name, h) => SubscriptionsBegin(t, name, h);
    case SendSubscribe(ok) => SubscriptionsSend(t, ok);
    case Owns(ok) => SubscriptionsOwnerStep(t, ok);
    case _ =>
  }

  lemma {:induction false} InvariantsAlways<H>(t: Transport<H>, acts: seq<Act<H>>)
    requires Generations(t) && Subscriptions(t)
    ensures Generations(Run(t, acts)) && Subscriptions(Run(t, acts))
    decreases |acts|
  {
    hide Generations, Subscriptions, Step;
    if acts != [] {
      GenerationsStep(t, acts[0]);
      SubscriptionsStep(t, acts[0]);
      InvariantsAlways(Step(t, acts[0]), acts[1..]);
    }
  }

  lemma InvariantsInitially<H>()
    ensures Generations(Fresh<H>()) && Subscriptions(Fresh<H>())
  {
  }

  // ------------------------------------------------------------ main results

  /** Whatever mix of subscribes, failed subscribes, connects, disconnects and
      drops: whenever the subscription lock is free, the frames written to the
      live socket are the registry's names in order, each exactly once. */
  lemma LiveSocketCarriesTheRegistry<H>(acts: seq<Act<H>>)
    ensures var t := Run(Fresh<H>(), acts);
      t.sub == Unlocked && t.cur.Some? && t.cur.value < |t.socks| && t.socks[t.cur.value].replayed
      ==> var frames := t.socks[t.cur.value].frames;
          && frames == t.reg.order
          && (forall i, j :: 0 <= i < j < |frames| ==> frames[i] != frames[j])
          && (forall n :: n in frames <==> n in t.reg.handlers)
  {
    InvariantsInitially<H>();
    InvariantsAlways(Fresh<H>(), acts);
  }

  /** A subscribe whose frame could not be written leaves the registry as it
      was, so a retry sends again. */
  lemma FailedSubscribeLeavesNothing<H>(t: Transport<H>, name: string, h: H)
    requires Subscriptions(t) && t.sub == Unlocked && name != "" && name !in t.reg.handlers && t.cur.Some?
    ensures Step(Step(t, BeginSubscribe(name, h)), SendSubscribe(false)).reg == t.reg
  {
    RemoveLastUndoesAdd(t.reg, name, h);
  }

  /** Each connection's channel is closed once, by the time its listener is
      gone and not before; every older connection has got there, and the flag
      is up only while the newest channel is still open. */
  lemma ChannelsCloseOnce<H>(acts: seq<Act<H>>)
    ensures var t := Run(Fresh<H>(), acts);
      && (forall g :: 0 <= g < |t.socks| ==> t.socks[g].closes == if t.socks[g].listener == Gone then 1 else 0)
      && (forall g :: 0 <= g < |t.socks| - 1 ==> t.socks[g].closes == 1)
      && (t.connected ==> t.socks != [] && t.socks[|t.socks| - 1].closes == 0)
  {
    InvariantsInitially<H>();
    InvariantsAlways(Fresh<H>(), acts);
  }

  /** An older listener never lowers a newer connection's flag: the listener
      that lowers it belongs to the newest connection. No live context is
      assumed, for a canceled one lets no later connection be published. */
  lemma OnlyTheNewestListenerLowersTheFlag<H>(acts: seq<Act<H>>, g: nat)
    ensures var t := Run(Fresh<H>(), acts);
      Step(t, Drop(g)) != t ==> g == |t.socks| - 1
  {
    InvariantsInitially<H>();
    InvariantsAlways(Fresh<H>(), acts);
  }

  function Repeat<H>(a: Act<H>, k: nat): (acts: seq<Act<H>>)
    ensures |acts| == k
  {
    if k == 0 then [] else [a] + Repeat(a, k - 1)
  }

  lemma RunCons<H>(t: Transport<H>, a: Act<H>, acts: seq<Act<H>>)
    ensures Run(t, [a] + acts) == Run(Step(t, a), acts)
  {
    hide Step;
    assert ([a] + acts)[1..] == acts;
  }

  lemma {:induction false} RunConcat<H>(t: Transport<H>, a: seq<Act<H>>, b: seq<Act<H>>)
    ensures Run(t, a + b) == Run(Run(t, a), b)
    decreases |a|
  {
    hide Step;
    if a == [] {
      assert a + b == b;
    } else {
      assert (a + b)[1..] == a[1..] + b;
      RunConcat(Step(t, a[0]), a[1..], b);
    }
  }

  /** The owner's way from the replay's k-th name to its end. */
  lemma {:induction false} ReplayRuns<H>(t: Transport<H>, older: seq<Sock>, k: nat)
    requires k <= |t.reg.order| && t.owner == Replay(k)
    requires t.socks == older + [Sock(t.reg.order[..k], false, NotStarted, 0)]
    ensures Run(t, Repeat(Owns(true), |t.reg.order| - k))
         == t.(socks := older + [Sock(t.reg.order, false, NotStarted, 0)], owner := Replay(|t.reg.order|))
    decreases |t.reg.order| - k
  {
    var order := t.reg.order;
    if k == |order| {
      assert order[..k] == order;
    } else {
      var next := OwnerStep(t, true);
      assert order[..k + 1] == order[..k] + [order[k]];
      assert next == t.(socks := older + [Sock(order[..k + 1], false, NotStarted, 0)], owner := Replay(k + 1));
      ReplayRuns(next, older, k + 1);
      hide OwnerStep;
      RunCons(t, Owns(true), Repeat(Owns(true), |order| - k - 1));
    }
  }

  /** From idle to the start of the replay. */
  lemma ConnectPublishes<H>(t: Transport<H>)
    requires t.owner == Free && !t.connected && PreviousGone(t) && t.sub == Unlocked
    ensures Run(t, [BeginConnect, Owns(true), Owns(true), Owns(true)])
         == t.(socks := t.socks + [Sock([], false, NotStarted, 0)], cur := Some(|t.socks|),
               owner := Replay(0), sub := ReplayHolds)
  {
    var t1 := Step(t, BeginConnect);
    var t2 := Step(t1, Owns(true));
    var t3 := Step(t2, Owns(true));
    var t4 := Step(t3, Owns(true));
    assert t1 == t.(owner := Waiting) && t2 == t.(owner := Finding(false)) && t3 == t.(owner := Publishing);
    hide Step;
    var one: seq<Act<H>> := [Owns(true)];
    RunCons(t, BeginConnect, one + (one + (one + [])));
    RunCons(t1, Owns(true), one + (one + []));
    RunCons(t2, Owns(true), one + []);
    RunCons(t3, Owns(true), []);
    assert [BeginConnect] + (one + (one + (one + []))) == [BeginConnect, Owns(true), Owns(true), Owns(true)];
  }

  /** From the end of the replay to the running listener. */
  lemma ConnectFinishes<H>(t: Transport<H>, older: seq<Sock>)
    requires t.owner == Replay(|t.reg.order|) && t.socks == older + [Sock(t.reg.order, false, NotStarted, 0)]
    ensures Run(t, [Owns(true), Owns(true), Owns(true)])
         == t.(socks := older + [Sock(t.reg.order, true, Running, 0)], connected := true, owner := Free,
               sub := Unlocked)
  {
    var t1 := Step(t, Owns(true));
    assert t1 == t.(socks := older + [Sock(t.reg.order, true, NotStarted, 0)], owner := Marking, sub := Unlocked);
    var t2 := Step(t1, Owns(true));
    var t3 := Step(t2, Owns(true));
    assert t3.socks == older + [Sock(t.reg.order, true, Running, 0)];
    hide Step;
    var one: seq<Act<H>> := [Owns(true)];
    RunCons(t, Owns(true), one + (one + []));
    RunCons(t1, Owns(true), one + []);
    RunCons(t2, Owns(true), []);
    assert one + (one + (one + [])) == [Owns(true), Owns(true), Owns(true)];
  }

  /** A connect that meets no failure goes through: the new socket carries the
      whole registry, its listener runs and the flag is up. */
  lemma ConnectGoesThrough<H>(t: Transport<H>)
    requires t.owner == Free && !t.connected && PreviousGone(t) && t.sub == Unlocked
    ensures Run(t, [BeginConnect, Owns(true), Owns(true), Owns(true)] + Repeat(Owns(true), |t.reg.order| + 3))
         == t.(socks := t.socks + [Sock(t.reg.order, true, Running, 0)], cur := Some(|t.socks|), connected := true)
  {
    hide Run, Step;
    var begin, replay := [BeginConnect, Owns(true), Owns(true), Owns(true)], Repeat<H>(Owns(true), |t.reg.order|);
    var finish := [Owns(true), Owns(true), Owns(true)];
    ConnectPublishes(t);
    var t1 := Run(t, begin);
    assert t.reg.order[..0] == [];
    ReplayRuns(t1, t.socks, 0);
    ConnectFinishes(Run(t1, replay), t.socks);
    RunConcat(t, begin, replay + finish);
    RunConcat(t1, replay, finish);
    RepeatConcat<H>(Owns(true), |t.reg.order|);
  }

  lemma {:induction false} RepeatConcat<H>(a: Act<H>, k: nat)
    ensures Repeat(a, k + 3) == Repeat(a, k) + [a, a, a]
  {
    if k == 0 {
      assert Repeat(a, 1) == [a] + Repeat(a, 0);
      assert Repeat(a, 3) == [a] + Repeat(a, 2) && Repeat(a, 2) == [a] + Repeat(a, 1);
    } else {
      RepeatConcat(a, k - 1);
    }
  }

  /** Publishing, an empty replay, the flag and the listener: four owner steps. */
  lemma PublishedOverAListener(t: Transport<nat>, g: nat)
    requires g + 1 == |t.socks| && t.socks[g].listener == Running && t.reg.order == []
    requires t.owner == Publishing && t.sub == Unlocked
    ensures
      var s := t.socks + [Sock([], true, Running, 0)];
      OwnerStep(OwnerStep(OwnerStep(OwnerStep(t, true), true), true), true)
      == t.(socks := s, cur := Some(g + 1), connected := true, owner := Free)
  {
    var t1 := OwnerStep(t, true);
    assert t1.socks == t.socks + [Sock([], false, NotStarted, 0)] && t1.owner == Replay(0);
    var t2 := OwnerStep(t1, true);
    assert t2.socks == t.socks + [Sock([], true, NotStarted, 0)] && t2.owner == Marking;
    var t3 := OwnerStep(t2, true);
    assert OwnerStep(t3, true).socks == t.socks + [Sock([], true, Running, 0)];
  }

  /** Without the wait the claim is false: a connection published while the
      previous listener still runs loses its flag to it. */
  lemma WithoutTheWaitTheFlagIsLost(t: Transport<nat>, g: nat)
    requires g + 1 == |t.socks| && t.socks[g].listener == Running && t.reg.order == []
    requires t.owner == Publishing && t.sub == Unlocked
    ensures
      var up := Run(t, [Owns(true), Owns(true), Owns(true), Owns(true)]);
      && up.connected && up.cur == Some(g + 1)
      && !Step(up, Drop(g)).connected && Step(up, Drop(g)).socks[g + 1].listener == Running
  {
    hide OwnerStep;
    PublishedOverAListener(t, g);
    FourSteps(t, Owns(true));
  }

  lemma FourSteps<H>(t: Transport<H>, a: Act<H>)
    ensures Run(t, [a, a, a, a]) == Step(Step(Step(Step(t, a), a), a), a)
  {
    hide Step;
    assert [a, a, a, a][1..] == [a, a, a] && [a, a, a][1..] == [a, a] && [a, a][1..] == [a] && [a][1..] == [];
    var t1, t2 := Step(t, a), Step(Step(t, a), a);
    assert Run(t2, [a, a]) == Run(Step(t2, a), [a]) == Run(Step(Step(t2, a), a), []);
    assert Run(t, [a, a, a, a]) == Run(t1, [a, a, a]) == Run(t2, [a, a]);
  }
}
