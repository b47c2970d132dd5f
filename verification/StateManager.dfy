/** The manager that guards the player state, stamps context changes and fans
    changes out to its subscribers. */
module StateManager {
  import opened Option
  import opened GameState
  import opened LatestValue

  const UPDATE_BUFFER: nat := 100

  /** One mutation and the time it is applied at. */
  datatype Call = Call(mutate: State -> State, at: Instant)

  /** The state a call leads to: a phase change is stamped with its time. */
  function Applied(cs: Casing, cur: State, c: Call): State {
    var next := c.mutate(cur);
    if PhaseOf(cs, next) != PhaseOf(cs, cur) then next.(contextEnteredAt := c.at) else next
  }

  function AppliedAll(cs: Casing, cur: State, calls: seq<Call>): State {
    if calls == [] then cur else Applied(cs, AppliedAll(cs, cur, calls[..|calls| - 1]), calls[|calls| - 1])
  }

  lemma OneMoreCall(cs: Casing, cur: State, calls: seq<Call>, c: Call)
    ensures AppliedAll(cs, cur, calls + [c]) == Applied(cs, AppliedAll(cs, cur, calls), c)
  {
    assert (calls + [c])[..|calls|] == calls;
  }

  /** What is published along the way. */
  function Publications(cs: Casing, cur: State, calls: seq<Call>): seq<State> {
    if calls == [] then []
    else
      var before := AppliedAll(cs, cur, calls[..|calls| - 1]);
      var after := Applied(cs, before, calls[|calls| - 1]);
      Publications(cs, cur, calls[..|calls| - 1]) + if after == before then [] else [after]
  }

  lemma OneMorePublication(cs: Casing, cur: State, calls: seq<Call>, c: Call)
    ensures
      var before, after := AppliedAll(cs, cur, calls), AppliedAll(cs, cur, calls + [c]);
      Publications(cs, cur, calls + [c]) == Publications(cs, cur, calls) + if after == before then [] else [after]
  {
    hide Applied;
    assert (calls + [c])[..|calls|] == calls;
  }

  /** When the phase last changed, the initial stamp if it never did. */
  function LastPhaseChange(cs: Casing, cur: State, calls: seq<Call>): Instant {
    if calls == [] then cur.contextEnteredAt
    else
      var before := AppliedAll(cs, cur, calls[..|calls| - 1]);
      var after := AppliedAll(cs, cur, calls);
      if PhaseOf(cs, after) != PhaseOf(cs, before) then calls[|calls| - 1].at
      else LastPhaseChange(cs, cur, calls[..|calls| - 1])
  }

  /** The stamp does not decide the phase. */
  lemma PhaseIgnoresStamp(cs: Casing, s: State, at: Instant)
    ensures PhaseOf(cs, s.(contextEnteredAt := at)) == PhaseOf(cs, s)
  {
  }

  /** One call keeps a true stamp true exactly when it changes the phase or
      its mutator leaves the stamp alone. */
  lemma StampStep(cs: Casing, cur: State, calls: seq<Call>, c: Call)
    requires AppliedAll(cs, cur, calls).contextEnteredAt == LastPhaseChange(cs, cur, calls)
    ensures
      var before := AppliedAll(cs, cur, calls);
      var next := c.mutate(before);
      AppliedAll(cs, cur, calls + [c]).contextEnteredAt == LastPhaseChange(cs, cur, calls + [c])
      <==> PhaseOf(cs, next) != PhaseOf(cs, before) || next.contextEnteredAt == before.contextEnteredAt
  {
    hide PhaseOf;
    assert (calls + [c])[..|calls|] == calls;
    var before := AppliedAll(cs, cur, calls);
    PhaseIgnoresStamp(cs, c.mutate(before), c.at);
  }

  /** Mutators that leave the stamp alone get it maintained for them: it is
      always the time of the last phase change. */
  lemma {:induction false} StampIsLastPhaseChange(cs: Casing, cur: State, calls: seq<Call>)
    requires forall c, s: State :: c in calls ==> c.mutate(s).contextEnteredAt == s.contextEnteredAt
    ensures AppliedAll(cs, cur, calls).contextEnteredAt == LastPhaseChange(cs, cur, calls)
  {
    hide PhaseOf, Applied;
    if calls != [] {
      var front, last := calls[..|calls| - 1], calls[|calls| - 1];
      assert calls == front + [last];
      assert last in calls && forall c :: c in front ==> c in calls;
      StampIsLastPhaseChange(cs, cur, front);
      StampStep(cs, cur, front, last);
    }
  }

  /** The disconnect path resets the whole state, stamp included: from the
      client to the client, the stamp moves although the phase does not. */
  lemma ResetMovesTheStamp(cs: Casing, cur: State, at: Instant)
    requires PhaseOf(cs, cur) == PhaseOf(cs, NewState(at)) && cur.contextEnteredAt != at
    ensures
      var reset := [Call(_ => NewState(at), at)];
      AppliedAll(cs, cur, reset).contextEnteredAt == at != LastPhaseChange(cs, cur, reset)
  {
    hide PhaseOf;
    var reset := Call(_ => NewState(at), at);
    assert [reset][..0] == [];
    assert AppliedAll(cs, cur, [reset]) == Applied(cs, cur, reset);
  }

  /** A subscriber never receives the same state twice running, and the last
      publication is the current state. */
  lemma {:induction false} PublicationsDiffer(cs: Casing, cur: State, calls: seq<Call>)
    ensures var all := [cur] + Publications(cs, cur, calls);
      && all[|all| - 1] == AppliedAll(cs, cur, calls)
      && forall i :: 0 <= i < |all| - 1 ==> all[i] != all[i + 1]
  {
    hide Applied;
    if calls != [] {
      var front := calls[..|calls| - 1];
      PublicationsDiffer(cs, cur, front);
      var all := [cur] + Publications(cs, cur, front);
      var after := AppliedAll(cs, cur, calls);
      if after != AppliedAll(cs, cur, front) {
        assert [cur] + Publications(cs, cur, calls) == all + [after];
      } else {
        assert [cur] + Publications(cs, cur, calls) == all;
      }
    }
  }

  /** The shared change channel: what it buffers, and whether it is closed. */
  datatype Queue = Queue(pending: seq<State>, closed: bool)

  /** A non-blocking send: a full queue drops the newest state. */
  function Offered(q: Option<Queue>, s: State): Option<Queue> {
    if q.None? || |q.value.pending| >= UPDATE_BUFFER then q
    else Some(q.value.(pending := q.value.pending + [s]))
  }

  datatype QueueOp = Push(s: State) | Pop

  /** What the reader of an open queue has taken after ops. */
  function Taken(q: Queue, ops: seq<QueueOp>): seq<State>
    decreases |ops|
  {
    if ops == [] then []
    else if ops[0].Push? then Taken(Offered(Some(q), ops[0].s).value, ops[1..])
    else if q.pending == [] then Taken(q, ops[1..])
    else [q.pending[0]] + Taken(q.(pending := q.pending[1..]), ops[1..])
  }

  function Left(q: Queue, ops: seq<QueueOp>): seq<State>
    decreases |ops|
  {
    if ops == [] then q.pending
    else if ops[0].Push? then Left(Offered(Some(q), ops[0].s).value, ops[1..])
    else if q.pending == [] then Left(q, ops[1..])
    else Left(q.(pending := q.pending[1..]), ops[1..])
  }

  function Pushed(ops: seq<QueueOp>): seq<State> {
    if ops == [] then [] else (if ops[0].Push? then [ops[0].s] else []) + Pushed(ops[1..])
  }

  lemma Reassociate<V>(a: seq<V>, b: seq<V>, c: seq<V>)
    ensures (a + b) + c == a + (b + c)
  {
  }

  lemma QueueStep(q: Queue, op: QueueOp, ops: seq<QueueOp>)
    ensures
      var first, all := q.pending, [op] + ops;
      if op.Push? then
        && Pushed(all) == [op.s] + Pushed(ops)
        && (|first| < UPDATE_BUFFER ==>
              var next := q.(pending := first + [op.s]);
              Taken(q, all) == Taken(next, ops) && Left(q, all) == Left(next, ops))
      else
        && Pushed(all) == Pushed(ops)
        && (first == [] ==> Taken(q, all) == Taken(q, ops) && Left(q, all) == Left(q, ops))
        && (first != [] ==>
              var next := q.(pending := first[1..]);
              Taken(q, all) == [first[0]] + Taken(next, ops) && Left(q, all) == Left(next, ops))
  {
    assert ([op] + ops)[1..] == ops;
  }

  /** The shared queue is first in, first out, and loses nothing as long as it
      has room for everything offered. */
  lemma {:induction false} QueueIsFifo(q: Queue, ops: seq<QueueOp>)
    requires |q.pending| + |Pushed(ops)| <= UPDATE_BUFFER
    ensures Taken(q, ops) + Left(q, ops) == q.pending + Pushed(ops)
    decreases |ops|
  {
    if ops != [] {
      hide Taken, Left, Pushed;
      var op, rest := ops[0], ops[1..];
      assert ops == [op] + rest;
      QueueStep(q, op, rest);
      if op.Push? {
        QueueIsFifo(q.(pending := q.pending + [op.s]), rest);
        Reassociate(q.pending, [op.s], Pushed(rest));
      } else if q.pending == [] {
        QueueIsFifo(q, rest);
      } else {
        var next := q.(pending := q.pending[1..]);
        QueueIsFifo(next, rest);
        Reassociate([q.pending[0]], Taken(next, rest), Left(next, rest));
        Reassociate([q.pending[0]], q.pending[1..], Pushed(rest));
        assert [q.pending[0]] + q.pending[1..] == q.pending;
      }
    }
  }

  /** A full one keeps what it has and drops the newest. */
  lemma FullQueueDropsTheNewest(q: Queue, s: State)
    requires |q.pending| >= 100
    ensures Offered(Some(q), s) == Some(q)
  {
  }

  /** All of a change comes from its mutator, except the stamp. */
  lemma OnlyTheStampIsOurs(cs: Casing, cur: State, c: Call)
    ensures Applied(cs, cur, c).(contextEnteredAt := 0) == c.mutate(cur).(contextEnteredAt := 0)
    ensures PhaseOf(cs, c.mutate(cur)) != PhaseOf(cs, cur) ==> Applied(cs, cur, c).contextEnteredAt == c.at
    ensures PhaseOf(cs, c.mutate(cur)) == PhaseOf(cs, cur) ==> Applied(cs, cur, c) == c.mutate(cur)
  {
    hide PhaseOf;
  }

  predicate EndsWith<V(==)>(all: seq<V>, tail: seq<V>) {
    |tail| <= |all| && all[|all| - |tail|..] == tail
  }

  lemma EndsWithOneMore<V>(all: seq<V>, tail: seq<V>, v: V)
    requires all != [] && all[|all| - 1] == v && EndsWith(all[..|all| - 1], tail)
    ensures EndsWith(all, tail + [v])
  {
    var front := all[..|all| - 1];
    assert all == front + [v];
    assert all[|all| - |tail| - 1..] == front[|front| - |tail|..] + [v];
  }

  class Manager {
    const casing: Casing
    var current: State
    var updates: Option<Queue>
    var closed: bool
    var subs: seq<Slot<State>>
    ghost const initial: State
    ghost var calls: seq<Call>
    /** Everything broadcast so far. */
    ghost var published: seq<State>

    /** Each subscriber has a slot of its own, open until Close forgets it, and
        has been handed every state since it subscribed; the shared queue, once
        there is one, is closed with the manager. */
    ghost predicate Valid() reads this, subs {
      Core() && forall ch :: ch in subs ==> EndsWith(published, ch.chan.published)
    }

    ghost predicate Core() reads this, subs {
      && current == AppliedAll(casing, initial, calls)
      && published == Publications(casing, initial, calls)
      && (forall i, j :: 0 <= i < j < |subs| ==> subs[i] != subs[j])
      && (forall ch :: ch in subs ==> ch.Valid() && !ch.closed)
      && (closed ==> subs == [])
      && (updates.Some? ==> updates.value.closed == closed && |updates.value.pending| <= UPDATE_BUFFER)
    }

    constructor (casing: Casing, now: Instant)
      ensures Valid() && current == NewState(now) == initial && calls == []
      ensures updates == None && !closed && subs == []
    {
      this.casing, initial, calls, published := casing, NewState(now), [], [];
      current, updates, closed, subs := NewState(now), None, false, [];
    }

    /** Creates the shared queue on first use. */
    method Updates()
      requires Valid()
      modifies this`updates
      ensures Valid()
      ensures updates == if old(updates).Some? then old(updates) else Some(Queue([], closed))
    {
      if updates.None? {
        updates := Some(Queue([], closed));
      }
    }

    /** The queue's reader takes the oldest state. */
    method ReceiveUpdate() returns (s: Option<State>)
      requires Valid()
      modifies this`updates
      ensures Valid()
      ensures if old(updates).None? || old(updates).value.pending == [] then s == None && updates == old(updates)
              else s == Some(old(updates).value.pending[0])
                   && updates == Some(old(updates).value.(pending := old(updates).value.pending[1..]))
    {
      if updates.None? || updates.value.pending == [] {
        return None;
      }
      s := Some(updates.value.pending[0]);
      updates := Some(updates.value.(pending := updates.value.pending[1..]));
    }

    /** Publishes a change to every reader. A change after Close panics, once
        it is applied, if the shared queue exists: that queue is closed. */
    method Apply(mutate: State -> State, now: Instant) returns (panicked: bool)
      requires Valid()
      modifies this, subs
      ensures Valid() && calls == old(calls) + [Call(mutate, now)] && closed == old(closed) && subs == old(subs)
      ensures current == Applied(casing, old(current), Call(mutate, now))
      ensures published == old(published) + if current == old(current) then [] else [current]
      ensures panicked == (current != old(current) && closed && updates.Some?)
      ensures current != old(current) ==> forall ch :: ch in subs ==>
        ch.buf == Some(current) && ch.chan == Run(old(ch.chan), [Publish(current), Drain, Offer])
      ensures current == old(current) ==> forall ch :: ch in subs ==> ch.buf == old(ch.buf) && ch.chan == old(ch.chan)
      ensures updates == if current == old(current) || closed then old(updates) else Offered(old(updates), current)
    {
      hide AppliedAll, Publications, LatestValue.Run, Inv, PhaseOf, EndsWith;
      ghost var call := Call(mutate, now);
      OneMoreCall(casing, initial, calls, call);
      OneMorePublication(casing, initial, calls, call);
      var next := mutate(current);
      if PhaseOf(casing, next) != PhaseOf(casing, current) {
        next := next.(contextEnteredAt := now);
      }
      calls := calls + [call];
      if next == current {
        return false;
      }
      current := next;
      published := published + [current];
      panicked := Broadcast();
    }

    /** Hands the current state, published last, to every reader. */
    method Broadcast() returns (panicked: bool)
      requires Core() && published != [] && published[|published| - 1] == current
      requires forall ch :: ch in subs ==> EndsWith(published[..|published| - 1], ch.chan.published)
      modifies this`updates, subs
      ensures Valid() && panicked == (closed && updates.Some?)
      ensures forall ch :: ch in subs ==>
        ch.buf == Some(current) && ch.chan == Run(old(ch.chan), [Publish(current), Drain, Offer])
      ensures updates == if closed then old(updates) else Offered(old(updates), current)
    {
      hide AppliedAll, Publications, LatestValue.Run, Inv, EndsWith;
      if updates.Some? {
        if updates.value.closed {
          return true;
        }
        if |updates.value.pending| < UPDATE_BUFFER {
          updates := Some(updates.value.(pending := updates.value.pending + [current]));
        }
      }
      FanOut();
      panicked := false;
    }

    /** Every subscriber's slot, one after the other. */
    method FanOut()
      requires Core() && published != [] && published[|published| - 1] == current
      requires forall ch :: ch in subs ==> EndsWith(published[..|published| - 1], ch.chan.published)
      modifies subs
      ensures Valid()
      ensures forall ch :: ch in subs ==>
        ch.buf == Some(current) && ch.chan == Run(old(ch.chan), [Publish(current), Drain, Offer])
    {
      hide AppliedAll, Publications, LatestValue.Run, Inv, EndsWith;
      for i := 0 to |subs|
        invariant Core()
        invariant forall k :: 0 <= k < i ==>
          && subs[k].buf == Some(current) && subs[k].chan == Run(old(subs[k].chan), [Publish(current), Drain, Offer])
          && EndsWith(published, subs[k].chan.published)
        invariant forall k :: i <= k < |subs| ==> subs[k].chan == old(subs[k].chan)
      {
        EndsWithOneMore(published, subs[i].chan.published, current);
        subs[i].Replace(current);
      }
    }

    method Subscribe() returns (ch: Slot<State>)
      requires Valid()
      modifies this`subs
      ensures Valid() && fresh(ch) && ch.Valid() && ch.chan == Fresh() && ch.closed == closed
      ensures subs == if closed then old(subs) else old(subs) + [ch]
    {
      ch := new Slot<State>(closed);
      if closed {
        return;
      }
      subs := subs + [ch];
    }

    /** Closes the shared queue and every slot; a second Close does nothing. */
    method Close()
      requires Valid()
      modifies this, subs
      ensures Valid() && closed && current == old(current) && calls == old(calls) && subs == []
      ensures updates ==
        if old(updates).None? || old(closed) then old(updates) else Some(old(updates).value.(closed := true))
      ensures forall ch :: ch in old(subs) ==> ch.closed && ch.buf == old(ch.buf) && ch.chan == old(ch.chan)
    {
      hide AppliedAll, Publications, Inv, EndsWith;
      if closed {
        return;
      }
      closed := true;
      if updates.Some? {
        updates := Some(updates.value.(closed := true));
      }
      ghost var queue := updates;
      for i := 0 to |subs|
        invariant subs == old(subs) && closed && current == old(current) && calls == old(calls) && updates == queue
        invariant published == old(published)
        invariant forall k :: 0 <= k < i ==> subs[k].closed
        invariant forall k :: i <= k < |subs| ==> !subs[k].closed
        invariant forall ch :: ch in old(subs) ==> ch.Valid() && ch.buf == old(ch.buf) && ch.chan == old(ch.chan)
      {
        subs[i].Close();
      }
      subs := [];
    }
  }
}
