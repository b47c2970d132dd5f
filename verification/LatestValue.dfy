/** The one-slot channels that hand the newest value to a reader of any speed:
    the writer drops a stale value and then offers the new one, and the reader
    may take a value between any two of those steps. */
module LatestValue {
  import opened Option

  datatype Writer = Idle | Draining | Offering

  /** published is everything the writer had to say since the subscription;
      buf and taken name values by their place in it. */
  datatype Chan<V> = Chan(published: seq<V>, buf: Option<nat>, taken: seq<nat>, writer: Writer)

  datatype Act<V> = Publish(v: V) | Drain | Offer | Take

  function Fresh<V>(): Chan<V> { Chan([], None, [], Idle) }

  function Step<V>(c: Chan<V>, a: Act<V>): Chan<V> {
    match a
    case Publish(v) => if c.writer == Idle then c.(published := c.published + [v], writer := Draining) else c
    case Drain => if c.writer == Draining then c.(buf := None, writer := Offering) else c
    case Offer =>
      if c.writer != Offering || c.published == [] then c
      else if c.buf == None then c.(buf := Some(|c.published| - 1), writer := Idle)
      else c.(writer := Idle)
    case Take => if c.buf == None then c else c.(buf := None, taken := c.taken + [c.buf.value])
  }

  function Run<V>(c: Chan<V>, acts: seq<Act<V>>): Chan<V>
    decreases |acts|
  {
    if acts == [] then c else Run(Step(c, acts[0]), acts[1..])
  }

  /** Place of the newest value the reader has seen or can still take. */
  function Seen<V>(c: Chan<V>): int {
    if c.buf.Some? then c.buf.value else if c.taken == [] then -1 else c.taken[|c.taken| - 1]
  }

  ghost predicate Inv<V>(c: Chan<V>) {
    && (forall i, j :: 0 <= i < j < |c.taken| ==> c.taken[i] < c.taken[j])
    && (forall i :: 0 <= i < |c.taken| ==> c.taken[i] < |c.published|)
    && (c.buf.Some? ==> c.buf.value < |c.published|)
    && (c.buf.Some? ==> forall i :: 0 <= i < |c.taken| ==> c.taken[i] < c.buf.value)
    && (c.writer == Idle ==> Seen(c) == |c.published| - 1)
    && (c.writer == Draining ==> c.published != [] && Seen(c) == |c.published| - 2)
    && (c.writer == Offering ==> c.published != [] && c.buf == None && Seen(c) <= |c.published| - 2)
  }

  lemma InvStep<V>(c: Chan<V>, a: Act<V>)
    requires Inv(c)
    ensures Inv(Step(c, a))
  {
  }

  lemma {:induction false} InvAlways<V>(c: Chan<V>, acts: seq<Act<V>>)
    requires Inv(c)
    ensures Inv(Run(c, acts))
    decreases |acts|
  {
    if acts != [] {
      InvStep(c, acts[0]);
      InvAlways(Step(c, acts[0]), acts[1..]);
    }
  }

  /** However the reader interleaves: it receives published values, each at
      most once and in order; and whenever no publication is under way, the
      slot holds the newest value or the reader has already received it. */
  lemma ReaderKeepsUp<V>(acts: seq<Act<V>>)
    ensures var c := Run(Fresh<V>(), acts);
      && (forall i, j :: 0 <= i < j < |c.taken| ==> c.taken[i] < c.taken[j] < |c.published|)
      && (c.writer == Idle && c.published != [] ==>
            if c.buf.Some? then c.buf.value == |c.published| - 1
            else c.taken != [] && c.taken[|c.taken| - 1] == |c.published| - 1)
  {
    InvAlways(Fresh<V>(), acts);
  }

  /** The second, non-blocking send never finds the slot full, so no published
      value is lost to a slow reader without a newer one taking its place. */
  lemma OfferAlwaysLands<V>(acts: seq<Act<V>>)
    ensures var c := Run(Fresh<V>(), acts);
      c.writer == Offering ==> Step(c, Offer).buf == Some(|c.published| - 1)
  {
    InvAlways(Fresh<V>(), acts);
  }

  /** With no reader in between, a publication replaces what was there. */
  lemma ReplaceRun<V>(c: Chan<V>, v: V)
    requires c.writer == Idle
    ensures Run(c, [Publish(v), Drain, Offer])
         == c.(published := c.published + [v], buf := Some(|c.published|))
  {
    var c1 := Step(c, Publish(v));
    var c2 := Step(c1, Drain);
    var c3 := Step(c2, Offer);
    assert Run(c2, [Offer]) == Run(c3, []);
    assert Run(c1, [Drain, Offer]) == Run(c2, [Offer]);
  }

  // ------------------------------------------------------------- as an object

  /** A subscriber's one-slot channel, written under its owner's lock. chan is
      its history in the machine above; sending on a closed channel, or closing
      it twice, panics. */
  class Slot<V> {
    var buf: Option<V>
    var closed: bool
    ghost var chan: Chan<V>

    ghost predicate Valid() reads this {
      && Inv(chan) && chan.writer == Idle
      && buf == if chan.buf.Some? then Some(chan.published[chan.buf.value]) else None
    }

    constructor (closed: bool)
      ensures Valid() && buf == None && this.closed == closed && chan == Fresh()
    {
      buf, this.closed := None, closed;
      chan := Chan([], None, [], Idle);
    }

    /** Drops a stale value and offers the new one. */
    method Replace(v: V)
      requires Valid() && !closed
      modifies this`buf, this`chan
      ensures Valid() && buf == Some(v)
      ensures chan == Run(old(chan), [Publish(v), Drain, Offer])
      ensures chan.published == old(chan.published) + [v]
    {
      ReplaceRun(chan, v);
      InvAlways(chan, [Publish(v), Drain, Offer]);
      if buf.Some? {
        buf := None;
      }
      if buf.None? {
        buf := Some(v);
      }
      chan := chan.(published := chan.published + [v], buf := Some(|chan.published|));
    }

    /** The reader receives what is there. */
    method Receive() returns (v: Option<V>)
      requires Valid()
      modifies this`buf, this`chan
      ensures Valid() && buf == None && v == old(buf)
      ensures chan == Step(old(chan), Take)
    {
      InvStep(chan, Take);
      v, buf := buf, None;
      chan := Step(chan, Take);
    }

    method Close()
      requires Valid() && !closed
      modifies this`closed
      ensures Valid() && closed
    {
      closed := true;
    }
  }
}
