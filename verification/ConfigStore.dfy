/** The live settings and their subscribers. */
module ConfigStore {
  import opened Option
  import opened GameState
  import opened LatestValue

  class Store {
    var cur: Config
    var subs: seq<Slot<Config>>

    ghost predicate Valid() reads this, subs {
      && (forall i, j :: 0 <= i < j < |subs| ==> subs[i] != subs[j])
      && (forall ch :: ch in subs ==> ch.Valid() && !ch.closed)
    }

    constructor (initial: Config)
      ensures Valid() && cur == initial && subs == []
    {
      cur, subs := initial, [];
    }

    method Subscribe() returns (ch: Slot<Config>)
      requires Valid()
      modifies this`subs
      ensures Valid() && fresh(ch) && ch.chan == Fresh() && subs == old(subs) + [ch]
    {
      ch := new Slot<Config>(false);
      subs := subs + [ch];
    }

    /** valid: the new settings pass validation; saved: they reach the disk.
        All or nothing. */
    method Apply(next: Config, valid: bool, saved: bool) returns (ok: bool)
      requires Valid()
      modifies this`cur, subs
      ensures Valid() && ok == (valid && saved)
      ensures cur == if ok then next else old(cur)
      ensures ok ==> forall ch :: ch in subs ==>
        ch.buf == Some(next) && ch.chan == Run(old(ch.chan), [Publish(next), Drain, Offer])
      ensures !ok ==> forall ch :: ch in subs ==> ch.buf == old(ch.buf) && ch.chan == old(ch.chan)
    {
      hide Run, Inv;
      if !valid {
        return false;
      }
      if !saved {
        return false;
      }
      cur := next;
      for i := 0 to |subs|
        invariant Valid() && cur == next
        invariant forall k :: 0 <= k < i ==>
          subs[k].buf == Some(next) && subs[k].chan == Run(old(subs[k].chan), [Publish(next), Drain, Offer])
        invariant forall k :: i <= k < |subs| ==> subs[k].chan == old(subs[k].chan)
      {
        subs[i].Replace(next);
      }
      ok := true;
    }
  }
}
