/** The event subscriptions of the Riot Client's socket, which outlive any one
    connection: handlers by event name, and the names in the order they were
    first registered. H is whatever identifies a handler. */
module RiotRegistry {

  datatype Reg<H> = Reg(handlers: map<string, seq<H>>, order: seq<string>)

  ghost predicate Distinct(order: seq<string>) {
    forall i, j :: 0 <= i < j < |order| ==> order[i] != order[j]
  }

  /** Each name once, exactly the names with handlers, and none without any. */
  ghost predicate WellFormed<H>(r: Reg<H>) {
    && Distinct(r.order)
    && (forall n :: n in r.order <==> n in r.handlers)
    && (forall n :: n in r.handlers ==> r.handlers[n] != [])
  }

  function HandlersFor<H>(r: Reg<H>, name: string): seq<H> {
    if name in r.handlers then r.handlers[name] else []
  }

  function Add<H>(r: Reg<H>, name: string, h: H): Reg<H> {
    Reg(r.handlers[name := HandlersFor(r, name) + [h]],
        if name in r.handlers then r.order else r.order + [name])
  }

  /** A handler is added behind those of its name, a new name behind the
      others; no other name notices. */
  lemma AddMeaning<H>(r: Reg<H>, name: string, h: H, other: string)
    ensures
      var a := Add(r, name, h);
      && HandlersFor(a, name) == HandlersFor(r, name) + [h]
      && (other != name ==> HandlersFor(a, other) == HandlersFor(r, other))
      && a.order == (if name in r.handlers then r.order else r.order + [name])
  {
  }

  function Without(order: seq<string>, name: string): seq<string> {
    if order == [] then []
    else (if order[0] == name then [] else [order[0]]) + Without(order[1..], name)
  }

  function RemoveLast<H>(r: Reg<H>, name: string): Reg<H> {
    var hs := HandlersFor(r, name);
    if hs == [] then r
    else if |hs| == 1 then Reg(r.handlers - {name}, Without(r.order, name))
    else r.(handlers := r.handlers[name := hs[..|hs| - 1]])
  }

  lemma {:induction false} WithoutAbsent(order: seq<string>, name: string)
    requires name !in order
    ensures Without(order, name) == order
  {
    if order != [] {
      WithoutAbsent(order[1..], name);
    }
  }

  lemma {:induction false} WithoutConcat(a: seq<string>, b: seq<string>, name: string)
    ensures Without(a + b, name) == Without(a, name) + Without(b, name)
  {
    if a == [] {
      assert a + b == b;
    } else {
      assert (a + b)[1..] == a[1..] + b;
      WithoutConcat(a[1..], b, name);
    }
  }

  lemma WithoutHead(name: string, b: seq<string>)
    ensures Without([name] + b, name) == Without(b, name)
  {
    assert ([name] + b)[1..] == b;
  }

  /** In a list without repeats the name goes and nothing else moves. */
  lemma WithoutOne(order: seq<string>, i: nat)
    requires i < |order| && Distinct(order)
    ensures Without(order, order[i]) == order[..i] + order[i + 1..]
  {
    hide Without;
    var a, b := order[..i], order[i + 1..];
    assert order == a + ([order[i]] + b);
    WithoutConcat(a, [order[i]] + b, order[i]);
    WithoutHead(order[i], b);
    WithoutAbsent(a, order[i]);
    WithoutAbsent(b, order[i]);
  }

  /** A failed subscribe leaves nothing behind. */
  lemma RemoveLastUndoesAdd<H>(r: Reg<H>, name: string, h: H)
    requires WellFormed(r)
    ensures RemoveLast(Add(r, name, h), name) == r
  {
    var a := Add(r, name, h);
    if name in r.handlers {
      assert RemoveLast(a, name).handlers == r.handlers;
    } else {
      assert a.handlers[name] == [h];
      assert a.handlers - {name} == r.handlers;
      WithoutConcat(r.order, [name], name);
      WithoutAbsent(r.order, name);
    }
  }

  lemma AddKeepsWellFormed<H>(r: Reg<H>, name: string, h: H)
    requires WellFormed(r)
    ensures WellFormed(Add(r, name, h))
  {
    var a := Add(r, name, h);
    assert forall n :: n in a.order <==> n in r.order || n == name;
  }

  lemma {:induction false} WithoutMeaning(order: seq<string>, name: string)
    ensures forall n :: n in Without(order, name) <==> n in order && n != name
    ensures Distinct(order) ==> Distinct(Without(order, name))
  {
    if order != [] {
      var rest := order[1..];
      WithoutMeaning(rest, name);
      assert forall n :: n in order <==> n == order[0] || n in rest;
      assert Distinct(order) ==> order[0] !in rest && Distinct(rest);
    }
  }

  lemma RemoveLastKeepsWellFormed<H>(r: Reg<H>, name: string)
    requires WellFormed(r)
    ensures WellFormed(RemoveLast(r, name))
  {
    WithoutMeaning(r.order, name);
  }

  class Registry<H> {
    var handlers: map<string, seq<H>>
    var order: seq<string>

    ghost function Abs(): Reg<H> reads this { Reg(handlers, order) }

    constructor ()
      ensures Abs() == Reg(map[], [])
    {
      handlers, order := map[], [];
    }

    /** Registers h and reports whether the name is new. */
    method AddHandler(name: string, h: H) returns (isNew: bool)
      modifies this
      ensures Abs() == Add(old(Abs()), name, h) && isNew == (name !in old(handlers))
    {
      var seen := name in handlers;
      if !seen {
        order := order + [name];
        handlers := handlers[name := []];
      }
      handlers := handlers[name := handlers[name] + [h]];
      isNew := !seen;
    }

    method RemoveLastHandler(name: string)
      modifies this
      ensures Abs() == RemoveLast(old(Abs()), name)
    {
      var hs := if name in handlers then handlers[name] else [];
      if |hs| == 0 {
        return;
      }
      if |hs| == 1 {
        handlers := handlers - {name};
        var kept: seq<string> := [];
        assert order[..0] == [];
        for i := 0 to |order|
          invariant order == old(order) && handlers == old(handlers) - {name}
          invariant kept == Without(order[..i], name)
        {
          assert order[..i + 1] == order[..i] + [order[i]];
          WithoutConcat(order[..i], [order[i]], name);
          if order[i] != name {
            kept := kept + [order[i]];
          }
        }
        assert order[..|order|] == order;
        order := kept;
      } else {
        handlers := handlers[name := hs[..|hs| - 1]];
      }
    }
  }
}
