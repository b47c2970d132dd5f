/** From a player state to the lines Discord shows: what the template engine
    guarantees about one rendered line holds of every line of every run. */
module PresenceLines {
  import opened Option
  import opened GameState
  import opened TemplateCleanup
  import opened TemplateRender
  import opened PresenceMap
  import opened PresenceProtocol

  ghost predicate CleanLines(rpc: Rpc) {
    NormalForm(rpc.details) && NormalForm(rpc.state)
  }

  /** A payload some state, settings and catalogue map to. */
  ghost predicate IsMapped(rpc: Rpc) {
    exists env, st, cfg :: rpc == MapStateToPresence(env, st, cfg)
  }

  lemma MappedLinesAreClean(env: Env, st: State, cfg: Config)
    ensures CleanLines(MapStateToPresence(env, st, cfg))
  {
    hide Rendered, NormalForm, PhaseOf, ContextOf, Tokens, LargeArt, SmallIcon, ContextKey;
    var phase := PhaseOf(env.casing, st);
    var ctx, pair, d := ContextOf(phase), Override(cfg, ContextKey(phase)), Tokens(env, st, cfg);
    RenderedIsNormal(ctx, Chosen(pair.details, ctx.details), d);
    RenderedIsNormal(ctx, Chosen(pair.state, ctx.state), d);
  }

  /** The heartbeat's mark does not disturb a clean line. */
  lemma MarkedLinesAreClean(rpc: Rpc)
    requires CleanLines(rpc)
    ensures CleanLines(Marked(rpc))
  {
    var line, marked := rpc.details, Marked(rpc).details;
    assert marked[|line|] == '\U{200B}';
    forall i, j
      ensures !SepPair(marked, i, j)
    {
      NoPairAtInk(line, '\U{200B}', i, j);
    }
  }

  lemma NoPairAtInk(line: string, c: char, i: int, j: int)
    requires IsInk(c)
    ensures SepPair(line + [c], i, j) <==> SepPair(line, i, j)
  {
    assert forall k :: 0 <= k < |line| ==> (line + [c])[k] == line[k];
  }

  /** Everything the system may still put on the wire, and everything it has. */
  ghost predicate Clean(w: World) {
    && (w.u.previousRpc.Some? ==> CleanLines(w.u.previousRpc.value))
    && (w.peer.shown.Some? ==> CleanLines(w.peer.shown.value))
    && CleanFrames(w.peer.frames)
  }

  ghost predicate CleanFrames(t: seq<Frame>) {
    forall i :: 0 <= i < |t| ==> t[i].Null? || CleanLines(t[i].rpc)
  }

  lemma OneMoreClean(t: seq<Frame>, f: Frame)
    requires CleanFrames(t) && (f.Null? || CleanLines(f.rpc))
    ensures CleanFrames(t + [f])
  {
  }

  ghost predicate CarriesMapped(e: Event) {
    e.Execute? || e.Immediate? ==> IsMapped(e.rpc)
  }

  lemma CleanBeat(w: World, wire: Wire)
    requires Clean(w)
    ensures Clean(Heartbeat(w, wire))
  {
    hide CleanLines, CleanFrames;
    if w.u.previousRpc.Some? {
      var rpc := w.u.previousRpc.value;
      MarkedLinesAreClean(rpc);
      OneMoreClean(w.peer.frames, Resend(rpc));
      OneMoreClean(w.peer.frames, Resend(Marked(rpc)));
    }
  }

  lemma CleanStep(n: int, w: World, e: Event)
    requires Clean(w) && CarriesMapped(e)
    ensures Clean(Step(n, w, e))
  {
    hide IsMapped, CleanLines, CleanFrames, Heartbeat;
    OneMoreClean(w.peer.frames, Null);
    if e.Beat? {
      CleanBeat(w, e.wire);
    } else if e.Execute? || e.Immediate? {
      MappedIsClean(e.rpc);
      OneMoreClean(w.peer.frames, Real(e.rpc));
    }
  }

  lemma MappedIsClean(rpc: Rpc)
    requires IsMapped(rpc)
    ensures CleanLines(rpc)
  {
    hide CleanLines, MapStateToPresence;
    var env, st, cfg :| rpc == MapStateToPresence(env, st, cfg);
    MappedLinesAreClean(env, st, cfg);
  }

  lemma {:induction false} CleanAlong(n: int, w: World, es: seq<Event>)
    requires Clean(w) && forall e :: e in es ==> CarriesMapped(e)
    ensures Clean(Run(n, w, es))
    decreases |es|
  {
    hide Clean, CarriesMapped, Step;
    if es != [] {
      assert es[0] in es;
      CleanStep(n, w, es[0]);
      CleanAlong(n, Step(n, w, es[0]), es[1..]);
    }
  }

  /** Whatever the players, the settings and the user's templates: no run ever
      shows a line with an empty-token mark, a dangling or doubled separator
      or loose whitespace at an end, resends included. */
  lemma EveryShownLineIsClean(n: int, appId: string, es: seq<Event>)
    requires forall e :: e in es ==> CarriesMapped(e)
    ensures Clean(Run(n, FreshWorld(appId), es))
  {
    CleanAlong(n, FreshWorld(appId), es);
  }
}
