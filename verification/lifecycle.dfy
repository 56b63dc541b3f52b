/**
  The mount/cleanup guards of the component's effect. On mount the effect
  returns early, registering no cleanup, when the canvas element is not
  mounted or when no image could be composed; otherwise it appends a module
  script that will hand the image to the liquid engine, and registers a
  cleanup. The cleanup disposes the engine published on `window.__liquidApp`
  only when that global exists and has a `dispose` member, and removes the
  script only when it still has a parent.

  The page is a small record of what the effect observes: whether the canvas
  is mounted, whether this effect's script element is attached, and the
  global engine, if any. What the script does once loaded is foreign code and
  is not modelled; the engine's presence is an input.
 */
module Lifecycle {
  import opened Js
  import opened Composer

  /** The global `window.__liquidApp`: whether it has a `dispose` member, and how often it was disposed. */
  datatype App = App(hasDispose: bool, disposals: nat)

  /** What the effect observes and changes. */
  datatype Page = Page(canvasMounted: bool, scriptAttached: bool, app: Option<App>)

  /** An observable call the effect or its cleanup makes. */
  datatype Effect = AppendScript(url: DataUrl) | Dispose | RemoveScript

  /** The result of running the effect: the new page, the calls made, and whether a cleanup was registered. */
  datatype Mounted = Mounted(page: Page, effects: seq<Effect>, cleanupRegistered: bool)

  /** The result of running a cleanup: the new page and the calls made. */
  datatype Cleaned = Cleaned(page: Page, effects: seq<Effect>)

  /**
    The effect body: bail out without a canvas, compose the image, bail out
    when `generateTextImage` returned `null`, otherwise append the script
    and register the cleanup. Every data URL is a non-empty string, so the
    `!dataUrl` test lets `"data:,"` through.
   */
  function Setup(p: Page, cfg: Config, env: Env): (m: Mounted)
    ensures m.cleanupRegistered <==> p.canvasMounted && env.contextAvailable
    ensures !m.cleanupRegistered ==> m.page == p && m.effects == []
    ensures m.cleanupRegistered ==>
      && m.page == p.(scriptAttached := true)
      && m.effects == [AppendScript(TextImageUrl(cfg, env).value)]
  {
    if !p.canvasMounted then Mounted(p, [], false)
    else
      var dataUrl := TextImageUrl(cfg, env);
      if dataUrl.None? then Mounted(p, [], false)
      else Mounted(p.(scriptAttached := true), [AppendScript(dataUrl.value)], true)
  }

  /** `window.__liquidApp && window.__liquidApp.dispose`. */
  predicate CanDispose(p: Page) {
    p.app.Some? && p.app.value.hasDispose
  }

  /**
    The registered cleanup: dispose the global engine if it exists and has
    `dispose`, then remove the script if it is still attached. The global is
    not cleared.
   */
  function Cleanup(p: Page): (c: Cleaned)
    ensures (Dispose in c.effects) <==> CanDispose(p)
    ensures (RemoveScript in c.effects) <==> p.scriptAttached
    ensures !c.page.scriptAttached
    ensures c.page.canvasMounted == p.canvasMounted
    ensures c.page.app.Some? == p.app.Some?
    ensures CanDispose(p) ==> c.page.app.value.disposals == p.app.value.disposals + 1
    ensures !CanDispose(p) ==> c.page.app == p.app
    ensures forall i, j :: 0 <= i < j < |c.effects| ==> c.effects[i] == Dispose && c.effects[j] == RemoveScript
  {
    var disposed := if CanDispose(p) then p.(app := Some(p.app.value.(disposals := p.app.value.disposals + 1))) else p;
    var calls := (if CanDispose(p) then [Dispose] else []) + (if p.scriptAttached then [RemoveScript] else []);
    Cleaned(disposed.(scriptAttached := false), calls)
  }

  /** Unmounting runs the cleanup only when the effect registered one. */
  function Unmount(p: Page, m: Mounted): Cleaned
  {
    if m.cleanupRegistered then Cleanup(p) else Cleaned(p, [])
  }

  /** Number of `Dispose` calls in a sequence of calls. */
  function Disposals(es: seq<Effect>): nat {
    if es == [] then 0 else (if es[0] == Dispose then 1 else 0) + Disposals(es[1..])
  }

  /**
    A second cleanup removes nothing more: once the script is detached the
    parent check skips it. It calls `dispose` again whenever the first one
    did, since the global engine is never cleared.
   */
  lemma CleanupTwice(p: Page)
    ensures var first := Cleanup(p); var second := Cleanup(first.page);
      && RemoveScript !in second.effects
      && ((Dispose in second.effects) <==> (Dispose in first.effects))
  {
  }

  /**
    The effect followed by an unmount, for every page and window: nothing is
    called when the canvas is missing or no context exists; otherwise the
    script is appended and later removed, and `dispose` is called exactly
    when the engine published meanwhile (`app`) exists and has `dispose`.
   */
  lemma SetupThenUnmount(p: Page, cfg: Config, env: Env, app: Option<App>)
    ensures !p.canvasMounted || !env.contextAvailable ==>
      && Setup(p, cfg, env).effects == []
      && Unmount(Setup(p, cfg, env).page.(app := app), Setup(p, cfg, env)).effects == []
    ensures p.canvasMounted && env.contextAvailable ==>
      && |Setup(p, cfg, env).effects| == 1 && Setup(p, cfg, env).effects[0].AppendScript?
      && RemoveScript in Unmount(Setup(p, cfg, env).page.(app := app), Setup(p, cfg, env)).effects
      && ((Dispose in Unmount(Setup(p, cfg, env).page.(app := app), Setup(p, cfg, env)).effects)
            <==> app.Some? && app.value.hasDispose)
      && !Unmount(Setup(p, cfg, env).page.(app := app), Setup(p, cfg, env)).page.scriptAttached
  {
  }

  /**
    Mounting with a canvas and a context, with an engine exposing `dispose`
    already published, then unmounting: one script appended, `dispose`
    called exactly once, the script removed.
   */
  lemma MountThenUnmount(p: Page, cfg: Config, env: Env)
    requires p.canvasMounted && env.contextAvailable
    requires p.app.Some? && p.app.value.hasDispose
    ensures var m := Setup(p, cfg, env); var c := Unmount(m.page, m);
      && m.effects == [AppendScript(TextImageUrl(cfg, env).value)]
      && Disposals(c.effects) == 1
      && c.effects == [Dispose, RemoveScript]
      && c.page.app.value.disposals == p.app.value.disposals + 1
      && !c.page.scriptAttached
  {
    var m := Setup(p, cfg, env);
    var c := Unmount(m.page, m);
    assert c.effects == [Dispose, RemoveScript];
    var tail: seq<Effect> := [RemoveScript];
    assert tail[1..] == [];
    assert Disposals(tail) == 0;
    assert c.effects[1..] == tail;
  }

  /**
    A mounted canvas whose viewport side is zero still gets a script: the
    effect appends it with the empty `"data:,"`, so the engine loads an
    image with nothing drawn.
   */
  lemma EmptyImageStillAppended(p: Page, cfg: Config, env: Env)
    requires p.canvasMounted && env.contextAvailable
    requires env.innerWidth == 0 || env.innerHeight == 0
    ensures Setup(p, cfg, env).cleanupRegistered
    ensures Setup(p, cfg, env).effects == [AppendScript(EmptyUrl)]
  {
    CanvasSides(env);
  }
}
