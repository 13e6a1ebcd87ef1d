/**
 * The plugin machinery and the window's non-GUI control flow of `app.py` and
 * `plugin.py`: `PluginInterface` owns the record store and the registered
 * plugins; a `Plugin` registers itself with its interface when it is built;
 * `trigger(event)` calls back every matching trigger of every enabled plugin
 * in turn; loading a template, processing it and choosing what to save are
 * stated on the store.  The file dialogs, message boxes and the Excel reader
 * are parameters.
 */
module App {
  import opened Py
  import opened Externals
  import opened Store
  import opened PluginBase
  import opened CorePlugins

  // ---------------------------------------------------------------------------
  // Which callbacks a trigger fires

  /** The callbacks of the triggers in `ts` whose event is `e`, in order. */
  function Matching(ts: seq<Trigger<Procedure>>, e: Event): seq<Procedure>
  {
    if ts == [] then []
    else Matching(ts[..|ts| - 1], e) + (if ts[|ts| - 1].event == e then [ts[|ts| - 1].callback] else [])
  }

  /** What one plugin of class `k` contributes to `trigger(e)`: nothing unless it is enabled. */
  function Contribution(k: Kind, e: Event): seq<Procedure>
  {
    if Enabled(k) then Matching(Triggers(k), e) else []
  }

  /** What plugins of each class contribute to `trigger(e)`. */
  function Contributions(e: Event): Kind -> seq<Procedure>
  {
    k => Contribution(k, e)
  }

  /** The callbacks of plugins of the classes `ks`, plugin after plugin, when a plugin of class `k` contributes `c(k)`. */
  function Gathered(c: Kind -> seq<Procedure>, ks: seq<Kind>): seq<Procedure>
  {
    if ks == [] then [] else Gathered(c, ks[..|ks| - 1]) + c(ks[|ks| - 1])
  }

  /** The callbacks `trigger(e)` calls for plugins of the classes `ks`, plugin after plugin. */
  function Fired(ks: seq<Kind>, e: Event): seq<Procedure>
  {
    Gathered(Contributions(e), ks)
  }

  lemma GatheredSnoc(c: Kind -> seq<Procedure>, ks: seq<Kind>, k: Kind)
    ensures Gathered(c, ks + [k]) == Gathered(c, ks) + c(k)
  {
    assert (ks + [k])[..|ks|] == ks;
  }

  lemma {:induction false} GatheredConcat(c: Kind -> seq<Procedure>, a: seq<Kind>, b: seq<Kind>)
    ensures Gathered(c, a + b) == Gathered(c, a) + Gathered(c, b)
  {
    if b == [] {
      assert a + b == a;
    } else {
      var front := b[..|b| - 1];
      var last := b[|b| - 1];
      assert b == front + [last];
      assert a + b == (a + front) + [last];
      GatheredConcat(c, a, front);
      GatheredSnoc(c, a + front, last);
      GatheredSnoc(c, front, last);
      var x, y, z := Gathered(c, a), Gathered(c, front), c(last);
      assert (x + y) + z == x + (y + z);
    }
  }

  /** A callback is among the matching ones exactly when some trigger of `ts` on `e` names it. */
  lemma {:induction false} MatchingExact(ts: seq<Trigger<Procedure>>, e: Event, p: Procedure)
    ensures p in Matching(ts, e) <==> Trigger(e, p) in ts
  {
    if ts != [] {
      var front := ts[..|ts| - 1];
      MatchingExact(front, e, p);
      assert ts == front + [ts[|ts| - 1]];
    }
  }

  /**
   * `trigger(e)` fires a callback exactly when some enabled plugin has a
   * trigger on `e` with that callback.
   */
  lemma {:induction false} FiredExact(ks: seq<Kind>, e: Event, p: Procedure)
    ensures p in Fired(ks, e) <==> exists i :: 0 <= i < |ks| && Enabled(ks[i]) && Trigger(e, p) in Triggers(ks[i])
  {
    if ks != [] {
      var front := ks[..|ks| - 1];
      var last := ks[|ks| - 1];
      FiredExact(front, e, p);
      MatchingExact(Triggers(last), e, p);
      if p in Fired(ks, e) {
        if p !in Fired(front, e) {
          assert Enabled(ks[|ks| - 1]) && Trigger(e, p) in Triggers(ks[|ks| - 1]);
        } else {
          var i :| 0 <= i < |front| && Enabled(front[i]) && Trigger(e, p) in Triggers(front[i]);
          assert ks[i] == front[i];
        }
      }
      if exists i :: 0 <= i < |ks| && Enabled(ks[i]) && Trigger(e, p) in Triggers(ks[i]) {
        var i :| 0 <= i < |ks| && Enabled(ks[i]) && Trigger(e, p) in Triggers(ks[i]);
        if i < |front| {
          assert front[i] == ks[i];
        }
      }
    }
  }

  /** Plugins that are not enabled (the `Plugin` default among them) add nothing, whatever their triggers. */
  lemma {:induction false} FiredSkipsDisabled(ks: seq<Kind>, k: Kind, e: Event)
    requires !Enabled(k)
    ensures Fired(ks + [k], e) == Fired(ks, e)
    ensures Fired([k], e) == []
  {
    FiredSnoc(ks, k, e);
    FiredSnoc([], k, e);
    assert [] + [k] == [k];
  }

  /** One more plugin at the back adds its callbacks at the back. */
  lemma FiredSnoc(ks: seq<Kind>, k: Kind, e: Event)
    ensures Fired(ks + [k], e) == Fired(ks, e) + Contribution(k, e)
  {
    GatheredSnoc(Contributions(e), ks, k);
  }

  /** Firing for two runs of plugins fires for each in turn. */
  lemma FiredConcat(a: seq<Kind>, b: seq<Kind>, e: Event)
    ensures Fired(a + b, e) == Fired(a, e) + Fired(b, e)
  {
    GatheredConcat(Contributions(e), a, b);
  }

  /** The plugins the window builds, in the order it builds them. */
  const StartKinds: seq<Kind> := [AssignRoutesPlugin] + FactoryPlugins + [ValidatePlugin]

  /** Only an enabled made class contributes, and only to ON_PROCESS, its own `main`. */
  lemma ContributionOf(k: Kind, e: Event)
    ensures Contribution(k, e) == if k.MakePlugin? && k.enable && e == OnProcess then [MakeMain(k.maker)] else []
  {
    if k.MakePlugin? {
      var ts := Triggers(k);
      assert ts == [Trigger(OnProcess, MakeMain(k.maker))];
      assert ts[..0] == [];
      assert Matching(ts, e) == if e == OnProcess then [MakeMain(k.maker)] else [];
    }
  }

  /** Enabled made classes fire their `main`, in order, on ON_PROCESS, and nothing on any other event. */
  lemma {:induction false} FiredAllMade(ks: seq<Kind>, e: Event)
    requires forall i :: 0 <= i < |ks| ==> ks[i].MakePlugin? && ks[i].enable
    ensures e != OnProcess ==> Fired(ks, e) == []
    ensures e == OnProcess ==> |Fired(ks, e)| == |ks| && forall i :: 0 <= i < |ks| ==> Fired(ks, e)[i] == MakeMain(ks[i].maker)
  {
    if ks != [] {
      FiredAllMade(ks[..|ks| - 1], e);
      ContributionOf(ks[|ks| - 1], e);
    }
  }

  /**
   * With the window's plugins, ON_PROCESS runs the five made classes' `main`
   * in order, and no other event fires anything.
   */
  lemma StartFired(e: Event)
    ensures e == OnProcess ==> Fired(StartKinds, e) == [MakeMain(MakeRoute), MakeMain(MakeDeparture),
      MakeMain(MakeSelection), MakeMain(MakeCustomerExtension), MakeMain(MakeCustomerExtensionExtended)]
    ensures e != OnProcess ==> Fired(StartKinds, e) == []
  {
    var a, v := [AssignRoutesPlugin], [ValidatePlugin];
    FiredConcat(a + FactoryPlugins, v, e);
    FiredConcat(a, FactoryPlugins, e);
    assert Fired(a, e) == [] by {
      assert a[..0] == [];
      ContributionOf(AssignRoutesPlugin, e);
    }
    assert Fired(v, e) == [] by {
      assert v[..0] == [];
      ContributionOf(ValidatePlugin, e);
    }
    FactoryFired(e);
    var f := Fired(FactoryPlugins, e);
    assert Fired(StartKinds, e) == f by {
      assert [] + f + [] == f;
    }
  }

  /** The five made classes of the module fire their `main`, in the order the module lists them. */
  lemma FactoryFired(e: Event)
    ensures e == OnProcess ==> Fired(FactoryPlugins, e) == [MakeMain(MakeRoute), MakeMain(MakeDeparture),
      MakeMain(MakeSelection), MakeMain(MakeCustomerExtension), MakeMain(MakeCustomerExtensionExtended)]
    ensures e != OnProcess ==> Fired(FactoryPlugins, e) == []
  {
    FiredAllMade(FactoryPlugins, e);
  }

  // ---------------------------------------------------------------------------
  // What the fired callbacks do

  /** Running one callback on the store. */
  function ProcedureRun(s: StoreState, env: Env, prompt: string -> Reply, p: Procedure): Run
    requires Wellformed(s)
  {
    match p
    case AssignRoutesMain => AssignRoutesRun(s, env, prompt)
    case MakeMain(m) => MakeRun(s, env, m)
    case ValidateMain => ValidateRun(s, env)
  }

  lemma ProcedureRunWellformed(s: StoreState, env: Env, prompt: string -> Reply, p: Procedure)
    requires Wellformed(s)
    ensures Wellformed(ProcedureRun(s, env, prompt, p).state)
  {
    match p
    case AssignRoutesMain => AssignRoutesRunWellformed(s, env, prompt);
    case MakeMain(m) => MakeRunViews(s, env, m);
    case ValidateMain => ValidateRunViews(s, env);
  }

  /** What calling a callback does to a store. */
  type Step = (StoreState, Procedure) -> Run

  /**
   * The callbacks as the plugins define them.  Every store the interface
   * holds is well formed; the other branch only makes the step total.
   */
  ghost function Callbacks(env: Env, prompt: string -> Reply): Step
  {
    (s: StoreState, p: Procedure) => if Wellformed(s) then ProcedureRun(s, env, prompt, p) else Run(Returns(()), s, [])
  }

  /**
   * `step` does what the plugins' callbacks do, on every store the
   * interface can hold.  The trigger keeps the callbacks' definitions out of
   * sight of reasoning that only needs to know that they are run.
   */
  ghost predicate CallbacksAre(step: Step, env: Env, prompt: string -> Reply)
  {
    forall s, p {:trigger ProcedureRun(s, env, prompt, p)} :: Wellformed(s) ==> step(s, p) == ProcedureRun(s, env, prompt, p)
  }

  lemma CallbacksAreCallbacks(env: Env, prompt: string -> Reply)
    ensures CallbacksAre(Callbacks(env, prompt), env, prompt)
  {
  }

  /** A step that keeps every store well formed. */
  ghost predicate KeepsWellformed(step: Step)
  {
    forall s, p :: Wellformed(s) ==> Wellformed(step(s, p).state)
  }

  lemma CallbacksKeepWellformed(env: Env, prompt: string -> Reply)
    ensures KeepsWellformed(Callbacks(env, prompt))
  {
    forall s, p | Wellformed(s) ensures Wellformed(Callbacks(env, prompt)(s, p).state) {
      ProcedureRunWellformed(s, env, prompt, p);
    }
  }

  /**
   * Running the callbacks `ps` one after the other: the error prompts add
   * up, and the first callback that raises ends the run, its exception
   * leaving `trigger`.
   */
  function FiredRun(step: Step, s: StoreState, ps: seq<Procedure>): Run
    decreases |ps|
  {
    if ps == [] then Run(Returns(()), s, [])
    else
      var q := step(s, ps[0]);
      if q.outcome.Raises? then q
      else
        var rest := FiredRun(step, q.state, ps[1..]);
        Run(rest.outcome, rest.state, q.errors + rest.errors)
  }

  lemma {:induction false} FiredRunWellformed(step: Step, s: StoreState, ps: seq<Procedure>)
    requires KeepsWellformed(step) && Wellformed(s)
    ensures Wellformed(FiredRun(step, s, ps).state)
    decreases |ps|
  {
    if ps != [] {
      var q := step(s, ps[0]);
      if q.outcome.Returns? {
        FiredRunWellformed(step, q.state, ps[1..]);
      }
    }
  }

  /**
   * Running `a + b` runs `a`; if that raised, nothing more happens;
   * otherwise `b` runs on the store `a` left, and the error prompts add up.
   */
  lemma {:induction false} FiredRunConcat(step: Step, s: StoreState, a: seq<Procedure>, b: seq<Procedure>)
    ensures FiredRun(step, s, a).outcome.Raises? ==> FiredRun(step, s, a + b) == FiredRun(step, s, a)
    ensures FiredRun(step, s, a).outcome.Returns? ==>
      var r := FiredRun(step, s, a);
      var q := FiredRun(step, r.state, b);
      FiredRun(step, s, a + b) == Run(q.outcome, q.state, r.errors + q.errors)
    decreases |a|
  {
    if a == [] {
      assert a + b == b;
    } else {
      assert (a + b)[0] == a[0];
      assert (a + b)[1..] == a[1..] + b;
      var q := step(s, a[0]);
      if q.outcome.Returns? {
        FiredRunConcat(step, q.state, a[1..], b);
        var r' := FiredRun(step, q.state, a[1..]);
        if r'.outcome.Returns? {
          var q2 := FiredRun(step, r'.state, b);
          assert q.errors + (r'.errors + q2.errors) == (q.errors + r'.errors) + q2.errors;
        }
      }
    }
  }

  /** Running one more callback after `ps`, when `ps` did not raise. */
  lemma FiredRunSnoc(step: Step, s: StoreState, ps: seq<Procedure>, p: Procedure)
    requires FiredRun(step, s, ps).outcome.Returns?
    ensures var before := FiredRun(step, s, ps);
      var q := step(before.state, p);
      FiredRun(step, s, ps + [p]) == Run(q.outcome, q.state, before.errors + q.errors)
  {
    FiredRunConcat(step, s, ps, [p]);
    var before := FiredRun(step, s, ps);
    var q := step(before.state, p);
    assert [p][1..] == [];
    if q.outcome.Returns? {
      ReturnsUnit(q.outcome);
      assert q.errors + [] == q.errors;
    }
  }

  /** Once a callback has raised, the callbacks after it do not run. */
  lemma FiredRunStops(step: Step, s: StoreState, ps: seq<Procedure>, rest: seq<Procedure>)
    requires FiredRun(step, s, ps).outcome.Raises?
    ensures FiredRun(step, s, ps + rest) == FiredRun(step, s, ps)
  {
    FiredRunConcat(step, s, ps, rest);
  }

  /** A callback that appends only (a made class's or validation's `main`). */
  predicate Appends(p: Procedure)
  {
    p.MakeMain? || p.ValidateMain?
  }

  /** Store `u` keeps every view of `t` as a prefix, and its protected set. */
  ghost predicate Grows(t: StoreState, u: StoreState)
  {
    u.protected == t.protected && forall k :: ViewOf(t, k) <= ViewOf(u, k)
  }

  /** A step under which every appending callback grows the store. */
  ghost predicate AppendsGrow(step: Step)
  {
    forall s, p :: Wellformed(s) && Appends(p) ==> Grows(s, step(s, p).state)
  }

  lemma CallbacksAppendsGrow(env: Env, prompt: string -> Reply)
    ensures AppendsGrow(Callbacks(env, prompt))
  {
    forall s, p | Wellformed(s) && Appends(p) ensures Grows(s, Callbacks(env, prompt)(s, p).state) {
      match p
      case MakeMain(m) => MakeRunViews(s, env, m);
      case ValidateMain => ValidateRunViews(s, env);
    }
  }

  /** Callbacks that only append keep every view as a prefix of what it becomes, and keep the protected set. */
  lemma {:induction false} FiredRunGrows(step: Step, s: StoreState, ps: seq<Procedure>)
    requires KeepsWellformed(step) && AppendsGrow(step) && Wellformed(s)
    requires forall i :: 0 <= i < |ps| ==> Appends(ps[i])
    ensures Grows(s, FiredRun(step, s, ps).state)
    decreases |ps|
  {
    if ps != [] {
      var q := step(s, ps[0]);
      assert Appends(ps[0]);
      if q.outcome.Returns? {
        assert forall i :: 0 <= i < |ps[1..]| ==> ps[1..][i] == ps[i + 1];
        FiredRunGrows(step, q.state, ps[1..]);
        var t := FiredRun(step, q.state, ps[1..]).state;
        forall k ensures ViewOf(s, k) <= ViewOf(t, k) {
          assert ViewOf(s, k) <= ViewOf(q.state, k) <= ViewOf(t, k);
        }
      }
    }
  }

  // ---------------------------------------------------------------------------
  // PluginInterface and Plugin

  class PluginInterface {
    const mvc: ModelViewController
    /** The registered plugins: a set in the source, here in registration order. */
    var plugins: seq<Plugin>

    constructor ()
      ensures fresh(mvc) && mvc.Valid() && mvc.State() == Initial
      ensures plugins == []
    {
      mvc := new ModelViewController();
      plugins := [];
    }

    /** `register(plugin)`: a set `add`, so registering twice keeps one entry. */
    method Register(p: Plugin)
      modifies this
      ensures plugins == if p in old(plugins) then old(plugins) else old(plugins) + [p]
    {
      if p !in plugins {
        plugins := plugins + [p];
      }
    }

    /** The classes of the registered plugins, in the order `list_plugins` gives them. */
    function Kinds(): (ks: seq<Kind>)
      reads this
      ensures |ks| == |plugins| && forall i :: 0 <= i < |ks| ==> ks[i] == plugins[i].kind
    {
      seq(|plugins|, i requires 0 <= i < |plugins| reads this => plugins[i].kind)
    }

    /**
     * `trigger(event)`: for each enabled plugin, for each of its triggers
     * on `event`, call the callback, which works on this interface's store.
     */
    method Trigger(e: Event, env: Env, prompt: string -> Reply, ghost step: Step) returns (outcome: Answer<()>, errors: seq<string>)
      requires mvc.Valid() && CallbacksAre(step, env, prompt)
      modifies mvc
      ensures mvc.Valid()
      ensures Run(outcome, mvc.State(), errors) == FiredRun(step, old(mvc.State()), Fired(Kinds(), e))
    {
      var ks := Kinds();
      outcome, errors := FirePlugins(mvc, env, prompt, step, ks, e);
    }
  }

  /** The outer loop of `trigger`: plugin after plugin, the enabled ones' triggers on `e`, until a callback raises. */
  method FirePlugins(mvc: ModelViewController, env: Env, prompt: string -> Reply, ghost step: Step, ks: seq<Kind>, e: Event)
    returns (outcome: Answer<()>, errors: seq<string>)
    requires mvc.Valid() && CallbacksAre(step, env, prompt)
    modifies mvc
    ensures mvc.Valid()
    ensures Run(outcome, mvc.State(), errors) == FiredRun(step, old(mvc.State()), Fired(ks, e))
  {
    ghost var s0 := mvc.State();
    outcome, errors := Returns(()), [];
    var i := 0;
    while i < |ks|
      invariant 0 <= i <= |ks| && mvc.Valid()
      invariant Run(Returns(()), mvc.State(), errors) == FiredRun(step, s0, Fired(ks[..i], e))
    {
      var k := ks[i];
      TriggerStep(step, s0, ks, i, e, mvc.State(), errors);
      if Enabled(k) {
        var o, errs := FireTriggers(mvc, env, prompt, step, Triggers(k), e);
        errors := errors + errs;
        if o.Raises? {
          return o, errors;
        }
      }
      i := i + 1;
    }
    assert ks[..i] == ks;
  }

  /** The first `i + 1` plugins fire what the first `i` fire, then what plugin `i` contributes. */
  lemma FiredTake(ks: seq<Kind>, i: nat, e: Event)
    requires i < |ks|
    ensures Fired(ks[..i + 1], e) == Fired(ks[..i], e) + Contribution(ks[i], e)
  {
    assert ks[..i + 1][..i] == ks[..i];
  }

  /** The inner loop of `trigger`: the callbacks of the triggers `ts` on `e`, in order, until one raises. */
  method FireTriggers(mvc: ModelViewController, env: Env, prompt: string -> Reply, ghost step: Step, ts: seq<Trigger<Procedure>>, e: Event)
    returns (outcome: Answer<()>, errors: seq<string>)
    requires mvc.Valid() && CallbacksAre(step, env, prompt)
    modifies mvc
    ensures mvc.Valid()
    ensures Run(outcome, mvc.State(), errors) == FiredRun(step, old(mvc.State()), Matching(ts, e))
  {
    ghost var s0 := mvc.State();
    outcome, errors := Returns(()), [];
    var j := 0;
    while j < |ts|
      invariant 0 <= j <= |ts| && mvc.Valid()
      invariant Run(Returns(()), mvc.State(), errors) == FiredRun(step, s0, Matching(ts[..j], e))
    {
      FireStep(step, s0, ts, j, e, mvc.State(), errors);
      if ts[j].event == e {
        var o, errs := RunProcedure(mvc, env, prompt, step, ts[j].callback);
        errors := errors + errs;
        if o.Raises? {
          return o, errors;
        }
      }
      j := j + 1;
    }
    assert ts[..j] == ts;
  }

  /**
   * One turn of the inner loop: a trigger on another event changes
   * nothing; one on `e` runs its callback after the earlier ones, and if
   * that raises, the run over all of `ts` ends there.
   */
  lemma FireStep(step: Step, s0: StoreState, ts: seq<Trigger<Procedure>>, j: nat, e: Event, st: StoreState, done: seq<string>)
    requires j < |ts|
    requires FiredRun(step, s0, Matching(ts[..j], e)) == Run(Returns(()), st, done)
    ensures ts[j].event != e ==> FiredRun(step, s0, Matching(ts[..j + 1], e)) == Run(Returns(()), st, done)
    ensures ts[j].event == e && step(st, ts[j].callback).outcome.Returns? ==>
      var q := step(st, ts[j].callback);
      FiredRun(step, s0, Matching(ts[..j + 1], e)) == Run(Returns(()), q.state, done + q.errors)
    ensures ts[j].event == e && step(st, ts[j].callback).outcome.Raises? ==>
      var q := step(st, ts[j].callback);
      FiredRun(step, s0, Matching(ts, e)) == Run(q.outcome, q.state, done + q.errors)
  {
    MatchingTake(ts, j, e);
    var m := Matching(ts[..j], e);
    if ts[j].event != e {
      assert m + [] == m;
    } else {
      var q := step(st, ts[j].callback);
      FiredRunSnoc(step, s0, m, ts[j].callback);
      if q.outcome.Returns? {
        ReturnsUnit(q.outcome);
      } else {
        MatchingSplit(ts, j + 1, e);
        var all := Matching(ts, e);
        var head := Matching(ts[..j + 1], e);
        FiredRunStops(step, s0, head, all[|head|..]);
        assert head + all[|head|..] == all;
      }
    }
  }

  /**
   * One turn of the outer loop: a disabled plugin changes nothing; an
   * enabled one runs its callbacks after the earlier plugins', and if one
   * raises, the whole trigger ends there.
   */
  lemma TriggerStep(step: Step, s0: StoreState, ks: seq<Kind>, i: nat, e: Event, st: StoreState, done: seq<string>)
    requires i < |ks|
    requires FiredRun(step, s0, Fired(ks[..i], e)) == Run(Returns(()), st, done)
    ensures !Enabled(ks[i]) ==> FiredRun(step, s0, Fired(ks[..i + 1], e)) == Run(Returns(()), st, done)
    ensures Enabled(ks[i]) && FiredRun(step, st, Matching(Triggers(ks[i]), e)).outcome.Returns? ==>
      var q := FiredRun(step, st, Matching(Triggers(ks[i]), e));
      FiredRun(step, s0, Fired(ks[..i + 1], e)) == Run(Returns(()), q.state, done + q.errors)
    ensures Enabled(ks[i]) && FiredRun(step, st, Matching(Triggers(ks[i]), e)).outcome.Raises? ==>
      var q := FiredRun(step, st, Matching(Triggers(ks[i]), e));
      FiredRun(step, s0, Fired(ks, e)) == Run(q.outcome, q.state, done + q.errors)
  {
    FiredTake(ks, i, e);
    var f := Fired(ks[..i], e);
    var c := Contribution(ks[i], e);
    FiredRunConcat(step, s0, f, c);
    if !Enabled(ks[i]) {
      assert f + c == f;
    }
    var q := FiredRun(step, st, c);
    if q.outcome.Returns? {
      ReturnsUnit(q.outcome);
    } else {
      FiredSplit(ks, i, e);
      FiredRunStops(step, s0, f + c, Fired(ks[i + 1..], e));
    }
  }

  lemma MatchingTake(ts: seq<Trigger<Procedure>>, j: nat, e: Event)
    requires j < |ts|
    ensures Matching(ts[..j + 1], e) == Matching(ts[..j], e) + (if ts[j].event == e then [ts[j].callback] else [])
  {
    assert ts[..j + 1][..j] == ts[..j];
  }

  /** The callbacks of a prefix of the triggers are a prefix of all the callbacks. */
  lemma {:induction false} MatchingSplit(ts: seq<Trigger<Procedure>>, j: nat, e: Event)
    requires j <= |ts|
    ensures Matching(ts[..j], e) <= Matching(ts, e)
  {
    if j < |ts| {
      MatchingSplit(ts[..|ts| - 1], j, e);
      assert ts[..|ts| - 1][..j] == ts[..j];
    } else {
      assert ts[..j] == ts;
    }
  }

  /** Firing for all plugins is firing for the first `i + 1`, then for the rest. */
  lemma FiredSplit(ks: seq<Kind>, i: nat, e: Event)
    requires i < |ks|
    ensures Fired(ks, e) == Fired(ks[..i + 1], e) + Fired(ks[i + 1..], e)
  {
    FiredConcat(ks[..i + 1], ks[i + 1..], e);
    assert ks[..i + 1] + ks[i + 1..] == ks;
  }

  /** Calling one callback on the store. */
  method RunProcedure(mvc: ModelViewController, env: Env, prompt: string -> Reply, ghost step: Step, p: Procedure)
    returns (outcome: Answer<()>, errors: seq<string>)
    requires mvc.Valid() && CallbacksAre(step, env, prompt)
    modifies mvc
    ensures mvc.Valid()
    ensures Run(outcome, mvc.State(), errors) == step(old(mvc.State()), p)
  {
    ghost var run := ProcedureRun(mvc.State(), env, prompt, p);
    match p
    case AssignRoutesMain =>
      outcome, errors := RunAssignRoutes(mvc, env, prompt);
    case MakeMain(m) =>
      outcome := RunMake(mvc, env, m);
      errors := [];
    case ValidateMain =>
      outcome, errors := RunValidate(mvc, env);
  }

  class Plugin {
    const kind: Kind
    const iface: PluginInterface

    /** `Plugin.__init__`: keep the interface and register with it. */
    constructor (kind: Kind, iface: PluginInterface)
      modifies iface
      ensures this.kind == kind && this.iface == iface
      ensures iface.plugins == old(iface.plugins) + [this]
    {
      this.kind := kind;
      this.iface := iface;
      new;
      iface.Register(this);
    }
  }

  /** The window's constructor: a new interface, then the seven plugins, each registering itself. */
  method Start() returns (iface: PluginInterface)
    ensures fresh(iface) && fresh(iface.mvc) && iface.mvc.Valid() && iface.mvc.State() == Initial
    ensures iface.Kinds() == StartKinds
  {
    iface := new PluginInterface();
    var p0 := new Plugin(AssignRoutesPlugin, iface);
    var i := 0;
    while i < |FactoryPlugins|
      invariant 0 <= i <= |FactoryPlugins|
      invariant iface.Kinds() == [AssignRoutesPlugin] + FactoryPlugins[..i]
      invariant iface.mvc.Valid() && iface.mvc.State() == Initial
    {
      var p := new Plugin(FactoryPlugins[i], iface);
      assert FactoryPlugins[..i + 1] == FactoryPlugins[..i] + [FactoryPlugins[i]];
      i := i + 1;
    }
    var p6 := new Plugin(ValidatePlugin, iface);
    assert FactoryPlugins[..i] == FactoryPlugins;
  }

  // ---------------------------------------------------------------------------
  // The window's callbacks, without their dialogs

  /**
   * The rows `load_excel` yields for the TEMPLATE_V3 sheet, each a dict of
   * attributes, and the message of the KeyError it raises after them, if it
   * does.
   */
  datatype Sheet = Sheet(rows: seq<map<string, Value>>, keyError: Option<string>)

  /**
   * The record appended for one row: `ValidatedTemplate(**attributes)` when
   * that validates, else `ValidatedTemplate.construct(**attributes)`; either
   * way a TEMPLATE_V3 record.
   */
  function LoadedRecord(env: Env, row: map<string, Value>): (r: Record)
    ensures env.validate(Record(TemplateApi, row)).Invalid? ==> r == Record(TemplateApi, row)
    ensures env.validate(Record(TemplateApi, row)).Valid? ==> r == env.validate(Record(TemplateApi, row)).copy
    ensures KeepsClass(env) ==> r.api == TemplateApi
  {
    Revalidated(env, Record(TemplateApi, row))
  }

  /** The records appended for the rows, one per row, in order. */
  function LoadedRecords(env: Env, rows: seq<map<string, Value>>): (rs: seq<Record>)
    ensures |rs| == |rows| && forall i :: 0 <= i < |rows| ==> rs[i] == LoadedRecord(env, rows[i])
    ensures KeepsClass(env) ==> forall i :: 0 <= i < |rs| ==> rs[i].api == TemplateApi
  {
    seq(|rows|, i requires 0 <= i < |rows| => LoadedRecord(env, rows[i]))
  }

  /**
   * `_load_template_cb` after its dialog: a forced clear; with no file
   * chosen, nothing more.  Otherwise every loaded row is appended; a
   * KeyError is shown and ends the load; else TEMPLATE_V3 is protected,
   * which raises LookupError when no such view was loaded.
   */
  function LoadRun(env: Env, chosen: bool, sheet: Sheet): Run
  {
    var c := StoreState([], map[], Some({}));
    if !chosen then Run(Returns(()), c, [])
    else
      var t := AppendAll(c, LoadedRecords(env, sheet.rows));
      if sheet.keyError.Some? then Run(Returns(()), t, [sheet.keyError.value])
      else
        match Protected(t, TemplateApi)
        case Raises(e) => Run(Raises(e), t, [])
        case Returns(u) => Run(Returns(()), u, [])
  }

  /** `_load_template_cb` after its dialog, appending the loaded rows one by one through the interface. */
  method LoadTemplate(iface: PluginInterface, env: Env, chosen: bool, sheet: Sheet) returns (outcome: Answer<()>, errors: seq<string>)
    requires iface.mvc.Valid()
    modifies iface.mvc
    ensures iface.mvc.Valid()
    ensures Run(outcome, iface.mvc.State(), errors) == LoadRun(env, chosen, sheet)
  {
    var mvc := iface.mvc;
    outcome := mvc.Clear(true);
    errors := [];
    if !chosen {
      return;
    }
    ghost var c := mvc.State();
    ghost var loaded := LoadedRecords(env, sheet.rows);
    var i := 0;
    while i < |sheet.rows|
      invariant 0 <= i <= |sheet.rows| && mvc.Valid()
      invariant mvc.State() == AppendAll(c, loaded[..i])
    {
      TakeSnoc(loaded, i);
      AppendAllSnoc(c, loaded[..i], loaded[i]);
      mvc.AppendRecord(LoadedRecord(env, sheet.rows[i]));
      i := i + 1;
    }
    TakeAll(loaded);
    if sheet.keyError.Some? {
      errors := [sheet.keyError.value];
      return;
    }
    outcome := mvc.Protect(TemplateApi);
  }

  /**
   * Loading leaves exactly one view, TEMPLATE_V3, holding the loaded rows in
   * order, and protects it; whatever was there before is gone.  Without a
   * chosen file the store is just cleared.  A KeyError is shown and leaves
   * the rows read so far unprotected.  With no rows there is no view, and
   * the protect raises LookupError.
   */
  lemma LoadRunTemplate(env: Env, sheet: Sheet)
    requires KeepsClass(env)
    ensures LoadRun(env, false, sheet) == Run(Returns(()), StoreState([], map[], Some({})), [])
    ensures sheet.rows != [] && sheet.keyError.None? ==>
      LoadRun(env, true, sheet) == Run(Returns(()), StoreState([TemplateApi], map[TemplateApi := LoadedRecords(env, sheet.rows)], Some({TemplateApi})), [])
    ensures sheet.rows != [] && sheet.keyError.Some? ==>
      LoadRun(env, true, sheet) == Run(Returns(()), StoreState([TemplateApi], map[TemplateApi := LoadedRecords(env, sheet.rows)], Some({})), [sheet.keyError.value])
    ensures sheet.rows == [] && sheet.keyError.None? ==> LoadRun(env, true, sheet) == Run(Raises(LookupError), StoreState([], map[], Some({})), [])
    ensures sheet.rows == [] && sheet.keyError.Some? ==> LoadRun(env, true, sheet) == Run(Returns(()), StoreState([], map[], Some({})), [sheet.keyError.value])
  {
    if sheet.rows != [] {
      var rs := LoadedRecords(env, sheet.rows);
      LoadedInOneView(rs, TemplateApi, Some({}));
      var t := StoreState([TemplateApi], map[TemplateApi := rs], Some({}));
      assert TemplateApi in t.views;
      assert Protected(t, TemplateApi) == Returns(t.(protected := Some({} + {TemplateApi})));
      assert {} + {TemplateApi} == {TemplateApi};
    }
  }

  /** Appending records of one `_api` to an empty store makes that one view. */
  lemma {:induction false} LoadedInOneView(rs: seq<Record>, k: string, p: Option<set<string>>)
    requires rs != [] && forall i :: 0 <= i < |rs| ==> rs[i].api == k
    ensures AppendAll(StoreState([], map[], p), rs) == StoreState([k], map[k := rs], p)
  {
    var front := rs[..|rs| - 1];
    if front != [] {
      LoadedInOneView(front, k, p);
      assert front + [rs[|rs| - 1]] == rs;
    } else {
      assert rs == [rs[0]];
    }
  }

  /**
   * `_process_template_cb`: a non-forced clear, then ON_PROCESS fired for
   * the plugins of the classes `ks`.
   */
  ghost function ProcessRun(s: StoreState, env: Env, prompt: string -> Reply, ks: seq<Kind>): Run
    requires Wellformed(s)
  {
    ClearedWellformed(s, false);
    match Cleared(s, false)
    case Raises(e) => Run(Raises(e), s, [])
    case Returns(c) => FiredRun(Callbacks(env, prompt), c, Fired(ks, OnProcess))
  }

  method ProcessTemplate(iface: PluginInterface, env: Env, prompt: string -> Reply) returns (outcome: Answer<()>, errors: seq<string>)
    requires iface.mvc.Valid()
    modifies iface.mvc
    ensures iface.mvc.Valid()
    ensures Run(outcome, iface.mvc.State(), errors) == ProcessRun(old(iface.mvc.State()), env, prompt, iface.Kinds())
  {
    ClearedWellformed(iface.mvc.State(), false);
    outcome := iface.mvc.Clear(false);
    if outcome.Raises? {
      return outcome, [];
    }
    CallbacksAreCallbacks(env, prompt);
    outcome, errors := iface.Trigger(OnProcess, env, prompt, Callbacks(env, prompt));
  }

  /**
   * With the window's plugins, processing keeps a protected template view:
   * its old records stay, in order, at the front of the view, and the
   * protected set is unchanged.
   */
  lemma ProcessKeepsTemplate(s: StoreState, env: Env, prompt: string -> Reply)
    requires Wellformed(s) && s.protected.Some? && TemplateApi in s.protected.value && TemplateApi in s.views
    ensures var t := ProcessRun(s, env, prompt, StartKinds).state;
      TemplateApi in t.views && s.views[TemplateApi] <= t.views[TemplateApi] && t.protected == s.protected
  {
    ClearedWellformed(s, false);
    var c := Cleared(s, false).value;
    StartFired(OnProcess);
    var ps := Fired(StartKinds, OnProcess);
    CallbacksKeepWellformed(env, prompt);
    CallbacksAppendsGrow(env, prompt);
    FiredRunGrows(Callbacks(env, prompt), c, ps);
    assert ViewOf(c, TemplateApi) == s.views[TemplateApi];
  }

  /** What `_save_tables_cb` writes once a file is chosen. */
  datatype SaveAction = NoSave | SaveRecords(records: seq<Record>) | SaveBlankTemplate

  /** `_save_tables_cb` after its dialog: every record of every view, or a blank template when there is none. */
  function SaveChoice(s: StoreState, chosen: bool): (a: SaveAction)
    requires Wellformed(s)
    ensures a.SaveRecords? ==> a.records != []
  {
    if !chosen then NoSave
    else
      var records := AllRecords(s);
      if records != [] then SaveRecords(records) else SaveBlankTemplate
  }

  /** A chosen file gets a blank template exactly when the store has no view, and the records otherwise. */
  lemma SaveChoiceExact(s: StoreState, chosen: bool)
    requires Wellformed(s)
    ensures SaveChoice(s, chosen) == NoSave <==> !chosen
    ensures SaveChoice(s, chosen) == SaveBlankTemplate <==> chosen && s.keys == []
    ensures chosen && s.keys != [] ==> SaveChoice(s, chosen) == SaveRecords(AllRecords(s))
  {
    AllRecordsEmpty(s);
  }
}
