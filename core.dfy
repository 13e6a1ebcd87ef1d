/**
 * The plugins of `plugins/core.py`: route assignment, the five constructor
 * plugins built by `make_plugin_factory`, and validation.  A plugin is
 * identified by its class (`Kind`); its buttons, triggers and `enabled`
 * flag are functions of that class, and the `main` it runs is a
 * `Procedure`.  Each `main` calls the plugin interface, whose record
 * operations are those of the controller, so each is a method on the
 * controller proved against a function that says what running it does.
 */
module CorePlugins {
  import opened Py
  import opened Externals
  import opened Models
  import opened Store
  import opened PluginBase

  /** The bound `main` methods that buttons and triggers call back. */
  datatype Procedure = AssignRoutesMain | MakeMain(maker: Maker) | ValidateMain

  /**
   * The class of a plugin object: the `Plugin` base class, `AssignRoutes`,
   * a class made by `make_plugin_factory(maker, enable)`, or `ValidatePlugin`.
   */
  datatype Kind = BasePlugin | AssignRoutesPlugin | MakePlugin(maker: Maker, enable: bool) | ValidatePlugin

  /**
   * `make_plugin_factory(make_function, enable=True)`: a plugin class with no
   * buttons, one ON_PROCESS trigger calling its own `main`, and `enabled` as
   * given.
   */
  function MakePluginFactory(maker: Maker, enable: bool): (k: Kind)
    ensures Buttons(k) == []
    ensures Triggers(k) == [Trigger(OnProcess, MakeMain(maker))]
    ensures Enabled(k) == enable
  {
    MakePlugin(maker, enable)
  }

  /** The five plugin classes the module builds, all enabled. */
  const FactoryPlugins: seq<Kind> := [
    MakePluginFactory(MakeRoute, true),
    MakePluginFactory(MakeDeparture, true),
    MakePluginFactory(MakeSelection, true),
    MakePluginFactory(MakeCustomerExtension, true),
    MakePluginFactory(MakeCustomerExtensionExtended, true)]

  /**
   * `buttons()`: none by default and none for a made class; one button each
   * for `AssignRoutes` and `ValidatePlugin`, calling their `main`.
   */
  function Buttons(k: Kind): (b: seq<Button<Procedure>>)
    ensures |b| <= 1
    ensures b == [] <==> k.BasePlugin? || k.MakePlugin?
    ensures k.AssignRoutesPlugin? ==> b == [Button("Assign Routes", AssignRoutesMain)]
    ensures k.ValidatePlugin? ==> b == [Button("Validate", ValidateMain)]
  {
    match k
    case AssignRoutesPlugin => [Button("Assign Routes", AssignRoutesMain)]
    case ValidatePlugin => [Button("Validate", ValidateMain)]
    case _ => []
  }

  /**
   * `triggers()`: none by default; a made class has exactly one trigger, on
   * ON_PROCESS, calling its own `main`.
   */
  function Triggers(k: Kind): (t: seq<Trigger<Procedure>>)
    ensures forall i :: 0 <= i < |t| ==> t[i].event == OnProcess && t[i].callback.MakeMain?
    ensures k.MakePlugin? ==> t == [Trigger(OnProcess, MakeMain(k.maker))]
    ensures !k.MakePlugin? ==> t == []
  {
    if k.MakePlugin? then [Trigger(OnProcess, MakeMain(k.maker))] else []
  }

  /** `enabled`: False by default, the `enable` argument for a made class, True otherwise. */
  function Enabled(k: Kind): (e: bool)
    ensures k.BasePlugin? ==> !e
    ensures k.MakePlugin? ==> e == k.enable
    ensures k.AssignRoutesPlugin? || k.ValidatePlugin? ==> e
  {
    match k
    case BasePlugin => false
    case MakePlugin(_, enable) => enable
    case _ => true
  }

  /** What running one `main` does: whether it raises, the store after it, and the error prompts it shows. */
  datatype Run = Run(outcome: Answer<()>, state: StoreState, errors: seq<string>)

  /** The view every procedure reads its template rows from. */
  const TemplateApi: string := "TEMPLATE_V3"

  // ---------------------------------------------------------------------------
  // AssignRoutes

  const Rout: string := "ROUT"

  /** `not getattr(record, 'ROUT', None)`: the record has no route yet. */
  predicate Unrouted(r: Record)
  {
    Falsy(AttrOr(r, Rout, Null))
  }

  /** The indexes of the records that have no route, in ascending order. */
  function Pending(rs: seq<Record>): (p: seq<nat>)
    ensures |p| <= |rs|
    ensures forall j :: 0 <= j < |p| ==> p[j] < |rs|
  {
    if rs == [] then []
    else Pending(rs[..|rs| - 1]) + (if Unrouted(rs[|rs| - 1]) then [|rs| - 1] else [])
  }

  /**
   * `Pending` lists exactly the records that have no route, each once, in
   * ascending order.
   */
  lemma {:induction false} PendingExact(rs: seq<Record>)
    ensures forall j :: 0 <= j < |Pending(rs)| ==> Pending(rs)[j] < |rs| && Unrouted(rs[Pending(rs)[j]])
    ensures forall j, j' :: 0 <= j < j' < |Pending(rs)| ==> Pending(rs)[j] < Pending(rs)[j']
    ensures forall i :: 0 <= i < |rs| && Unrouted(rs[i]) ==> i in Pending(rs)
  {
    if rs != [] {
      var front := rs[..|rs| - 1];
      PendingExact(front);
      assert forall i :: 0 <= i < |front| ==> front[i] == rs[i];
    }
  }

  /** Python's `zip(a, b)`: pairs up to the shorter of the two. */
  function Zip<A, B>(a: seq<A>, b: seq<B>): (z: seq<(A, B)>)
    ensures |z| == if |a| <= |b| then |a| else |b|
    ensures forall j :: 0 <= j < |z| ==> z[j] == (a[j], b[j])
  {
    var n := if |a| <= |b| then |a| else |b|;
    seq(n, j requires 0 <= j < n => (a[j], b[j]))
  }

  /** `setattr(record, 'ROUT', route)`. */
  function Routed(r: Record, route: string): (t: Record)
    ensures t.api == r.api && AttrOr(t, Rout, Null) == Text(route)
    ensures Unrouted(t) <==> route == ""
    ensures forall k :: k != Rout && k in r.fields ==> k in t.fields && t.fields[k] == r.fields[k]
  {
    SetAttr(r, Rout, Text(route))
  }

  /** The records `rs` after writing each `(index, route)` of `pairs` back at `index`, in order. */
  function Assign(rs: seq<Record>, pairs: seq<(nat, string)>): (t: seq<Record>)
    requires forall j :: 0 <= j < |pairs| ==> pairs[j].0 < |rs|
    ensures |t| == |rs|
  {
    if pairs == [] then rs
    else
      var last := pairs[|pairs| - 1];
      Assign(rs, pairs[..|pairs| - 1])[last.0 := Routed(rs[last.0], last.1)]
  }

  lemma {:induction false} AssignAt(rs: seq<Record>, pairs: seq<(nat, string)>, j: nat)
    requires forall j :: 0 <= j < |pairs| ==> pairs[j].0 < |rs|
    requires forall j, j' :: 0 <= j < j' < |pairs| ==> pairs[j].0 != pairs[j'].0
    requires j < |pairs|
    ensures Assign(rs, pairs)[pairs[j].0] == Routed(rs[pairs[j].0], pairs[j].1)
  {
    if j < |pairs| - 1 {
      AssignAt(rs, pairs[..|pairs| - 1], j);
    }
  }

  lemma {:induction false} AssignElsewhere(rs: seq<Record>, pairs: seq<(nat, string)>, i: nat)
    requires forall j :: 0 <= j < |pairs| ==> pairs[j].0 < |rs|
    requires i < |rs| && forall j :: 0 <= j < |pairs| ==> pairs[j].0 != i
    ensures Assign(rs, pairs)[i] == rs[i]
  {
    if pairs != [] {
      AssignElsewhere(rs, pairs[..|pairs| - 1], i);
    }
  }

  /** The records after `AssignRoutes.main` pairs the unrouted ones with `routes`. */
  function AssignedRoutes(rs: seq<Record>, routes: seq<string>): (t: seq<Record>)
    ensures |t| == |rs|
  {
    PendingExact(rs);
    Assign(rs, Zip(Pending(rs), routes))
  }

  /**
   * Route assignment touches only unrouted records: the j-th of them gets
   * the j-th route while routes last, the rest of them and every record that
   * already has a route keep what they had.
   */
  lemma AssignedRoutesExact(rs: seq<Record>, routes: seq<string>)
    ensures forall i :: 0 <= i < |rs| && !Unrouted(rs[i]) ==> AssignedRoutes(rs, routes)[i] == rs[i]
    ensures forall j :: 0 <= j < |Pending(rs)| && j < |routes| ==>
      AssignedRoutes(rs, routes)[Pending(rs)[j]] == Routed(rs[Pending(rs)[j]], routes[j])
    ensures forall j :: |routes| <= j < |Pending(rs)| ==> AssignedRoutes(rs, routes)[Pending(rs)[j]] == rs[Pending(rs)[j]]
  {
    PendingExact(rs);
    var p := Pending(rs);
    var z := Zip(p, routes);
    forall i | 0 <= i < |rs| && !Unrouted(rs[i])
      ensures AssignedRoutes(rs, routes)[i] == rs[i]
    {
      AssignElsewhere(rs, z, i);
    }
    forall j | 0 <= j < |p| && j < |routes|
      ensures AssignedRoutes(rs, routes)[p[j]] == Routed(rs[p[j]], routes[j])
    {
      AssignAt(rs, z, j);
    }
    forall j | |routes| <= j < |p|
      ensures AssignedRoutes(rs, routes)[p[j]] == rs[p[j]]
    {
      forall j' | 0 <= j' < |z| ensures z[j'].0 != p[j] {
        assert j' < j;
      }
      AssignElsewhere(rs, z, p[j]);
    }
  }

  /** With enough non-empty routes, a second assignment finds nothing left to assign. */
  lemma AssignedRoutesComplete(rs: seq<Record>, routes: seq<string>)
    requires |Pending(rs)| <= |routes|
    requires forall j :: 0 <= j < |routes| ==> routes[j] != ""
    ensures Pending(AssignedRoutes(rs, routes)) == []
  {
    var t := AssignedRoutes(rs, routes);
    AssignedRoutesExact(rs, routes);
    PendingExact(rs);
    forall i | 0 <= i < |t| ensures !Unrouted(t[i]) {
      if Unrouted(rs[i]) {
        var j :| 0 <= j < |Pending(rs)| && Pending(rs)[j] == i;
        assert t[i] == Routed(rs[i], routes[j]);
      }
    }
    PendingNone(t);
  }

  lemma {:induction false} PendingNone(rs: seq<Record>)
    requires forall i :: 0 <= i < |rs| ==> !Unrouted(rs[i])
    ensures Pending(rs) == []
  {
    if rs != [] {
      PendingNone(rs[..|rs| - 1]);
    }
  }

  /** `[r.ROUT for r in records]`, or None when some record has no ROUT attribute. */
  function RoutValues(rs: seq<Record>): (vs: Option<seq<Value>>)
    ensures vs.Some? <==> forall i :: 0 <= i < |rs| ==> Rout in rs[i].fields
    ensures vs.Some? ==> |vs.value| == |rs| && forall i :: 0 <= i < |rs| ==> vs.value[i] == rs[i].fields[Rout]
  {
    if rs == [] then Some([])
    else
      var front := RoutValues(rs[..|rs| - 1]);
      var last := rs[|rs| - 1];
      if front.Some? && Rout in last.fields then Some(front.value + [last.fields[Rout]])
      else None
  }

  /** `filter(RouteSequence.is_valid_str, vs)`; None is not a valid route string. */
  function ValidRoutes(vs: seq<Value>, env: Env): (c: seq<string>)
    ensures forall x :: x in c <==> Text(x) in vs && env.validRoute(x)
  {
    if vs == [] then []
    else
      var front := ValidRoutes(vs[..|vs| - 1], env);
      var last := vs[|vs| - 1];
      assert forall v :: v in vs <==> v in vs[..|vs| - 1] || v == last;
      front + (if last.Text? && env.validRoute(last.s) then [last.s] else [])
  }

  /**
   * The seed offered in the prompt: the successor of the greatest valid
   * route among the records; the empty string when a record has no ROUT,
   * when no route is valid, or when the successor cannot be formed.
   */
  function ProposedSeed(rs: seq<Record>, env: Env): (seed: string)
    ensures RoutValues(rs).None? ==> seed == ""
    ensures RoutValues(rs).Some? && ValidRoutes(RoutValues(rs).value, env) == [] ==> seed == ""
    ensures seed != "" ==> RoutValues(rs).Some?
    ensures seed != "" ==> exists m :: IsGreatest(m, ValidRoutes(RoutValues(rs).value, env)) && env.successor(m) == Some(seed)
  {
    match RoutValues(rs)
    case None => ""
    case Some(vs) =>
      var c := ValidRoutes(vs, env);
      if c == [] then ""
      else match env.successor(MaxStr(c))
        case None => ""
        case Some(next) => next
  }

  /** The seed is the successor of THE greatest valid route: any greatest one determines it. */
  lemma ProposedSeedOfGreatest(rs: seq<Record>, env: Env, m: string)
    requires RoutValues(rs).Some?
    requires IsGreatest(m, ValidRoutes(RoutValues(rs).value, env))
    ensures ProposedSeed(rs, env) == if env.successor(m).Some? then env.successor(m).value else ""
  {
    var c := ValidRoutes(RoutValues(rs).value, env);
    GreatestUnique(m, MaxStr(c), c);
  }

  /** What the user answers to the seed prompt: the text and whether OK was pressed. */
  datatype Reply = Reply(text: string, ok: bool)

  /** The message `prompt_error` shows for a confirmed seed that is not a route. */
  function InvalidSeedMessage(text: string): string
  {
    "Seed " + text + " is invalid"
  }

  /**
   * `AssignRoutes.main`: `list_records()` reads the first view (IndexError
   * when there is none), the user answers a prompt showing the proposed
   * seed, and a confirmed valid seed has routes assigned from its sequence.
   */
  function AssignRoutesRun(s: StoreState, env: Env, prompt: string -> Reply): Run
    requires Wellformed(s)
  {
    if s.keys == [] then Run(Raises(IndexError), s, [])
    else
      var rs := s.views[s.keys[0]];
      var reply := prompt(ProposedSeed(rs, env));
      if !env.validRoute(reply.text) && reply.ok then Run(Returns(()), s, [InvalidSeedMessage(reply.text)])
      else if reply.ok then
        Run(Returns(()), s.(views := s.views[s.keys[0] := AssignedRoutes(rs, env.routesFrom(reply.text))]), [])
      else Run(Returns(()), s, [])
  }

  /** The user's answer to the prompt that shows the seed proposed for the first view. */
  function SeedReply(s: StoreState, env: Env, prompt: string -> Reply): Reply
    requires Wellformed(s) && s.keys != []
  {
    prompt(ProposedSeed(s.views[s.keys[0]], env))
  }

  /**
   * Running `AssignRoutes.main`: with no view it raises IndexError and
   * changes nothing; a cancel changes nothing; a confirmed invalid seed
   * shows one error and changes nothing; a confirmed valid seed changes only
   * the first view, to its records with routes assigned from the seed.
   */
  lemma AssignRoutesRunCases(s: StoreState, env: Env, prompt: string -> Reply)
    requires Wellformed(s)
    ensures s.keys == [] ==> AssignRoutesRun(s, env, prompt) == Run(Raises(IndexError), s, [])
    ensures s.keys != [] && !SeedReply(s, env, prompt).ok ==> AssignRoutesRun(s, env, prompt) == Run(Returns(()), s, [])
    ensures s.keys != [] && SeedReply(s, env, prompt).ok && !env.validRoute(SeedReply(s, env, prompt).text) ==>
      AssignRoutesRun(s, env, prompt) == Run(Returns(()), s, [InvalidSeedMessage(SeedReply(s, env, prompt).text)])
    ensures s.keys != [] && SeedReply(s, env, prompt).ok && env.validRoute(SeedReply(s, env, prompt).text) ==>
      var r := AssignRoutesRun(s, env, prompt);
      && r.outcome == Returns(()) && r.errors == []
      && r.state.keys == s.keys && r.state.protected == s.protected && r.state.views.Keys == s.views.Keys
      && (forall k :: k in s.views && k != s.keys[0] ==> r.state.views[k] == s.views[k])
      && r.state.views[s.keys[0]] == AssignedRoutes(s.views[s.keys[0]], env.routesFrom(SeedReply(s, env, prompt).text))
  {
  }

  /** Assigning routes keeps every record's `_api`. */
  lemma {:induction false} AssignKeepsApi(rs: seq<Record>, pairs: seq<(nat, string)>)
    requires forall j :: 0 <= j < |pairs| ==> pairs[j].0 < |rs|
    ensures forall i :: 0 <= i < |rs| ==> Assign(rs, pairs)[i].api == rs[i].api
  {
    if pairs != [] {
      AssignKeepsApi(rs, pairs[..|pairs| - 1]);
    }
  }

  /** `AssignRoutes.main` keeps the store well formed. */
  lemma AssignRoutesRunWellformed(s: StoreState, env: Env, prompt: string -> Reply)
    requires Wellformed(s)
    ensures Wellformed(AssignRoutesRun(s, env, prompt).state)
  {
    if s.keys != [] {
      var k := s.keys[0];
      var rs := s.views[k];
      var reply := SeedReply(s, env, prompt);
      if reply.ok && env.validRoute(reply.text) {
        var routes := env.routesFrom(reply.text);
        PendingExact(rs);
        var t := AssignedRoutes(rs, routes);
        AssignKeepsApi(rs, Zip(Pending(rs), routes));
        forall r | r in t ensures r.api == k {
          var i :| 0 <= i < |t| && t[i] == r;
          assert rs[i] in s.views[k];
        }
      }
    }
  }

  /** One write-back of the route loop replaces the next pending record of the first view. */
  lemma AssignStep(s: StoreState, k: string, rs: seq<Record>, pairs: seq<(nat, string)>, i: nat)
    requires Wellformed(s) && k in s.views && rs == s.views[k]
    requires forall j :: 0 <= j < |pairs| ==> pairs[j].0 < |rs|
    requires i < |pairs|
    ensures Updated(s.(views := s.views[k := Assign(rs, pairs[..i])]), pairs[i].0, Routed(rs[pairs[i].0], pairs[i].1))
      == Returns(s.(views := s.views[k := Assign(rs, pairs[..i + 1])]))
  {
    var index := pairs[i].0;
    var r := Routed(rs[index], pairs[i].1);
    var a := Assign(rs, pairs[..i]);
    assert r.api == k by {
      assert rs[index] in s.views[k];
    }
    AssignSnoc(rs, pairs, i);
    OverrideTwice(s.views, k, a, a[index := r]);
  }

  /** Overriding one key twice keeps only the second value. */
  lemma OverrideTwice<K, V>(m: map<K, V>, k: K, v: V, w: V)
    ensures m[k := v][k := w] == m[k := w]
  {
  }

  /** Extending the assigned prefix of pairs by one writes one more route. */
  lemma AssignSnoc(rs: seq<Record>, pairs: seq<(nat, string)>, i: nat)
    requires forall j :: 0 <= j < |pairs| ==> pairs[j].0 < |rs|
    requires i < |pairs|
    ensures Assign(rs, pairs[..i + 1]) == Assign(rs, pairs[..i])[pairs[i].0 := Routed(rs[pairs[i].0], pairs[i].1)]
  {
    assert pairs[..i + 1][..i] == pairs[..i];
  }

  /** `AssignRoutes.main`, writing each route back with `update_record(index, record)`. */
  method RunAssignRoutes(mvc: ModelViewController, env: Env, prompt: string -> Reply) returns (outcome: Answer<()>, errors: seq<string>)
    requires mvc.Valid()
    modifies mvc
    ensures mvc.Valid()
    ensures Run(outcome, mvc.State(), errors) == AssignRoutesRun(old(mvc.State()), env, prompt)
  {
    ghost var s0 := mvc.State();
    if mvc.keys == [] {
      return Raises(IndexError), [];
    }
    var k0 := mvc.keys[0];
    var records := mvc.views[k0];
    var reply := prompt(ProposedSeed(records, env));
    outcome, errors := Returns(()), [];
    if !env.validRoute(reply.text) && reply.ok {
      errors := [InvalidSeedMessage(reply.text)];
    } else if reply.ok {
      var pairs := Zip(Pending(records), env.routesFrom(reply.text));
      var i := 0;
      while i < |pairs|
        invariant 0 <= i <= |pairs|
        invariant mvc.Valid()
        invariant mvc.State() == s0.(views := s0.views[k0 := Assign(records, pairs[..i])])
      {
        var index, route := pairs[i].0, pairs[i].1;
        AssignStep(s0, k0, records, pairs, i);
        var updated := mvc.UpdateRecord(index, Routed(records[index], route));
        i := i + 1;
      }
      assert pairs[..i] == pairs;
    }
  }

  // ---------------------------------------------------------------------------
  // The classes made by make_plugin_factory

  /** The message of the error record for a row whose constructor raised `e`. */
  function RowMessage(index: nat, m: Maker, e: string): string
  {
    "Error processing row " + NatToString(index) + "; " + MakerName(m) + "; " + e
  }

  /** The row number can be read back from the message, just after "Error processing row ". */
  lemma RowMessageNamesRow(index: nat, m: Maker, e: string)
    ensures RowMessage(index, m, e)[..21] == "Error processing row "
    ensures DigitsValue(LeadingDigits(RowMessage(index, m, e)[21..])) == index
  {
    var rest := "; " + MakerName(m) + "; " + e;
    assert RowMessage(index, m, e) == "Error processing row " + NatToString(index) + rest;
    DigitsReadBack("Error processing row ", index, rest);
  }

  /**
   * What one template row adds: every result of the constructor, as its
   * validated copy or else unvalidated; if the constructor raised, one error
   * record naming the row, after the results it yielded first.
   */
  function RowOutputs(env: Env, m: Maker, index: nat, r: Record): (out: seq<Record>)
    ensures |out| == |env.make(m, r).outputs| + (if env.make(m, r).raised.Some? then 1 else 0)
    ensures forall j :: 0 <= j < |env.make(m, r).outputs| ==> out[j] == Revalidated(env, env.make(m, r).outputs[j])
    ensures env.make(m, r).raised.Some? ==> out[|out| - 1] == SimpleErrorRecord(RowMessage(index, m, env.make(m, r).raised.value))
  {
    var o := env.make(m, r);
    seq(|o.outputs|, j requires 0 <= j < |o.outputs| => Revalidated(env, o.outputs[j]))
      + (if o.raised.Some? then [SimpleErrorRecord(RowMessage(index, m, o.raised.value))] else [])
  }

  /** The records appended for the template rows `rs`, row after row. */
  function MadeRecords(env: Env, m: Maker, rs: seq<Record>): seq<Record>
  {
    if rs == [] then [] else MadeRecords(env, m, rs[..|rs| - 1]) + RowOutputs(env, m, |rs| - 1, rs[|rs| - 1])
  }

  /** Each row's records follow those of the rows before it. */
  lemma {:induction false} MadeRecordsConcat(env: Env, m: Maker, a: seq<Record>, b: Record)
    ensures MadeRecords(env, m, a + [b]) == MadeRecords(env, m, a) + RowOutputs(env, m, |a|, b)
  {
    assert (a + [b])[..|a|] == a;
  }

  /**
   * The `main` of a made class: ValueError when there is no TEMPLATE_V3
   * view; otherwise the records made from its rows are appended.
   */
  function MakeRun(s: StoreState, env: Env, m: Maker): Run
    requires Wellformed(s)
  {
    if TemplateApi !in s.views then Run(Raises(ValueError), s, [])
    else Run(Returns(()), AppendAll(s, MadeRecords(env, m, s.views[TemplateApi])), [])
  }

  /**
   * Running a made class's `main` raises ValueError, changing nothing,
   * exactly when there is no TEMPLATE_V3 view; otherwise every view is its
   * old records followed by the made records of its name, and nothing else
   * changes.
   */
  lemma MakeRunViews(s: StoreState, env: Env, m: Maker)
    requires Wellformed(s)
    ensures MakeRun(s, env, m).outcome.Raises? <==> TemplateApi !in s.views
    ensures TemplateApi !in s.views ==> MakeRun(s, env, m) == Run(Raises(ValueError), s, [])
    ensures TemplateApi in s.views ==>
      var t := MakeRun(s, env, m).state;
      var made := MadeRecords(env, m, s.views[TemplateApi]);
      && Wellformed(t) && s.keys <= t.keys && t.protected == s.protected
      && (forall k :: ViewOf(t, k) == ViewOf(s, k) + OfApi(made, k))
  {
    if TemplateApi in s.views {
      AppendAllViews(s, MadeRecords(env, m, s.views[TemplateApi]));
    }
  }

  /**
   * The `try` block for one template row: append each result of the
   * constructor, then the error record if it raised.
   */
  method MakeRow(mvc: ModelViewController, env: Env, m: Maker, index: nat, record: Record)
    requires mvc.Valid()
    modifies mvc
    ensures mvc.Valid()
    ensures mvc.State() == AppendAll(old(mvc.State()), RowOutputs(env, m, index, record))
  {
    ghost var s0 := mvc.State();
    ghost var row := RowOutputs(env, m, index, record);
    var o := env.make(m, record);
    var j := 0;
    while j < |o.outputs|
      invariant 0 <= j <= |o.outputs|
      invariant mvc.Valid()
      invariant mvc.State() == AppendAll(s0, row[..j])
    {
      TakeSnoc(row, j);
      AppendAllSnoc(s0, row[..j], row[j]);
      mvc.AppendRecord(Revalidated(env, o.outputs[j]));
      j := j + 1;
    }
    TakeAll(row);
    if o.raised.Some? {
      TakeSnoc(row, j);
      AppendAllSnoc(s0, row[..j], row[j]);
      mvc.AppendRecord(SimpleErrorRecord(RowMessage(index, m, o.raised.value)));
    }
  }

  /** The `main` of the class made from `m`, appending record by record. */
  method RunMake(mvc: ModelViewController, env: Env, m: Maker) returns (outcome: Answer<()>)
    requires mvc.Valid()
    modifies mvc
    ensures mvc.Valid()
    ensures Run(outcome, mvc.State(), []) == MakeRun(old(mvc.State()), env, m)
  {
    ghost var s0 := mvc.State();
    if TemplateApi !in mvc.views {
      return Raises(ValueError);
    }
    var records := mvc.views[TemplateApi];
    var index := 0;
    while index < |records|
      invariant 0 <= index <= |records|
      invariant mvc.Valid()
      invariant mvc.State() == AppendAll(s0, MadeRecords(env, m, records[..index]))
    {
      ghost var before := MadeRecords(env, m, records[..index]);
      MakeRow(mvc, env, m, index, records[index]);
      AppendAllConcat(s0, before, RowOutputs(env, m, index, records[index]));
      TakeSnoc(records, index);
      MadeRecordsConcat(env, m, records[..index], records[index]);
      index := index + 1;
    }
    TakeAll(records);
    outcome := Returns(());
  }

  // ---------------------------------------------------------------------------
  // ValidatePlugin

  /** The message for one validation error of the record listed at line `n`. */
  function ValidationLine(r: Record, n: nat, e: FieldError): string
  {
    "[" + r.api + "] (Line " + NatToString(n) + ValidationDetail(r, e)
  }

  /** What the message says after the line number: the field, its value and the error's text. */
  function ValidationDetail(r: Record, e: FieldError): string
  {
    ")   " + e.loc[0] + " = " + Str(AttrOr(r, e.loc[0], Null)) + "   " + e.msg
  }

  /** The message starts with the bracketed `_api`, and the line number can be read back after it. */
  lemma ValidationLineNamesLine(r: Record, n: nat, e: FieldError)
    ensures ValidationLine(r, n, e)[..|r.api| + 2] == "[" + r.api + "]"
    ensures DigitsValue(LeadingDigits(ValidationLine(r, n, e)[|r.api| + 9..])) == n
  {
    ValidationLineDigits(r, n, e);
  }

  lemma ValidationLineDigits(r: Record, n: nat, e: FieldError)
    ensures DigitsValue(LeadingDigits(ValidationLine(r, n, e)[|r.api| + 9..])) == n
  {
    var rest := ValidationDetail(r, e);
    assert rest[0] == ')';
    DigitsReadBack("[" + r.api + "] (Line ", n, rest);
  }

  /** The records validation appends for the record listed at line `n`: none if it validates, one per error otherwise. */
  function ErrorsOf(env: Env, n: nat, r: Record): (out: seq<Record>)
    ensures env.validate(r).Valid? ==> out == []
    ensures env.validate(r).Invalid? ==> |out| == |env.validate(r).errors|
    ensures env.validate(r).Invalid? ==>
      forall j :: 0 <= j < |out| ==> out[j] == env.validationRecord(ValidationLine(r, n, env.validate(r).errors[j]))
  {
    match env.validate(r)
    case Valid(_) => []
    case Invalid(errs) => seq(|errs|, j requires 0 <= j < |errs| => env.validationRecord(ValidationLine(r, n, errs[j])))
  }

  /** The records validation appends for the listed pairs, pair after pair. */
  function ValidationRecords(env: Env, pairs: seq<(nat, Record)>): seq<Record>
  {
    if pairs == [] then []
    else ValidationRecords(env, pairs[..|pairs| - 1]) + ErrorsOf(env, pairs[|pairs| - 1].0, pairs[|pairs| - 1].1)
  }

  /** Records that validate add nothing. */
  lemma {:induction false} ValidationRecordsOfValid(env: Env, pairs: seq<(nat, Record)>)
    requires forall j :: 0 <= j < |pairs| ==> env.validate(pairs[j].1).Valid?
    ensures ValidationRecords(env, pairs) == []
  {
    if pairs != [] {
      ValidationRecordsOfValid(env, pairs[..|pairs| - 1]);
    }
  }

  /** The number of validation errors of the listed records. */
  function ErrorCount(env: Env, pairs: seq<(nat, Record)>): nat
  {
    if pairs == [] then 0
    else
      var r := pairs[|pairs| - 1].1;
      ErrorCount(env, pairs[..|pairs| - 1]) + (if env.validate(r).Invalid? then |env.validate(r).errors| else 0)
  }

  /** Exactly one record is appended per validation error. */
  lemma {:induction false} ValidationRecordsCount(env: Env, pairs: seq<(nat, Record)>)
    ensures |ValidationRecords(env, pairs)| == ErrorCount(env, pairs)
  {
    if pairs != [] {
      ValidationRecordsCount(env, pairs[..|pairs| - 1]);
    }
  }

  /**
   * `ValidatePlugin.main`: every record of every view, listed with its index
   * in its view, is validated, and one message record per error is
   * appended.  Nothing in it raises, so it never shows an error prompt.
   */
  function ValidateRun(s: StoreState, env: Env): Run
    requires Wellformed(s)
  {
    Run(Returns(()), AppendAll(s, ValidationRecords(env, ListAllRecords(s))), [])
  }

  /**
   * After validation every view is its old records followed by the messages
   * carrying its name; a store whose records all validate is unchanged.
   */
  lemma ValidateRunViews(s: StoreState, env: Env)
    requires Wellformed(s)
    ensures ValidateRun(s, env).outcome == Returns(()) && ValidateRun(s, env).errors == []
    ensures var t := ValidateRun(s, env).state;
      && Wellformed(t) && s.keys <= t.keys && t.protected == s.protected
      && (forall k :: ViewOf(t, k) == ViewOf(s, k) + OfApi(ValidationRecords(env, ListAllRecords(s)), k))
    ensures (forall k, i :: k in s.views && 0 <= i < |s.views[k]| ==> env.validate(s.views[k][i]).Valid?) ==>
      ValidateRun(s, env).state == s
  {
    var pairs := ListAllRecords(s);
    AppendAllViews(s, ValidationRecords(env, pairs));
    if forall k, i :: k in s.views && 0 <= i < |s.views[k]| ==> env.validate(s.views[k][i]).Valid? {
      ListAllRecordsExact(s);
      forall j | 0 <= j < |pairs| ensures env.validate(pairs[j].1).Valid? {
        assert pairs[j] in pairs;
      }
      ValidationRecordsOfValid(env, pairs);
    }
  }

  /** The `except ValidationError` block for one listed record: one message per error. */
  method ValidateOne(mvc: ModelViewController, env: Env, n: nat, record: Record)
    requires mvc.Valid()
    modifies mvc
    ensures mvc.Valid()
    ensures mvc.State() == AppendAll(old(mvc.State()), ErrorsOf(env, n, record))
  {
    ghost var s0 := mvc.State();
    ghost var added := ErrorsOf(env, n, record);
    match env.validate(record) {
      case Valid(_) =>
      case Invalid(errs) =>
        var j := 0;
        while j < |errs|
          invariant 0 <= j <= |errs|
          invariant mvc.Valid()
          invariant mvc.State() == AppendAll(s0, added[..j])
        {
          TakeSnoc(added, j);
          AppendAllSnoc(s0, added[..j], added[j]);
          mvc.AppendRecord(env.validationRecord(ValidationLine(record, n, errs[j])));
          j := j + 1;
        }
        TakeAll(added);
    }
  }

  /** `ValidatePlugin.main`, validating the listed records one by one. */
  method RunValidate(mvc: ModelViewController, env: Env) returns (outcome: Answer<()>, errors: seq<string>)
    requires mvc.Valid()
    modifies mvc
    ensures mvc.Valid()
    ensures Run(outcome, mvc.State(), errors) == ValidateRun(old(mvc.State()), env)
  {
    ghost var s0 := mvc.State();
    var pairs := ListAllRecords(mvc.State());
    var i := 0;
    while i < |pairs|
      invariant 0 <= i <= |pairs|
      invariant mvc.Valid()
      invariant mvc.State() == AppendAll(s0, ValidationRecords(env, pairs[..i]))
    {
      var n, record := pairs[i].0, pairs[i].1;
      ghost var before := ValidationRecords(env, pairs[..i]);
      ValidateOne(mvc, env, n, record);
      AppendAllConcat(s0, before, ErrorsOf(env, n, record));
      TakeSnoc(pairs, i);
      i := i + 1;
    }
    TakeAll(pairs);
    outcome, errors := Returns(()), [];
  }
}
