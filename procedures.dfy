/**
 * The output pipeline of `procedures.py`.  The two generators become
 * functions that build the sequence of records they yield: `yield_records`
 * yields the template record and then the results of six constructor calls,
 * stopping with one ErrorModel at the first constructor that raises;
 * `MakeRouteConfiguration` passes every such record through validation and
 * yields its validated copy, or else the record itself followed by one
 * ErrorModel per validation error.  `validate_record` is the `validate`
 * oracle of `Env`.
 */
module Procedures {
  import opened Py
  import opened Externals
  import opened Models

  /** The constructors `yield_records` runs, in order; MakeRoute runs twice. */
  const YieldMakers: seq<Maker> := [MakeRoute, MakeRoute, MakeDeparture, MakeSelection,
                                    MakeCustomerExtension, MakeCustomerExtensionExtended]

  /** The ErrorModel that `yield_records` yields when a constructor raises with message `msg`. */
  function YieldError(msg: string): Record
  {
    ErrorRecord("yield_records", "", msg)
  }

  /**
   * The records yielded by the constructors `ms` under one `try`: each one's
   * results in turn, until one raises; that one's results are followed by
   * the error record, and nothing after it.
   */
  function Constructed(env: Env, ms: seq<Maker>, r: Record): seq<Record>
  {
    if ms == [] then []
    else
      var o := env.make(ms[0], r);
      match o.raised
      case Some(msg) => o.outputs + [YieldError(msg)]
      case None => o.outputs + Constructed(env, ms[1..], r)
  }

  /** The results of the constructors `ms`, concatenated, with no exception handling. */
  function Outputs(env: Env, ms: seq<Maker>, r: Record): seq<Record>
  {
    if ms == [] then [] else env.make(ms[0], r).outputs + Outputs(env, ms[1..], r)
  }

  lemma OutputsCons(env: Env, m: Maker, ms: seq<Maker>, r: Record)
    ensures Outputs(env, [m] + ms, r) == env.make(m, r).outputs + Outputs(env, ms, r)
  {
    assert ([m] + ms)[1..] == ms;
  }

  /** No constructor among `ms` raises. */
  predicate NoneRaise(env: Env, ms: seq<Maker>, r: Record)
  {
    forall i :: 0 <= i < |ms| ==> env.make(ms[i], r).raised.None?
  }

  lemma NoneRaiseTail(env: Env, ms: seq<Maker>, r: Record)
    requires ms != [] && NoneRaise(env, ms, r)
    ensures NoneRaise(env, ms[1..], r)
  {
    forall i | 0 <= i < |ms| - 1
      ensures env.make(ms[1..][i], r).raised.None?
    {
      assert ms[1..][i] == ms[i + 1];
    }
  }

  /** `yield_records(record)`: the template record first, then what the constructors yield. */
  function YieldRecords(env: Env, r: Record): (out: seq<Record>)
    ensures |out| >= 1 && out[0] == r && out[1..] == Constructed(env, YieldMakers, r)
  {
    [r] + Constructed(env, YieldMakers, r)
  }

  /** When no constructor raises, the pipeline is the concatenation of their results. */
  lemma {:induction false} ConstructedNoRaise(env: Env, ms: seq<Maker>, r: Record)
    requires NoneRaise(env, ms, r)
    ensures Constructed(env, ms, r) == Outputs(env, ms, r)
  {
    if ms != [] {
      assert env.make(ms[0], r).raised.None?;
      NoneRaiseTail(env, ms, r);
      ConstructedNoRaise(env, ms[1..], r);
    }
  }

  /**
   * When the constructor at `i` is the first to raise, the pipeline is the
   * results of the constructors up to and including it, then exactly one
   * error record carrying its message, and nothing after it.
   */
  lemma {:induction false} ConstructedRaise(env: Env, ms: seq<Maker>, r: Record, i: nat)
    requires i < |ms| && NoneRaise(env, ms[..i], r) && env.make(ms[i], r).raised.Some?
    ensures Constructed(env, ms, r) == Outputs(env, ms[..i + 1], r) + [YieldError(env.make(ms[i], r).raised.value)]
  {
    if i == 0 {
      assert ms[..1][1..] == [];
    } else {
      assert env.make(ms[0], r).raised.None? by {
        assert ms[..i][0] == ms[0];
      }
      NoneRaiseTail(env, ms[..i], r);
      assert ms[..i][1..] == ms[1..][..i - 1];
      ConstructedRaise(env, ms[1..], r, i - 1);
      assert ms[..i + 1][1..] == ms[1..][..i];
    }
  }

  /**
   * When no constructor raises, `yield_records` yields the record, then the
   * results of MakeRoute twice, of MakeDeparture, MakeSelection,
   * MakeCustomerExtension and MakeCustomerExtensionExtended, in this order.
   */
  lemma YieldRecordsOrder(env: Env, r: Record)
    requires NoneRaise(env, YieldMakers, r)
    ensures YieldRecords(env, r) == [r] + env.make(MakeRoute, r).outputs + env.make(MakeRoute, r).outputs
      + env.make(MakeDeparture, r).outputs + env.make(MakeSelection, r).outputs
      + env.make(MakeCustomerExtension, r).outputs + env.make(MakeCustomerExtensionExtended, r).outputs
  {
    ConstructedNoRaise(env, YieldMakers, r);
    var o := (m: Maker) => env.make(m, r).outputs;
    var t5 := [MakeCustomerExtensionExtended];
    var t4 := [MakeCustomerExtension] + t5;
    var t3 := [MakeSelection] + t4;
    var t2 := [MakeDeparture] + t3;
    var t1 := [MakeRoute] + t2;
    assert YieldMakers == [MakeRoute] + t1;
    assert Outputs(env, t5, r) == o(MakeCustomerExtensionExtended) by {
      assert t5[1..] == [];
    }
    OutputsCons(env, MakeCustomerExtension, t5, r);
    OutputsCons(env, MakeSelection, t4, r);
    OutputsCons(env, MakeDeparture, t3, r);
    OutputsCons(env, MakeRoute, t2, r);
    OutputsCons(env, MakeRoute, t1, r);
  }

  /**
   * When the constructor at position `i` of the list is the first to raise,
   * `yield_records` ends with exactly one error record from `yield_records`,
   * after the results of the constructors up to and including it.
   */
  lemma YieldRecordsRaise(env: Env, r: Record, i: nat)
    requires i < |YieldMakers| && NoneRaise(env, YieldMakers[..i], r) && env.make(YieldMakers[i], r).raised.Some?
    ensures YieldRecords(env, r) == [r] + Outputs(env, YieldMakers[..i + 1], r)
      + [ErrorRecord("yield_records", "", env.make(YieldMakers[i], r).raised.value)]
  {
    ConstructedRaise(env, YieldMakers, r, i);
  }

  // ---------------------------------------------------------------------------
  // MakeRouteConfiguration

  /**
   * The message of the ErrorModel for validation error `e`, as evidently
   * intended: the error's `msg` and `type`, then the template record's value
   * of the failing field when it has that field.
   */
  function ErrorMessage(record: Record, e: FieldError): (m: string)
    ensures e.loc[0] in record.fields ==> m == e.msg + " " + e.kind + Str(record.fields[e.loc[0]])
    ensures e.loc[0] !in record.fields ==> m == e.msg + " " + e.kind
  {
    e.msg + " " + e.kind + (if e.loc[0] in record.fields then Str(record.fields[e.loc[0]]) else "")
  }

  /**
   * The message as written: the conditional expression binds looser than
   * `+`, so the whole message is empty when the record lacks the field.
   */
  function ErrorMessageAsWritten(record: Record, e: FieldError): string
  {
    if e.loc[0] in record.fields then e.msg + " " + e.kind + Str(record.fields[e.loc[0]]) else ""
  }

  /** The two messages agree exactly when the template record has the failing field. */
  lemma ErrorMessageAsWrittenDiffers(record: Record, e: FieldError)
    ensures ErrorMessageAsWritten(record, e) == ErrorMessage(record, e) <==> e.loc[0] in record.fields
    ensures e.loc[0] !in record.fields ==> ErrorMessageAsWritten(record, e) == ""
  {
    if e.loc[0] !in record.fields {
      assert |ErrorMessage(record, e)| > 0;
    }
  }

  /** A template with no ROUT attribute whose ROUT is reported missing gets an empty message as written. */
  lemma ErrorMessageAsWrittenExample()
    ensures ErrorMessageAsWritten(Record("TEMPLATE_V3", map[]), FieldError(["ROUT"], "field required", "value_error.missing")) == ""
    ensures ErrorMessage(Record("TEMPLATE_V3", map[]), FieldError(["ROUT"], "field required", "value_error.missing")) != ""
  {
    ErrorMessageAsWrittenDiffers(Record("TEMPLATE_V3", map[]), FieldError(["ROUT"], "field required", "value_error.missing"));
  }

  /** The ErrorModel for validation error `e` of output `o`: its source is the output's `_api`, its field the joined `loc`. */
  function FieldErrorRecord(record: Record, o: Record, e: FieldError): (t: Record)
    ensures t.api == ValidationApi
    ensures AttrOr(t, "source", Null) == Text(o.api) && AttrOr(t, "field", Null) == Text(Join(", ", e.loc))
    ensures AttrOr(t, "message", Null) == Text(ErrorMessage(record, e))
  {
    ErrorRecord(o.api, Join(", ", e.loc), ErrorMessage(record, e))
  }

  /** What one yielded output becomes: its validated copy, or itself followed by one ErrorModel per error. */
  function Emitted(env: Env, record: Record, o: Record): seq<Record>
  {
    match env.validate(o)
    case Valid(c) => [c]
    case Invalid(errs) => [o] + seq(|errs|, j requires 0 <= j < |errs| => FieldErrorRecord(record, o, errs[j]))
  }

  /**
   * An output that validates becomes its validated copy alone; one that
   * fails stays as it is and is followed by one ErrorModel per error, in
   * the order of the errors.
   */
  lemma EmittedExact(env: Env, record: Record, o: Record)
    ensures env.validate(o).Valid? ==> Emitted(env, record, o) == [env.validate(o).copy]
    ensures env.validate(o).Invalid? ==>
      var out := Emitted(env, record, o);
      && |out| == 1 + |env.validate(o).errors| && out[0] == o
      && forall j :: 0 <= j < |env.validate(o).errors| ==> out[1 + j] == FieldErrorRecord(record, o, env.validate(o).errors[j])
  {
    if env.validate(o).Invalid? {
      var errs := env.validate(o).errors;
      var tail := seq(|errs|, j requires 0 <= j < |errs| => FieldErrorRecord(record, o, errs[j]));
      assert Emitted(env, record, o) == [o] + tail;
    }
  }

  /** The records `MakeRouteConfiguration` yields for the outputs `outs`, output after output. */
  function Configured(env: Env, record: Record, outs: seq<Record>): seq<Record>
  {
    if outs == [] then [] else Emitted(env, record, outs[0]) + Configured(env, record, outs[1..])
  }

  /**
   * `MakeRouteConfiguration(record)`, on the copy of the record (a value
   * here, so the caller's record is untouched): it begins with what the
   * template record itself becomes, then the configured constructor outputs.
   */
  function MakeRouteConfiguration(env: Env, record: Record): (out: seq<Record>)
    ensures out == Emitted(env, record, record) + Configured(env, record, Constructed(env, YieldMakers, record))
    ensures |out| == |YieldRecords(env, record)| + ErrorTotal(env, YieldRecords(env, record))
    ensures (forall j :: 0 <= j < |YieldRecords(env, record)| ==> env.validate(YieldRecords(env, record)[j]).Valid?) ==>
      |out| == |YieldRecords(env, record)| &&
      forall j :: 0 <= j < |out| ==> out[j] == env.validate(YieldRecords(env, record)[j]).copy
  {
    var outs := YieldRecords(env, record);
    ConfiguredCount(env, record, outs);
    if forall j :: 0 <= j < |outs| ==> env.validate(outs[j]).Valid? then
      ConfiguredAllValid(env, record, outs);
      Configured(env, record, outs)
    else
      Configured(env, record, outs)
  }

  /** Configuring two runs of outputs configures each in turn. */
  lemma {:induction false} ConfiguredConcat(env: Env, record: Record, a: seq<Record>, b: seq<Record>)
    ensures Configured(env, record, a + b) == Configured(env, record, a) + Configured(env, record, b)
  {
    if a == [] {
      assert a + b == b;
    } else {
      assert (a + b)[0] == a[0];
      assert (a + b)[1..] == a[1..] + b;
      ConfiguredConcat(env, record, a[1..], b);
      assert Configured(env, record, a + b) == Emitted(env, record, a[0]) + Configured(env, record, a[1..] + b);
    }
  }

  /** The number of validation errors of the outputs `outs`. */
  function ErrorTotal(env: Env, outs: seq<Record>): nat
  {
    if outs == [] then 0
    else (match env.validate(outs[0]) case Valid(_) => 0 case Invalid(errs) => |errs|) + ErrorTotal(env, outs[1..])
  }

  /** Every output yields one record, plus one per validation error. */
  lemma {:induction false} ConfiguredCount(env: Env, record: Record, outs: seq<Record>)
    ensures |Configured(env, record, outs)| == |outs| + ErrorTotal(env, outs)
  {
    if outs != [] {
      ConfiguredCount(env, record, outs[1..]);
    }
  }

  /** When every output validates, the configuration is the outputs' validated copies, position by position. */
  lemma {:induction false} ConfiguredAllValid(env: Env, record: Record, outs: seq<Record>)
    requires forall j :: 0 <= j < |outs| ==> env.validate(outs[j]).Valid?
    ensures |Configured(env, record, outs)| == |outs|
    ensures forall j :: 0 <= j < |outs| ==> Configured(env, record, outs)[j] == env.validate(outs[j]).copy
  {
    if outs != [] {
      assert forall j :: 0 <= j < |outs[1..]| ==> outs[1..][j] == outs[j + 1];
      ConfiguredAllValid(env, record, outs[1..]);
    }
  }
}
