/**
 * The external libraries the application calls, reduced to what the
 * application observes of them.  pydantic records become a `Record` value
 * (its `_api` name and its attributes); validation becomes a function from a
 * record to either a validated copy or a list of field errors; the
 * `many_more_routes` constructors become functions from a template record to
 * the outputs they yield before they (possibly) raise; `route_sequence`
 * becomes a validity predicate, a successor and an iterator.  These functions
 * are gathered in `Env` and passed to every operation that calls them.
 */
module Externals {
  import opened Py

  /** An attribute value as modelled: `None` or a `str` (numbers, dates and booleans are not modelled). */
  datatype Value = Null | Text(s: string)

  /** Python's `str(v)`. */
  function Str(v: Value): string
  {
    match v
    case Null => "None"
    case Text(s) => s
  }

  /** Python truthiness of an attribute value: `None` and `''` are false. */
  predicate Falsy(v: Value)
  {
    v == Null || v == Text("")
  }

  /**
   * A pydantic record: the private `_api` name that selects its view, and its
   * attributes by name.  An attribute that is not in `fields` is one that
   * `getattr` does not find.
   */
  datatype Record = Record(api: string, fields: map<string, Value>)

  /** Python's `getattr(record, name, default)`. */
  function AttrOr(r: Record, name: string, default: Value): (v: Value)
    ensures name in r.fields ==> v == r.fields[name]
    ensures name !in r.fields ==> v == default
  {
    if name in r.fields then r.fields[name] else default
  }

  /** Python's `setattr(record, name, v)`, as a new record value. */
  function SetAttr(r: Record, name: string, v: Value): (t: Record)
    ensures t.api == r.api
    ensures name in t.fields && t.fields[name] == v
    ensures forall k :: k != name ==> (k in t.fields <==> k in r.fields)
    ensures forall k :: k != name && k in r.fields ==> t.fields[k] == r.fields[k]
  {
    r.(fields := r.fields[name := v])
  }

  /** The property keys of a JSON schema, in order: `list(schema['properties'].keys())`. */
  datatype Schema = Schema(properties: seq<string>)

  /** pydantic's `loc` of an error: never empty. */
  type Loc = s: seq<string> | |s| > 0 witness [""]

  /** One entry of `ValidationError.errors()`: its `loc`, `msg` and `type`. */
  datatype FieldError = FieldError(loc: Loc, msg: string, kind: string)

  /**
   * What `type(r)(**r.dict())` does: it returns a validated copy, or raises
   * ValidationError carrying its errors.
   */
  datatype Validation = Valid(copy: Record) | Invalid(errors: seq<FieldError>)

  /** The five constructors of `many_more_routes.construct`. */
  datatype Maker = MakeRoute | MakeDeparture | MakeSelection | MakeCustomerExtension | MakeCustomerExtensionExtended

  /** The `__name__` of each constructor. */
  function MakerName(m: Maker): string
  {
    match m
    case MakeRoute => "MakeRoute"
    case MakeDeparture => "MakeDeparture"
    case MakeSelection => "MakeSelection"
    case MakeCustomerExtension => "MakeCustomerExtension"
    case MakeCustomerExtensionExtended => "MakeCustomerExtensionExtended"
  }

  /**
   * Iterating a constructor's result: the records it yields, and the message
   * of the exception it raises after them, if it raises.
   */
  datatype MakeOutcome = MakeOutcome(outputs: seq<Record>, raised: Option<string>)

  /** The external behaviour every operation is parameterised by. */
  datatype Env = Env(
    /** pydantic validation, `type(r)(**r.dict())` */
    validate: Record -> Validation,
    /** `r.schema()`, or None when it raises */
    schemaOf: Record -> Option<Schema>,
    /** `MakeRoute(r)` and its siblings */
    make: (Maker, Record) -> MakeOutcome,
    /** `RouteSequence.is_valid_str(s)` */
    validRoute: string -> bool,
    /** `str(RouteSequence(s) + 1)`, or None when it raises */
    successor: string -> Option<string>,
    /** the routes of `RouteSequence(s) - 1`, each as `str(route)`, in iteration order */
    routesFrom: string -> seq<string>,
    /** the `SimpleValidationModel(message=...)` record, whose class is not part of this model */
    validationRecord: string -> Record)

  /**
   * Validation keeps the record's class: `type(r)(**r.dict())` is again an
   * instance of `type(r)`, so the validated copy has `r`'s `_api`.
   */
  ghost predicate KeepsClass(env: Env)
  {
    forall r :: env.validate(r).Valid? ==> env.validate(r).copy.api == r.api
  }

  /**
   * `type(r)(**r.dict())`, falling back to `type(r).construct(**r.dict())`
   * (the same attributes, unvalidated) when validation fails.
   */
  function Revalidated(env: Env, r: Record): (t: Record)
    ensures env.validate(r).Valid? ==> t == env.validate(r).copy
    ensures env.validate(r).Invalid? ==> t == r
    ensures KeepsClass(env) ==> t.api == r.api
  {
    match env.validate(r)
    case Valid(c) => c
    case Invalid(_) => r
  }
}
