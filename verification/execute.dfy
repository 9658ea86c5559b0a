/** `ExecuteTestsParams`: the closed, immutable parameter record of the
    `execute_tests` tool and its validation from untyped arguments
    (`model_validate`). Field checks come first; the mutual exclusion of
    `failfast` and `maxfail` is a model-level check that runs only once every
    field has passed. */
module ExecuteParams {
  import opened Wrappers
  import opened Payload

  const ExclusiveDetail: string :=
    "Parameters 'failfast' and 'maxfail' are mutually exclusive. "
    + "Specify only one to control test execution stopping behavior."

  /** The declared fields, by name. */
  datatype ExecuteField = NodeIds | Markers | Keywords | Verbosity | Failfast | Maxfail | ShowCapture | Timeout

  /** The argument key of each field. */
  function Key(f: ExecuteField): string {
    match f
    case NodeIds => "node_ids"
    case Markers => "markers"
    case Keywords => "keywords"
    case Verbosity => "verbosity"
    case Failfast => "failfast"
    case Maxfail => "maxfail"
    case ShowCapture => "show_capture"
    case Timeout => "timeout"
  }

  /** The declared type and `ge`/`le` bounds of each field. */
  function TypeOf(f: ExecuteField): FieldType {
    match f
    case NodeIds => StrListField
    case Markers | Keywords => StrField
    case Verbosity => IntField(-2, Some(2))
    case Failfast | ShowCapture => BoolField
    case Maxfail | Timeout => IntField(1, None)
  }

  /** The closed schema: exactly the declared fields. */
  const ExecuteSchema: Schema := map[
    Key(NodeIds) := TypeOf(NodeIds),
    Key(Markers) := TypeOf(Markers),
    Key(Keywords) := TypeOf(Keywords),
    Key(Verbosity) := TypeOf(Verbosity),
    Key(Failfast) := TypeOf(Failfast),
    Key(Maxfail) := TypeOf(Maxfail),
    Key(ShowCapture) := TypeOf(ShowCapture),
    Key(Timeout) := TypeOf(Timeout)]

  lemma SchemaEntry(f: ExecuteField)
    ensures Key(f) in ExecuteSchema && ExecuteSchema[Key(f)] == TypeOf(f)
  {
  }

  /** Every declared key belongs to a field. */
  lemma KeyOf(k: string) returns (f: ExecuteField)
    requires k in ExecuteSchema
    ensures Key(f) == k
  {
    f :| Key(f) == k by {
      if k == "node_ids" { assert Key(NodeIds) == k; }
      else if k == "markers" { assert Key(Markers) == k; }
      else if k == "keywords" { assert Key(Keywords) == k; }
      else if k == "verbosity" { assert Key(Verbosity) == k; }
      else if k == "failfast" { assert Key(Failfast) == k; }
      else if k == "maxfail" { assert Key(Maxfail) == k; }
      else if k == "show_capture" { assert Key(ShowCapture) == k; }
      else { assert Key(Timeout) == k; }
    }
  }

  datatype ExecuteTestsParams = ExecuteTestsParams(
    nodeIds: Option<seq<string>>,
    markers: Option<string>,
    keywords: Option<string>,
    verbosity: Option<int>,
    failfast: Option<bool>,
    maxfail: Option<int>,
    showCapture: Option<bool>,
    timeout: Option<int>)
  {
    /** What a constructed record always satisfies. */
    predicate Valid() {
      && (verbosity.Some? ==> -2 <= verbosity.value <= 2)
      && (maxfail.Some? ==> maxfail.value >= 1)
      && (timeout.Some? ==> timeout.value >= 1)
      && !(failfast.Some? && maxfail.Some?)
    }

    /** A field as an argument value, null for `None`. */
    function Get(f: ExecuteField): Value {
      match f
      case NodeIds => OfStrList(nodeIds)
      case Markers => OfStr(markers)
      case Keywords => OfStr(keywords)
      case Verbosity => OfInt(verbosity)
      case Failfast => OfBool(failfast)
      case Maxfail => OfInt(maxfail)
      case ShowCapture => OfBool(showCapture)
      case Timeout => OfInt(timeout)
    }
  }

  /** Both stop controls are supplied, `failfast=False` included. */
  predicate BothStopControls(args: Arguments) {
    Supplied(args, "failfast") != Null && Supplied(args, "maxfail") != Null
  }

  /** `validate_failfast_maxfail_exclusive`: the check is `is not None` on
      both, so an explicit `failfast=False` still clashes with `maxfail`. */
  function ValidateFailfastMaxfailExclusive(p: ExecuteTestsParams): (r: Result<ExecuteTestsParams, string>)
    ensures r.Success? <==> p.failfast.None? || p.maxfail.None?
    ensures r.Success? ==> r.value == p
    ensures r.Failure? ==> r.error == ExclusiveDetail
  {
    if p.failfast.Some? && p.maxfail.Some? then Failure(ExclusiveDetail) else Success(p)
  }

  /** The record whose fields are the supplied values, `None` where null. */
  function FieldsOf(args: Arguments): ExecuteTestsParams {
    ExecuteTestsParams(
      AsStrList(Supplied(args, Key(NodeIds))),
      AsStr(Supplied(args, Key(Markers))),
      AsStr(Supplied(args, Key(Keywords))),
      AsInt(Supplied(args, Key(Verbosity))),
      AsBool(Supplied(args, Key(Failfast))),
      AsInt(Supplied(args, Key(Maxfail))),
      AsBool(Supplied(args, Key(ShowCapture))),
      AsInt(Supplied(args, Key(Timeout))))
  }

  /** With nothing offending, every field holds a value of its type. */
  lemma CleanFields(args: Arguments)
    requires Offending(ExecuteSchema, args) == {}
    ensures forall f :: Conforms(TypeOf(f), Supplied(args, Key(f)))
  {
    CleanArguments(ExecuteSchema, args);
    forall f ensures Conforms(TypeOf(f), Supplied(args, Key(f))) {
      SchemaEntry(f);
    }
  }

  /** A conforming value survives being read into its field. */
  lemma FieldOfConforming(args: Arguments, f: ExecuteField)
    requires Conforms(TypeOf(f), Supplied(args, Key(f)))
    ensures FieldsOf(args).Get(f) == Supplied(args, Key(f))
  {
    var p, v := FieldsOf(args), Supplied(args, Key(f));
    match f
    case NodeIds => assert p.nodeIds == AsStrList(v);
    case Markers => assert p.markers == AsStr(v);
    case Keywords => assert p.keywords == AsStr(v);
    case Verbosity => assert p.verbosity == AsInt(v);
    case Failfast => assert p.failfast == AsBool(v);
    case Maxfail => assert p.maxfail == AsInt(v);
    case ShowCapture => assert p.showCapture == AsBool(v);
    case Timeout => assert p.timeout == AsInt(v);
  }

  /** When every field conforms, the record built from the arguments holds
      exactly the supplied values and respects each bound; only the
      stop-control clash is left. */
  lemma FieldsOfConforming(args: Arguments)
    requires forall f :: Conforms(TypeOf(f), Supplied(args, Key(f)))
    ensures forall f :: FieldsOf(args).Get(f) == Supplied(args, Key(f))
    ensures FieldsOf(args).Valid() <==> !BothStopControls(args)
  {
    forall f ensures FieldsOf(args).Get(f) == Supplied(args, Key(f)) {
      FieldOfConforming(args, f);
    }
    assert Conforms(TypeOf(Verbosity), Supplied(args, Key(Verbosity)));
    assert Conforms(TypeOf(Maxfail), Supplied(args, Key(Maxfail)));
    assert Conforms(TypeOf(Timeout), Supplied(args, Key(Timeout)));
  }

  /** `ExecuteTestsParams.model_validate(args)`. */
  function ParseExecute(args: Arguments): (r: Result<ExecuteTestsParams, set<FieldError>>)
    ensures r.Success? <==> Offending(ExecuteSchema, args) == {} && !BothStopControls(args)
    ensures r.Success? ==> r.value.Valid() && forall f :: r.value.Get(f) == Supplied(args, Key(f))
    ensures r.Failure? && Offending(ExecuteSchema, args) != {} ==>
              Locations(r.error) == Offending(ExecuteSchema, args)
    ensures r.Failure? && Offending(ExecuteSchema, args) == {} ==>
              r.error == {FieldError("", ValueError(ExclusiveDetail))}
  {
    var errors := SchemaErrors(ExecuteSchema, args);
    if errors != {} then
      Failure(errors)
    else
      CleanFields(args);
      FieldsOfConforming(args);
      match ValidateFailfastMaxfailExclusive(FieldsOf(args))
      case Failure(detail) => Failure({FieldError("", ValueError(detail))})
      case Success(p) => Success(p)
  }

  /** Supplying both `failfast` and `maxfail` is refused whatever else is
      supplied and whatever their values. */
  lemma BothStopControlsRejected(args: Arguments)
    requires BothStopControls(args)
    ensures ParseExecute(args).Failure?
    ensures ParseExecute(args).error != {}
  {
  }

  /** Out-of-range integers are refused, naming the field and the bound. */
  lemma BoundsEnforced(args: Arguments, key: string, n: int)
    requires key in {"verbosity", "maxfail", "timeout"}
    requires Supplied(args, key) == Int(n)
    ensures n < ExecuteSchema[key].ge ==>
              ParseExecute(args).Failure?
              && FieldError(key, GreaterThanEqual(ExecuteSchema[key].ge)) in ParseExecute(args).error
    ensures key == "verbosity" && n > 2 ==>
              ParseExecute(args).Failure?
              && FieldError(key, LessThanEqual(2)) in ParseExecute(args).error
  {
    assert key in args;
    if n < ExecuteSchema[key].ge || (key == "verbosity" && n > 2) {
      assert !Conforms(ExecuteSchema[key], args[key]);
      assert CheckField(key, ExecuteSchema[key], args[key]).value in SchemaErrors(ExecuteSchema, args);
    }
  }

  /** A key outside the declared fields is always refused and reported. */
  lemma UnknownKeyRejected(args: Arguments, key: string)
    requires key in args && key !in ExecuteSchema
    ensures ParseExecute(args).Failure?
    ensures FieldError(key, ExtraForbidden) in ParseExecute(args).error
  {
    assert FieldError(key, ExtraForbidden) in SchemaErrors(ExecuteSchema, args);
  }

  /** An explicit null parses exactly as an absent key. */
  lemma NullIsAbsentForExecute(args: Arguments, key: string)
    requires key in ExecuteSchema
    ensures ParseExecute(args[key := Null]) == ParseExecute(args - {key})
  {
    NullIsAbsent(ExecuteSchema, args, key);
    var withNull, without := args[key := Null], args - {key};
    forall f ensures Supplied(withNull, Key(f)) == Supplied(without, Key(f)) {
    }
    assert FieldsOf(withNull) == FieldsOf(without);
  }

  /** A valid record holds, in each field, a value of that field's type. */
  lemma ValidFieldConforms(p: ExecuteTestsParams, f: ExecuteField)
    requires p.Valid()
    ensures Conforms(TypeOf(f), p.Get(f))
  {
  }

  /** A record is determined by its fields. */
  lemma {:induction false} SameFieldsSameRecord(p: ExecuteTestsParams, q: ExecuteTestsParams)
    requires forall f :: p.Get(f) == q.Get(f)
    ensures p == q
  {
    assert p.Get(NodeIds) == q.Get(NodeIds) && p.Get(Markers) == q.Get(Markers);
    assert p.Get(Keywords) == q.Get(Keywords) && p.Get(Verbosity) == q.Get(Verbosity);
    assert p.Get(Failfast) == q.Get(Failfast) && p.Get(Maxfail) == q.Get(Maxfail);
    assert p.Get(ShowCapture) == q.Get(ShowCapture) && p.Get(Timeout) == q.Get(Timeout);
  }

  /** The converse of what `ParseExecute` promises on success: arguments with
      only declared keys, whose values are the fields of a valid record, are
      accepted as exactly that record. */
  lemma {:induction false} AcceptsEveryValidRecord(args: Arguments, p: ExecuteTestsParams)
    requires args.Keys <= ExecuteSchema.Keys
    requires p.Valid()
    requires forall f :: p.Get(f) == Supplied(args, Key(f))
    ensures ParseExecute(args) == Success(p)
  {
    forall k | k in args ensures Conforms(ExecuteSchema[k], args[k]) {
      var f := KeyOf(k);
      SchemaEntry(f);
      ValidFieldConforms(p, f);
    }
    CleanWhenConforming(ExecuteSchema, args);
    CleanFields(args);
    FieldsOfConforming(args);
    SameFieldsSameRecord(FieldsOf(args), p);
    assert p.Get(Failfast) == Supplied(args, "failfast") && p.Get(Maxfail) == Supplied(args, "maxfail");
  }
}
