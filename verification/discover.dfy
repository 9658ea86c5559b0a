/** `DiscoverTestsParams`: the closed, immutable parameter record of the
    `discover_tests` tool. Besides the field checks, its `path` validator
    refuses any path with a parent-directory part, so discovery cannot
    leave the project. */
module DiscoverParams {
  import opened Wrappers
  import opened Payload
  import opened Paths

  const DiscoverSchema: Schema := map["path" := StrField, "pattern" := StrField]

  const TraversalLead: string := "Path traversal not allowed: '"
  const TraversalTail: string :=
    "' contains '..' sequences. Specify paths within the project boundary only."

  /** The validator's message, naming the offending path. */
  function TraversalDetail(path: string): string {
    TraversalLead + path + TraversalTail
  }

  datatype DiscoverTestsParams = DiscoverTestsParams(path: Option<string>, pattern: Option<string>)
  {
    /** What a constructed record always satisfies. */
    predicate Valid() {
      path.Some? ==> !HasParentPart(path.value)
    }

    /** `model_dump()`. */
    function Dump(): (r: Arguments)
      ensures r.Keys == DiscoverSchema.Keys
    {
      map["path" := OfStr(path), "pattern" := OfStr(pattern)]
    }
  }

  /** `validate_no_path_traversal`: `None` passes; a string passes unless
      one of its parts is "..". */
  function ValidateNoPathTraversal(v: Option<string>): (r: Result<Option<string>, string>)
    ensures r.Success? <==> v.None? || !HasParentToken(v.value)
    ensures r.Success? ==> r.value == v
    ensures r.Failure? ==> r.error == TraversalDetail(v.value) && Mentions(r.error, v.value)
  {
    if v.None? then
      Success(v)
    else
      ParentPartIffToken(v.value);
      if HasParentPart(v.value) then
        MentionsAt(TraversalLead, v.value, TraversalTail);
        Failure(TraversalDetail(v.value))
      else
        Success(v)
  }

  /** A string `path` that the traversal validator refuses. */
  predicate TraversalAttempt(args: Arguments) {
    Supplied(args, "path").Str? && HasParentPart(Supplied(args, "path").s)
  }

  /** The validator runs only on a `path` that passed its type check. */
  function PathErrors(args: Arguments): (r: set<FieldError>)
    ensures r == {} <==> !TraversalAttempt(args)
    ensures Locations(r) <= {"path"}
  {
    var path := Supplied(args, "path");
    if path.Str? then
      match ValidateNoPathTraversal(Some(path.s))
      case Failure(detail) => {FieldError("path", ValueError(detail))}
      case Success(_) => {}
    else
      {}
  }

  /** `DiscoverTestsParams.model_validate(args)`. */
  function ParseDiscover(args: Arguments): (r: Result<DiscoverTestsParams, set<FieldError>>)
    ensures r.Success? <==> Offending(DiscoverSchema, args) == {} && !TraversalAttempt(args)
    ensures r.Success? ==> r.value.Valid() && r.value.Dump() == Normalized(DiscoverSchema, args)
    ensures r.Failure? ==>
              Locations(r.error)
              == Offending(DiscoverSchema, args) + (if TraversalAttempt(args) then {"path"} else {})
    ensures TraversalAttempt(args) ==>
              r.Failure? && FieldError("path", ValueError(TraversalDetail(args["path"].s))) in r.error
  {
    var errors := SchemaErrors(DiscoverSchema, args) + PathErrors(args);
    if errors != {} then
      LocationsUnion(SchemaErrors(DiscoverSchema, args), PathErrors(args));
      Failure(errors)
    else
      CleanDiscoverRecord(args);
      Success(DiscoverTestsParams(AsStr(Supplied(args, "path")), AsStr(Supplied(args, "pattern"))))
  }

  /** With no field error, the record built from the arguments is valid and
      holds exactly the supplied values. */
  lemma CleanDiscoverRecord(args: Arguments)
    requires Offending(DiscoverSchema, args) == {} && !TraversalAttempt(args)
    ensures var p := DiscoverTestsParams(AsStr(Supplied(args, "path")), AsStr(Supplied(args, "pattern")));
            p.Valid() && p.Dump() == Normalized(DiscoverSchema, args)
  {
    CleanArguments(DiscoverSchema, args);
    var path, pattern := Supplied(args, "path"), Supplied(args, "pattern");
    assert Conforms(DiscoverSchema["path"], path);
    assert Conforms(DiscoverSchema["pattern"], pattern);
    assert OfStr(AsStr(path)) == path && OfStr(AsStr(pattern)) == pattern;
  }

  /** A non-null `path` is refused exactly when one of its `/`-separated
      segments is "..": "../secret" and "a/../b" are refused, "a..b" and
      "..." are not. */
  lemma PathRejectedIffParentSegment(path: string, pattern: Value)
    requires pattern.Null? || pattern.Str?
    ensures ParseDiscover(map["path" := Str(path), "pattern" := pattern]).Failure?
            <==> HasParentToken(path)
  {
    var args := map["path" := Str(path), "pattern" := pattern];
    ParentPartIffToken(path);
    CleanWhenConforming(DiscoverSchema, args);
  }

  /** Concrete instances of the rule: dots inside a name are allowed. */
  lemma DottedNamesAccepted()
    ensures ParseDiscover(map["path" := Str("a..b")]).Success?
    ensures ParseDiscover(map["path" := Str("...")]).Success?
  {
    SingleNameParent("a..b");
    SingleNameParent("...");
    CleanWhenConforming(DiscoverSchema, map["path" := Str("a..b")]);
    CleanWhenConforming(DiscoverSchema, map["path" := Str("...")]);
  }

  /** Any path that climbs out first is refused, whatever follows. */
  lemma ClimbingOutRejected(rest: string)
    ensures ParseDiscover(map["path" := Str(ParentToken + "/" + rest)]).Failure?
  {
    LeadingParent(rest);
  }

  /** No parameters at all is a valid request for the whole project. */
  lemma EmptyArgumentsAccepted()
    ensures ParseDiscover(map[]) == Success(DiscoverTestsParams(None, None))
  {
    CleanWhenConforming(DiscoverSchema, map[]);
  }

  /** A key outside the declared fields is always refused and reported. */
  lemma UnknownDiscoverKeyRejected(args: Arguments, key: string)
    requires key in args && key !in DiscoverSchema
    ensures ParseDiscover(args).Failure?
    ensures FieldError(key, ExtraForbidden) in ParseDiscover(args).error
  {
    assert FieldError(key, ExtraForbidden) in SchemaErrors(DiscoverSchema, args);
  }

  /** An explicit null parses exactly as an absent key. */
  lemma NullIsAbsentForDiscover(args: Arguments, key: string)
    requires key in DiscoverSchema
    ensures ParseDiscover(args[key := Null]) == ParseDiscover(args - {key})
  {
    NullIsAbsent(DiscoverSchema, args, key);
    var withNull, without := args[key := Null], args - {key};
    assert Supplied(withNull, "path") == Supplied(without, "path");
    assert Supplied(withNull, "pattern") == Supplied(without, "pattern");
  }

  /** Dumping a valid record and validating the dump gives the record back. */
  lemma {:induction false} DiscoverDumpRoundTrip(p: DiscoverTestsParams)
    requires p.Valid()
    ensures ParseDiscover(p.Dump()) == Success(p)
  {
    var args := p.Dump();
    assert args["path"] == OfStr(p.path) && args["pattern"] == OfStr(p.pattern);
    CleanWhenConforming(DiscoverSchema, args);
  }
}
