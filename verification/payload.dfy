/** Untyped tool arguments and the field-by-field checks that a closed
    parameter record (`extra = "forbid"`) applies to them: unknown keys are
    refused, a declared key accepts null or a value of its declared type, and
    integers must lie within their declared `ge`/`le` bounds. Every offending
    key is reported, not only the first. */
module Payload {
  import opened Wrappers

  /** A JSON-like argument value as delivered by the protocol layer. */
  datatype Value =
    | Null
    | Int(i: int)
    | Bool(b: bool)
    | Str(s: string)
    | StrList(items: seq<string>)

  type Arguments = map<string, Value>

  /** The declared type of an optional field; `Null` is always accepted too. */
  datatype FieldType =
    | StrListField
    | StrField
    | BoolField
    | IntField(ge: int, le: Option<int>)

  /** The declared fields of a closed record and their types. */
  type Schema = map<string, FieldType>

  datatype ErrorKind =
    | ExtraForbidden
    | WrongType(expected: FieldType)
    | GreaterThanEqual(ge: int)
    | LessThanEqual(le: int)
    | ValueError(detail: string)

  /** One entry of a validation error; `loc` is the offending key, or "" for
      a check made on the record as a whole. */
  datatype FieldError = FieldError(loc: string, kind: ErrorKind)

  /** The value a key carries; an absent key reads as null, as a field
      default of `None` makes it. */
  function Supplied(args: Arguments, key: string): Value {
    if key in args then args[key] else Null
  }

  /** Reference definition of an acceptable field value. */
  predicate Conforms(t: FieldType, v: Value) {
    || v.Null?
    || match t
       case StrListField => v.StrList?
       case StrField => v.Str?
       case BoolField => v.Bool?
       case IntField(ge, le) => v.Int? && ge <= v.i && (le.None? || v.i <= le.value)
  }

  /** Type check, then the lower bound, then the upper bound. */
  function CheckField(key: string, t: FieldType, v: Value): (r: Option<FieldError>)
    ensures r.None? <==> Conforms(t, v)
    ensures r.Some? ==> r.value.loc == key && r.value.kind != ExtraForbidden
    ensures r.Some? && v.Int? && t.IntField? && v.i < t.ge ==> r.value.kind == GreaterThanEqual(t.ge)
    ensures r.Some? && v.Int? && t.IntField? && t.ge <= v.i ==> r.value.kind == LessThanEqual(t.le.value)
  {
    if v.Null? then None
    else match t
      case StrListField => if v.StrList? then None else Some(FieldError(key, WrongType(t)))
      case StrField => if v.Str? then None else Some(FieldError(key, WrongType(t)))
      case BoolField => if v.Bool? then None else Some(FieldError(key, WrongType(t)))
      case IntField(ge, le) =>
        if !v.Int? then Some(FieldError(key, WrongType(t)))
        else if v.i < ge then Some(FieldError(key, GreaterThanEqual(ge)))
        else if le.Some? && v.i > le.value then Some(FieldError(key, LessThanEqual(le.value)))
        else None
  }

  /** The keys that a closed record with these fields refuses. */
  ghost function Offending(schema: Schema, args: Arguments): set<string> {
    set k | k in args && (k !in schema || !Conforms(schema[k], args[k]))
  }

  function Locations(errors: set<FieldError>): (r: set<string>)
    ensures r == {} <==> errors == {}
  {
    var r := set e | e in errors :: e.loc;
    if errors != {} then
      var e :| e in errors;
      assert e.loc in r;
      r
    else
      r
  }

  /** The locations of a union of error sets are the union of their locations. */
  lemma LocationsUnion(a: set<FieldError>, b: set<FieldError>)
    ensures Locations(a + b) == Locations(a) + Locations(b)
  {
  }

  /** All field-level errors for `args`: one per unknown key and one per
      declared key whose value does not conform. */
  function SchemaErrors(schema: Schema, args: Arguments): (r: set<FieldError>)
    ensures Locations(r) == Offending(schema, args)
    ensures forall k :: k in args && k !in schema ==> FieldError(k, ExtraForbidden) in r
    ensures forall k :: k in args && k in schema && !Conforms(schema[k], args[k]) ==>
              CheckField(k, schema[k], args[k]).value in r
  {
    var extras := set k | k in args && k !in schema :: FieldError(k, ExtraForbidden);
    var invalid := set k | k in args && k in schema && CheckField(k, schema[k], args[k]).Some? ::
                     CheckField(k, schema[k], args[k]).value;
    var r := extras + invalid;
    assert Locations(r) == Offending(schema, args) by {
      forall e | e in r ensures e.loc in Offending(schema, args) {
        if e in extras {
          var k :| k in args && k !in schema && e == FieldError(k, ExtraForbidden);
        } else {
          var k :| k in args && k in schema && CheckField(k, schema[k], args[k]).Some?
                   && e == CheckField(k, schema[k], args[k]).value;
        }
      }
      forall k | k in Offending(schema, args) ensures k in Locations(r) {
        if k !in schema {
          assert FieldError(k, ExtraForbidden) in r;
        } else {
          assert CheckField(k, schema[k], args[k]).value in r;
        }
      }
    }
    r
  }

  /** With nothing offending, no key is unknown and every declared field,
      absent ones included, holds an acceptable value. */
  lemma CleanArguments(schema: Schema, args: Arguments)
    requires Offending(schema, args) == {}
    ensures args.Keys <= schema.Keys
    ensures forall k :: k in schema ==> Conforms(schema[k], Supplied(args, k))
  {
    forall k | k in args ensures k in schema && Conforms(schema[k], args[k]) {
      assert k !in Offending(schema, args);
    }
  }

  /** The converse of `CleanArguments`. */
  lemma CleanWhenConforming(schema: Schema, args: Arguments)
    requires args.Keys <= schema.Keys
    requires forall k :: k in args ==> Conforms(schema[k], args[k])
    ensures Offending(schema, args) == {}
  {
  }

  /** An explicit null and an absent key produce the same field errors. */
  lemma {:induction false} NullIsAbsent(schema: Schema, args: Arguments, key: string)
    requires key in schema
    ensures SchemaErrors(schema, args[key := Null]) == SchemaErrors(schema, args - {key})
  {
    var withNull, without := args[key := Null], args - {key};
    forall e | e in SchemaErrors(schema, withNull) ensures e in SchemaErrors(schema, without) {
      var k :| k in withNull && (if k in schema then CheckField(k, schema[k], withNull[k]) == Some(e)
                                 else e == FieldError(k, ExtraForbidden));
      assert k != key;
    }
    forall e | e in SchemaErrors(schema, without) ensures e in SchemaErrors(schema, withNull) {
      var k :| k in without && (if k in schema then CheckField(k, schema[k], without[k]) == Some(e)
                                else e == FieldError(k, ExtraForbidden));
      assert withNull[k] == without[k];
    }
  }

  /** Every declared field with its supplied value, null where absent. */
  function Normalized(schema: Schema, args: Arguments): (r: Arguments)
    ensures r.Keys == schema.Keys
    ensures forall k :: k in schema ==> r[k] == Supplied(args, k)
  {
    map k | k in schema :: Supplied(args, k)
  }

  /** The text `needle` occurs somewhere in `message`. */
  ghost predicate Mentions(message: string, needle: string) {
    exists i :: 0 <= i <= |message| && needle <= message[i..]
  }

  lemma MentionsAt(prefix: string, needle: string, suffix: string)
    ensures Mentions(prefix + needle + suffix, needle)
  {
    var m := prefix + needle + suffix;
    assert m[|prefix|..] == needle + suffix;
  }

  // Readers and writers between optional record fields and argument values.

  function AsStrList(v: Value): Option<seq<string>> {
    if v.StrList? then Some(v.items) else None
  }

  function AsStr(v: Value): Option<string> {
    if v.Str? then Some(v.s) else None
  }

  function AsBool(v: Value): Option<bool> {
    if v.Bool? then Some(v.b) else None
  }

  function AsInt(v: Value): Option<int> {
    if v.Int? then Some(v.i) else None
  }

  function OfStrList(o: Option<seq<string>>): Value {
    if o.Some? then StrList(o.value) else Null
  }

  function OfStr(o: Option<string>): Value {
    if o.Some? then Str(o.value) else Null
  }

  function OfBool(o: Option<bool>): Value {
    if o.Some? then Bool(o.value) else Null
  }

  function OfInt(o: Option<int>): Value {
    if o.Some? then Int(o.value) else Null
  }
}
