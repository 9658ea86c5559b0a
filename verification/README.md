# pytest-mcp domain layer in Dafny

This project models the domain layer of `pytest-mcp` (`src/pytest_mcp/domain.py`).
pytest-mcp is an MCP server that lets an AI agent discover and run a project's
pytest suite. The modelled layer is a set of pure rules. Each rule turns an
untyped input into a frozen record, or refuses it with a structured error:

- the **initialization handshake** (`ProtocolVersion`, `initialize_server`);
- the **`execute_tests` parameters** (`ExecuteTestsParams`). The record is closed.
  `verbosity` must lie in [-2, 2]. `maxfail` and `timeout` must be at least 1.
  `failfast` and `maxfail` are mutually exclusive;
- the **`discover_tests` parameters** (`DiscoverTestsParams`). The record is
  closed and refuses any `path` that has a `..` part;
- the **tool catalog** (`list_tools`).

Modules, one per concern:

| file | module | contents |
|---|---|---|
| `wrappers.dfy` | `Wrappers` | `Option`, `Result`. A raised exception is the `Failure` arm. |
| `payload.dfy` | `Payload` | Untyped argument values; field types with `ge`/`le` bounds; the closed-record field check that reports every offending key. |
| `paths.dfy` | `Paths` | `Path(v).parts` on POSIX, and a character-level definition of "has a `..` segment" proved equivalent to it. |
| `protocol.dfy` | `Protocol` | `ProtocolVersion`, `ServerInfo`, `ServerCapabilities`, `ProtocolError`, `initialize_server`. |
| `execute.dfy` | `ExecuteParams` | `ExecuteTestsParams`, its validators and `model_validate`. |
| `discover.dfy` | `DiscoverParams` | `DiscoverTestsParams`, its path validator and `model_validate`. |
| `catalog.dfy` | `Catalog` | `Tool`, the input schemas and `list_tools`. |

Validation follows pydantic's order of work:

- All field checks run first: the type, then the `ge`/`le` bounds, then the
  field validators. Unknown keys are refused by `extra = "forbid"`.
- Errors are collected for every offending key, not only the first.
- The model-level `failfast`/`maxfail` check runs only when every field passed.
  A payload with an out-of-range `verbosity` and both stop controls therefore
  reports only `verbosity`.
- An absent field and an explicit null both become `None`.

Each parser is specified by:

- an acceptance predicate defined on the raw arguments (`Offending`,
  `BothStopControls`, `TraversalAttempt`), tied to the parser in both
  directions;
- a converse: every valid record, supplied field by field, is accepted as
  exactly that record. For the discovery record this is stated through
  `model_dump` (`Dump`) as a round trip.

Both tool schemas are closed (`additionalProperties: false`) because both
records set `extra = "forbid"`.

## Model

| member | source | states |
|---|---|---|
| `Protocol.ParseProtocolVersion` | src/pytest_mcp/domain.py:50-72 | A `ProtocolVersion` is built if and only if the string is exactly "2025-03-26". It then keeps that value and satisfies `Valid()`, so only the supported version can be constructed. Otherwise the `ValueError` at `value` carries the source's exact message, which names both the received and the supported version. |
| `Protocol.InitializeServer` | src/pytest_mcp/domain.py:253-290 | Succeeds if and only if the version is supported. On success it returns that (valid) version, `ServerInfo("pytest-mcp", "0.1.0")` and capabilities with tools and resources on. Otherwise it never returns a triple. The `ProtocolError` has field "protocolVersion", the input verbatim as received value, "2025-03-26" as supported version, and the fixed retry hint "Protocol version not supported. Please retry initialization with supported version." as detail. |
| `Protocol.RetryWithSupportedSucceeds` | src/pytest_mcp/domain.py:277-286 | Retrying with the version named in a refusal succeeds, so the error is actionable. |
| `Payload.CheckField` | src/pytest_mcp/domain.py:131-166 | A field value passes if and only if it is null or of the declared type within the `ge`/`le` bounds. A failure is reported at that key: a value below the bound as `greater_than_equal`, a value above it as `less_than_equal`. |
| `Payload.SchemaErrors` | src/pytest_mcp/domain.py:182 | A closed record reports errors at exactly the offending keys: unknown keys and non-conforming declared keys. Every unknown key gets an `extra_forbidden` entry. |
| `Payload.NullIsAbsent` | src/pytest_mcp/domain.py:131-166 | An explicit null and an absent key give the same field errors. |
| `ExecuteParams.ValidateFailfastMaxfailExclusive` | src/pytest_mcp/domain.py:168-180 | Passes the record through unchanged if and only if `failfast` or `maxfail` is `None`. Otherwise it fails with the mutual-exclusion message. |
| `ExecuteParams.ParseExecute` | src/pytest_mcp/domain.py:122-182 | Accepts if and only if no key is unknown or out of range and the stop controls are not both given. An accepted record satisfies the record invariant, and each of its fields holds exactly the supplied value, with `None` where the key is absent or null. A refusal lists exactly the offending keys. When no field offends, the only error is the model-level clash. |
| `ExecuteParams.BothStopControlsRejected` | src/pytest_mcp/domain.py:175-179 | Non-null `failfast` and `maxfail` together are always refused, whatever the other fields hold and even with `failfast=False`. |
| `ExecuteParams.BoundsEnforced` | src/pytest_mcp/domain.py:143-166 | A `verbosity` below -2, or a `maxfail` or `timeout` below 1, is refused with a `greater_than_equal` error at that key. A `verbosity` above 2 is refused with a `less_than_equal` error. |
| `ExecuteParams.UnknownKeyRejected` | src/pytest_mcp/domain.py:182 | Any undeclared key makes validation fail, and that key is reported as `extra_forbidden`. |
| `ExecuteParams.NullIsAbsentForExecute` | src/pytest_mcp/domain.py:131-166 | Setting a declared key to null gives the same result as leaving it out. |
| `ExecuteParams.AcceptsEveryValidRecord` | src/pytest_mcp/domain.py:122-182 | Arguments with only declared keys whose values are the fields of a valid record are accepted as exactly that record. |
| `Paths.SegmentEnd` | src/pytest_mcp/domain.py:217 | The first segment ends at the first `/`, or at the end of the string. |
| `Paths.Split` | src/pytest_mcp/domain.py:217 | Splitting yields at least one segment, and no segment contains `/`. |
| `Paths.JoinSplit` | src/pytest_mcp/domain.py:217 | Joining the segments with `/` gives back the original path. |
| `Paths.Parts` | src/pytest_mcp/domain.py:217 | `Path(v).parts` holds no empty segment, no `.` segment and no `/`. |
| `Paths.DropTrivialKeepsParent` | src/pytest_mcp/domain.py:217 | Dropping empty and `.` segments keeps every `..`. |
| `Paths.ParentPartIffToken` | src/pytest_mcp/domain.py:217 | `".." in Path(v).parts` holds if and only if a `..` in the string is bounded on both sides by `/` or by the ends of the string. |
| `Paths.SplitParentIffToken` | src/pytest_mcp/domain.py:217 | The same equivalence for the raw `/`-split segments, proved by induction over the segments. |
| `Paths.SingleNameParent` | src/pytest_mcp/domain.py:217 | A path without `/` has a parent part if and only if it is `..` itself. |
| `Paths.LeadingParent` | src/pytest_mcp/domain.py:217 | Every path that starts with `../` has a parent part. |
| `Paths.InnerParent` | src/pytest_mcp/domain.py:217 | Every path with a `/../` in it has a parent part. |
| `DiscoverParams.ValidateNoPathTraversal` | src/pytest_mcp/domain.py:203-222 | `None` passes. A string passes unchanged if and only if it has no bounded `..` segment. Otherwise the message names the offending path. |
| `DiscoverParams.PathErrors` | src/pytest_mcp/domain.py:213-222 | The path validator adds an error, at `path` only, exactly when a string `path` has a parent part. |
| `DiscoverParams.ParseDiscover` | src/pytest_mcp/domain.py:185-224 | Accepts if and only if no key is unknown or ill-typed and `path` has no parent part. An accepted record satisfies the invariant and dumps back to the supplied values. A refusal lists exactly the offending keys. A traversal attempt always produces the error that names the path. |
| `DiscoverParams.PathRejectedIffParentSegment` | src/pytest_mcp/domain.py:213-222 | A string `path` is refused if and only if one of its `/`-separated segments is `..`. |
| `DiscoverParams.DottedNamesAccepted` | src/pytest_mcp/domain.py:217 | `"a..b"` and `"..."` are accepted. |
| `DiscoverParams.ClimbingOutRejected` | src/pytest_mcp/domain.py:217-221 | `"../"` followed by anything is refused. |
| `DiscoverParams.EmptyArgumentsAccepted` | src/pytest_mcp/domain.py:194-201 | No arguments at all gives the record with both fields `None`. |
| `DiscoverParams.UnknownDiscoverKeyRejected` | src/pytest_mcp/domain.py:224 | Any undeclared key makes validation fail, and that key is reported as `extra_forbidden`. |
| `DiscoverParams.NullIsAbsentForDiscover` | src/pytest_mcp/domain.py:194-201 | Setting `path` or `pattern` to null gives the same result as leaving it out. |
| `DiscoverParams.DiscoverDumpRoundTrip` | src/pytest_mcp/domain.py:185-224 | Every record that satisfies the invariant is accepted back from its own dump, unchanged. |
| `Catalog.ListTools` | src/pytest_mcp/domain.py:231-250 | Exactly two tools, "execute_tests" then "discover_tests". The names are distinct, the descriptions non-empty and both schemas closed. |
| `Catalog.CatalogMatchesParsers` | src/pytest_mcp/domain.py:239-250 | A key missing from a tool's advertised schema is refused by that tool's parser. |
| `Catalog.AdvertisedProperties` | src/pytest_mcp/domain.py:239-250 | The execute tool advertises exactly `node_ids`, `markers`, `keywords`, `verbosity`, `failfast`, `maxfail`, `show_capture` and `timeout`. The discover tool advertises exactly `path` and `pattern`. |
| `Catalog.AdvertisedIffAccepted` | src/pytest_mcp/domain.py:239-250 | A key is in a tool's advertised schema if and only if that tool's parser accepts an argument map holding just that key (with null). |

## Left out

- `src/pytest_mcp/main.py` is not part of this model. It holds the MCP stdio
  transport, the module-level `Server` and the async tool handlers, which only
  call `model_validate` and forward the result.
- The execution and discovery workflows (`execute_tests`, `discover_tests`),
  their response and summary records, subprocess spawning, timeouts and pytest
  output parsing are not defined in `domain.py`. They are not modelled.
- `ProtocolValidationError` is the `Failure` arm of the `Result` returned by
  `InitializeServer`. Its exception mechanics are not modelled.
- Pydantic's lax-mode coercion is not modelled (`"1"` or `True` for an int,
  `0`/`1` for a bool, a float with zero fraction for an int). Each field accepts
  only null or a value of its own declared kind.
- Argument values are limited to null, integers, booleans, strings and lists of
  strings. Lists of other values, floats and nested objects are not represented.
- Pydantic's error messages for type and bound errors are not modelled, nor
  the order of its error list. An error is a location plus a kind, and the
  errors form a set. Only the source's own validator messages are kept
  verbatim.
- `model_json_schema()` is modelled by `Catalog.SchemaOf`, which builds the schema from the record's declared fields. Only the schema title, the property names and
  `additionalProperties` are modelled. Per-property types, bounds,
  descriptions and defaults from `model_json_schema()` are left out.
- `Paths.Parts`: the root anchor (`/` or `//`) that `Path.parts` puts first
  for an absolute path is not kept. It can never equal `..`. Windows path
  semantics (backslashes, drives) are not modelled.
- `pattern` is stored as given. The source puts no constraint on it.
