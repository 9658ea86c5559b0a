/** The fixed tool catalog returned by `list_tools`: the two operations with
    their descriptions and the input schema of their parameter records. */
module Catalog {
  import opened Payload
  import opened ExecuteParams
  import opened DiscoverParams

  /** The parts of a record's JSON schema this model keeps: its title, the
      names of its properties and whether other properties are allowed. */
  datatype InputSchema = InputSchema(title: string, properties: set<string>, additionalProperties: bool)

  datatype Tool = Tool(name: string, description: string, inputSchema: InputSchema)

  /** `model_json_schema()` of a closed record: one property per declared
      field, no additional properties. */
  function SchemaOf(title: string, fields: Schema): (r: InputSchema)
    ensures r.properties == fields.Keys && !r.additionalProperties
  {
    InputSchema(title, fields.Keys, false)
  }

  /** `list_tools`: execution first, then discovery. */
  function ListTools(): (r: seq<Tool>)
    ensures |r| == 2
    ensures r[0].name == "execute_tests" && r[1].name == "discover_tests"
    ensures forall i, j :: 0 <= i < j < |r| ==> r[i].name != r[j].name
    ensures forall i :: 0 <= i < |r| ==> |r[i].description| > 0 && !r[i].inputSchema.additionalProperties
  {
    [
      Tool("execute_tests", "Execute pytest tests with filtering and output options",
           SchemaOf("ExecuteTestsParams", ExecuteSchema)),
      Tool("discover_tests", "Discover available tests in the project",
           SchemaOf("DiscoverTestsParams", DiscoverSchema))
    ]
  }

  /** The advertised property names, written out. */
  lemma AdvertisedProperties()
    ensures ListTools()[0].inputSchema.properties
            == {"node_ids", "markers", "keywords", "verbosity", "failfast", "maxfail", "show_capture", "timeout"}
    ensures ListTools()[1].inputSchema.properties == {"path", "pattern"}
  {
  }

  /** The advertised schemas agree with the parsers: a key the schema of a
      tool does not list is refused by that tool's parser. */
  lemma CatalogMatchesParsers(args: Arguments, key: string)
    requires key in args
    ensures key !in ListTools()[0].inputSchema.properties ==> ParseExecute(args).Failure?
    ensures key !in ListTools()[1].inputSchema.properties ==> ParseDiscover(args).Failure?
    ensures ListTools()[0].inputSchema.properties == ExecuteSchema.Keys
    ensures ListTools()[1].inputSchema.properties == DiscoverSchema.Keys
  {
    if key !in ExecuteSchema {
      UnknownKeyRejected(args, key);
    }
    if key !in DiscoverSchema {
      UnknownDiscoverKeyRejected(args, key);
    }
  }

  /** A key is advertised by a tool exactly when that tool's parser accepts
      it on its own (with a null value, which every field allows). */
  lemma {:induction false} AdvertisedIffAccepted(key: string)
    ensures key in ListTools()[0].inputSchema.properties <==> ParseExecute(map[key := Null]).Success?
    ensures key in ListTools()[1].inputSchema.properties <==> ParseDiscover(map[key := Null]).Success?
  {
    var args: Arguments := map[key := Null];
    if key in ExecuteSchema {
      CleanWhenConforming(ExecuteSchema, args);
      assert !BothStopControls(args);
    } else {
      UnknownKeyRejected(args, key);
    }
    if key in DiscoverSchema {
      CleanWhenConforming(DiscoverSchema, args);
      assert !TraversalAttempt(args);
    } else {
      UnknownDiscoverKeyRejected(args, key);
    }
  }
}
