# firestore-mcp, modelled in Dafny

firestore-mcp is a tool server for the Model Context Protocol. It exposes a Firestore database as nine
tools. A client asks it for the tool list and gets a fixed catalog of descriptors. A client calls a tool
by name with an optional `arguments` object and gets back one JSON reply. The reply is the tool's result
or an `{error: message}` object; the handler never raises a protocol-level error. Document data goes
through `serializeFirestoreData` before it is returned. That function turns the database's native types
into plain JSON:
- a timestamp becomes its ISO-8601 string;
- a document reference becomes its path;
- a geographic point becomes `{latitude, longitude}`.

The model has these modules:

- `JsonValue`: JSON values, with object entries kept in insertion order. It also defines JavaScript
  truthiness and the `{error: message}` payload.
- `FirestoreValue`: field values as the client library hands them out. This covers the three native
  types, arrays, plain mappings and primitives. It also defines the `Natives` record of host
  functions, and the index keys that `Object.entries` gives an array.
- `Serializer`: `serializeFirestoreData` and its array branch. `Settled` is the shape invariant of
  its output.
- `SerializerProperties`: the per-field conversion rules, the array behaviour, and the key-order
  guarantee. It also proves that a second pass over the output changes nothing, and that the values
  a second pass leaves unchanged are exactly the settled ones.
- `ToolCatalog`: the nine tool descriptors, with their names, descriptions, input properties and
  required lists.
- `Dispatcher`: the tool-call handler.
  - `Plan` turns a tool name and arguments into one database command. Otherwise it gives "unknown
    tool", or the message of the exception the handler would throw before reaching the database.
  - `Respond` shapes the database's answer into the reply.
  - `CallTool` puts the two together and wraps every error the way the catch-all block does.
- `DispatcherProperties`: the properties of that handler.
  - Routing: the nine catalog names, and only those, are handled.
  - Defaults: `limit` 20, `merge` true, and auto-generated ids.
  - The JSON-or-raw query value.
  - Error wrapping.
  - A reply depends on the database only through the planned command.
  - Each handler reads only the arguments its catalog entry declares.

The database, the JavaScript engine (`JSON.parse`, number-to-text, the message of the `TypeError`
that destructuring `undefined` throws) and `Date.toISOString` are not modelled. Each is an
uninterpreted parameter: the `Database`, `Engine` and `Natives` records of functions.

Arrays are the one place where natives are not converted. Each array element that is an object goes
straight to `serializeFirestoreData`, whatever it is (src/index.ts:51-53):
- A timestamp, reference or point directly inside an array comes out as its own enumerable fields
  (for a timestamp, `{_seconds, _nanoseconds}`), not as its canonical form.
- An array directly inside an array comes out as a mapping keyed `"0"`, `"1"`, … .

`SerializerProperties.ArrayField` states the rule exactly, and
`SerializerProperties.ArrayElementNotCanonical` shows that such elements are not canonicalized.

`JSON.parse` is a parameter of the model. Where a property depends on `JSON.parse` rejecting the
texts "undefined" and "[object Object]", it assumes `Dispatcher.JsonEngine`. Those are the texts
that `String()` gives for an absent property and for a plain object.

## Model

| member | source | states |
|---|---|---|
| Serializer.SerializeData | src/index.ts:40-62 | the result has one entry per input entry, in order and under the same key, holding that value serialized as a field; no array in the result directly holds another array |
| Serializer.SerializeItems | src/index.ts:50-53 | an array field maps element by element, and no element of the result is itself an array |
| FirestoreValue.IndexKeyRoundTrip | src/index.ts:43 | the key `Object.entries` gives array index i is a decimal digit string that reads back as i |
| FirestoreValue.IndexKeyInjective | src/index.ts:43 | distinct array indices get distinct keys |
| SerializerProperties.FieldRules | src/index.ts:43-58 | keys are kept in order; at each key a timestamp becomes its ISO string, a reference its path, a point `{latitude, longitude}`, a mapping its own serialization, an array an array of the same length, and a primitive is copied |
| SerializerProperties.KeysOf | src/index.ts:41-43 | the serialized mapping has exactly the input's keys in the input's order |
| SerializerProperties.ArrayField | src/index.ts:50-53 | an array keeps its length and order; a primitive element is copied, a mapping element is serialized, a native element becomes the serialization of its own fields, and a nested array becomes the serialization of its index-keyed entries |
| SerializerProperties.OwnFieldsSerialized | src/index.ts:51-52 | serializing a native's primitive own fields copies them under their own keys |
| SerializerProperties.IndexedSerialized | src/index.ts:51-52 | a nested array element serializes as `Object.entries` of the array would |
| SerializerProperties.ArrayElementNotCanonical | src/index.ts:50-53 | a timestamp, reference or array directly inside an array does not come out as it would in a field of its own |
| SerializerProperties.SettledFieldFixpoint | src/index.ts:40-62 | every settled JSON value, read back as field data, serializes to itself |
| SerializerProperties.SettledIffFixed | src/index.ts:40-62 | a JSON value is left unchanged by serialization if and only if it is settled |
| SerializerProperties.Idempotent | src/index.ts:40-62 | serializing already serialized data returns it unchanged |
| ToolCatalog.NamesDistinct | src/index.ts:80-238 | two tools have the same name exactly when they are the same tool |
| ToolCatalog.KeysDistinct | src/index.ts:80-238 | two input properties have the same key exactly when they are the same property |
| ToolCatalog.NineDistinctNames | src/index.ts:80-238 | the catalog lists nine tools under nine distinct names |
| ToolCatalog.DescriptorProperties | src/index.ts:80-238 | each descriptor's schema lists the tool's declared properties in order |
| ToolCatalog.SchemaWellFormed | src/index.ts:80-238 | in each descriptor no property is declared twice and every required property is declared |
| ToolCatalog.DeclarationsWellFormed | src/index.ts:80-238 | each tool's declarations name every property once and include every required one |
| ToolCatalog.Lookup | src/index.ts:247-471 | a search of the catalog by name finds a tool only under that tool's name, and finds none only for a name outside the catalog; `DispatcherProperties.PlanAgreesWithLookup` shows the switch agrees with it |
| Serializer.SerializeField | src/index.ts:44-58 | the value stored under one key is settled; its per-type conversion is stated by `SerializerProperties.FieldRules` |
| Serializer.SerializeItem | src/index.ts:51-52 | one array element is never itself an array and is settled; `SerializerProperties.ArrayField` states its value for each element kind |
| Serializer.SerializeObject | src/index.ts:52 | every value in the entries of an object element is settled; `SerializerProperties.OwnFieldsSerialized` and `SerializerProperties.IndexedSerialized` tie it to `serializeFirestoreData` of the element's entries |
| ToolCatalog.Tools | src/index.ts:80-238 | the catalog lists one descriptor per tool, in listing order; `ToolCatalog.NineDistinctNames` and `ToolCatalog.SchemaWellFormed` state what the descriptors satisfy |
| Dispatcher.Plan | src/index.ts:247-469 | the switch up to the database call; its routing is stated by `DispatcherProperties.RoutesExactlyCatalog` and `DispatcherProperties.PlanAgreesWithLookup`, its defaults by `ListLimitDefault`, `QueryArguments`, `CreateDocumentId` and `UpdateMerge`, and its throws by `MissingArguments`, `DataParseFailure` and `UnparsableDataThrows` |
| Dispatcher.Respond | src/index.ts:251-468 | every reply built from a database answer is a JSON object; its shape for each tool is stated by the `DispatcherProperties` reply lemmas |
| Dispatcher.CallTool | src/index.ts:243-491 | whatever the name, arguments and database, the reply is a JSON object; the `{error: message}` replies are stated by `UnknownToolReply`, `DataParseFailure` and `DatabaseFailureReported` |
| Dispatcher.QueryValue | src/index.ts:339-345 | the query value is its parse when parsing succeeds and the argument itself otherwise, as stated by `DispatcherProperties.QueryArguments` and `DispatcherProperties.QueryValuePassThrough` |
| Dispatcher.ParseArg | src/index.ts:380 | `JSON.parse` of an argument after its string conversion; `DispatcherProperties.QueryArguments` shows a string argument is parsed as itself, and `DispatcherProperties.UnparsableDataThrows` shows an absent or object argument fails under a JSON engine |
| DispatcherProperties.PlanAgreesWithLookup | src/index.ts:247-471 | the switch treats a name as unknown exactly when a search of the catalog finds no tool of that name, and otherwise plans a command of the tool the search finds |
| DispatcherProperties.QueryValuePassThrough | src/index.ts:339-345 | under a JSON engine an absent `value` stays absent and an object `value` is queried as the object itself |
| DispatcherProperties.UnparsableDataThrows | src/index.ts:380 | under a JSON engine create or update with absent or object `data` throws before any database call and replies with the parse error's message |
| DispatcherProperties.ListCollectionsReply | src/index.ts:248-258 | list_collections ignores its arguments and replies `{collections: ids}` with the root collection ids in order |
| DispatcherProperties.ListSubcollectionsReply | src/index.ts:261-273 | list_subcollections replies `{subcollections: ids}` with the ids under the given document in order |
| DispatcherProperties.CreateReply | src/index.ts:391-402 | create_document replies `{success: true, id, path}` of the reference it wrote |
| DispatcherProperties.DeleteReply | src/index.ts:440-450 | delete_document replies `{success: true, deleted: documentPath}` |
| DispatcherProperties.CountReply | src/index.ts:458-468 | count_documents replies `{collection: collectionPath, count}` with the database's count |
| DispatcherProperties.HandlesTool | src/index.ts:247-469 | a catalog name is never treated as unknown, and any command it plans belongs to that tool |
| DispatcherProperties.RoutesExactlyCatalog | src/index.ts:247-471 | a name is unknown if and only if it is not one of the catalog's names, and a planned command belongs to the tool named |
| DispatcherProperties.SwitchCase | src/index.ts:247-469 | the switch case for each tool's name is that tool's handler |
| DispatcherProperties.UnknownToolReply | src/index.ts:471-479 | a name outside the catalog plans no command and gets `{error: "Unknown tool: <name>"}` |
| DispatcherProperties.OnlyPlannedCommand | src/index.ts:246-491 | two databases that answer the planned command alike give the same reply, and a call that plans nothing gives the same reply on any database |
| DispatcherProperties.MissingArguments | src/index.ts:262 | without arguments, every tool but list_collections throws while destructuring its first declared property |
| DispatcherProperties.ListLimitDefault | src/index.ts:307-309 | list_documents uses limit 20 when `limit` is absent and the given value otherwise |
| DispatcherProperties.QueryArguments | src/index.ts:331-350 | query_documents passes its path, field and operator through, defaults limit to 20, and uses the parse of a string value when it parses and the raw string when it does not |
| DispatcherProperties.CreateDocumentId | src/index.ts:374-389 | create_document writes the parsed data; an absent, empty, null or false id selects a generated id, and a non-empty string id is used as given |
| DispatcherProperties.UpdateMerge | src/index.ts:406-432 | update_document merges when `merge` is absent, overwrites when it is false, and its reply echoes path and merge flag |
| DispatcherProperties.DataParseFailure | src/index.ts:380 | malformed `data` for create or update throws before any database call and is reported as `{error: message}` |
| DispatcherProperties.DatabaseFailureReported | src/index.ts:481-490 | a database failure on the planned command is reported as `{error: message}` |
| DispatcherProperties.GetDocumentReply | src/index.ts:276-303 | a missing document gives `{error: "Document not found", path}`; a present one gives id, path and its data serialized under the same keys |
| DispatcherProperties.ListingCountsDocuments | src/index.ts:311-327 | a list or query reply's count equals the number of returned documents, each given as id, path and serialized data |
| DispatcherProperties.ReadsOnlyDeclared | src/index.ts:80-469 | dropping every argument a tool does not declare leaves its plan unchanged |

## Left out

- The MCP server object, the stdio transport and `main` (src/index.ts:64-75, 494-504): protocol plumbing with no logic of its own.
- Credential loading and `initializeFirebase` (src/index.ts:14-37): environment and file I/O.
- The database itself. Its listings, lookups, writes, counts and failures are arbitrary functions of the command. Firestore's merge semantics, id generation, path and operator validation are not modelled.
- `JSON.parse`, number-to-string, `Date.toISOString` and the exact `TypeError` text are engine parameters, not implementations.
- `JSON.parse` is constrained only by `Dispatcher.JsonEngine`, and only in the lemmas that assume it. Outside those lemmas, the model allows an engine that parses "undefined" or "[object Object]". The source never meets such an engine.
- The textual layout of replies (`JSON.stringify` indentation, the `content` wrapper): a reply is modelled as the JSON value it encodes.
- Numbers are mathematical reals. Floating-point rounding and non-finite values are not modelled.
- `Object.entries` order is taken as insertion order. JavaScript lists integer-like keys first, and the model does not reorder them.
- A native's own fields are taken to be primitives. The real client objects may hold nested objects there.
- The catch-all block reports `error.message` for `Error` objects and `String(error)` otherwise. The model carries only the resulting message string.
- `get_document`'s fallback `doc.data() || {}` is not modelled, because a found document always has data.
- The catalog's parameter descriptions are carried as data. No property is proved about their wording.
