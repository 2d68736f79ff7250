/**
 * The tool-call handler as a pure function. `Plan` turns a tool name and its arguments into the
 * single database command the handler issues (or into the unknown-tool reply, or into the error
 * thrown before any database call); `Respond` builds the result payload from the database's answer;
 * `CallTool` combines the two and turns every thrown error into the payload `{error: message}`.
 */
module Dispatcher {
  import opened Wrappers
  import opened JsonValue
  import opened FirestoreValue
  import opened Serializer
  import ToolCatalog

  /** The `arguments` object of a tool call. */
  type Args = map<string, Json>

  /** A destructured argument property: None when the property is absent (`undefined`). */
  type Arg = Option<Json>

  function Prop(a: Args, key: string): (x: Arg)
    ensures x.Some? <==> key in a
    ensures x.Some? ==> x.value == a[key]
  {
    if key in a then Some(a[key]) else None
  }

  /** What the handler needs from the JavaScript runtime. */
  datatype Engine = Engine(
    natives: Natives,
    /** `JSON.parse`; a failure carries the message of the SyntaxError it throws. */
    parse: string -> Result<Json, string>,
    /** `String(x)` of a number. */
    numberText: Number -> string,
    /** Message of the TypeError thrown when a missing `arguments` object is destructured,
        given the first property name of the pattern. */
    destructureError: string -> string)

  /**
   * An engine whose `JSON.parse` rejects the texts `String()` gives for an absent property and for a
   * plain object, "undefined" and "[object Object]", neither of which is JSON.
   */
  predicate JsonEngine(e: Engine) {
    e.parse("undefined").Failure? && e.parse("[object Object]").Failure?
  }

  /** `String(x)` of a JSON value: arrays join their elements with commas, null elements as "". */
  function JsText(e: Engine, j: Json): string
    decreases j
  {
    match j
    case JNull => "null"
    case JBool(b) => if b then "true" else "false"
    case JNum(x) => e.numberText(x)
    case JStr(s) => s
    case JArr(items) => JoinText(e, items)
    case JObj(_) => "[object Object]"
  }

  function JoinText(e: Engine, items: seq<Json>): string
    decreases items
  {
    if items == [] then ""
    else
      var first := if items[0].JNull? then "" else JsText(e, items[0]);
      if |items| == 1 then first else first + "," + JoinText(e, items[1..])
  }

  /** `JSON.parse(x)`, which first converts its argument to a string. */
  function ParseArg(e: Engine, x: Arg): Result<Json, string> {
    match x
    case None => e.parse("undefined")
    case Some(j) => e.parse(JsText(e, j))
  }

  /** The database operation a handler performs, with the argument values it passes on. */
  datatype DbCommand =
    | ListCollections
    | ListSubcollections(documentPath: Arg)
    | Get(documentPath: Arg)
    | List(collectionPath: Arg, limit: Json)
    | Query(collectionPath: Arg, field: Arg, op: Arg, value: Arg, limit: Json)
    /** `documentId` None: the client generates the id (`add`); Some: `doc(id).set(data)`. */
    | Create(collectionPath: Arg, documentId: Option<Json>, data: Json)
    | Update(documentPath: Arg, data: Json, merge: Json)
    | Delete(documentPath: Arg)
    | Count(collectionPath: Arg)
  {
    /** The tool whose handler issues this command. */
    function Tool(): ToolCatalog.ToolId {
      match this
      case ListCollections => ToolCatalog.ListCollections
      case ListSubcollections(_) => ToolCatalog.ListSubcollections
      case Get(_) => ToolCatalog.GetDocument
      case List(_, _) => ToolCatalog.ListDocuments
      case Query(_, _, _, _, _) => ToolCatalog.QueryDocuments
      case Create(_, _, _) => ToolCatalog.CreateDocument
      case Update(_, _, _) => ToolCatalog.UpdateDocument
      case Delete(_) => ToolCatalog.DeleteDocument
      case Count(_) => ToolCatalog.CountDocuments
    }

    /** An update writes with merge exactly when its `merge` value is truthy. */
    predicate MergeWrite()
      requires Update?
    {
      Truthy(merge)
    }
  }

  /** The outcome of handling a call up to the database: a command to run, or a reply already. */
  datatype Step = Run(cmd: DbCommand) | UnknownTool | Threw(message: string)

  const DefaultLimit: Json := JNum(20.0)

  /** `limit = 20` in the destructuring pattern: the default applies only when `limit` is absent. */
  function LimitOf(a: Args): Json {
    Prop(a, "limit").GetOr(DefaultLimit)
  }

  /** The query value: its JSON parse when that succeeds, the argument itself otherwise. */
  function QueryValue(e: Engine, value: Arg): Arg {
    match ParseArg(e, value)
    case Success(j) => Some(j)
    case Failure(_) => value
  }

  /** `if (documentId)`: an explicit id is used only when it is truthy. */
  function ExplicitId(documentId: Arg): Option<Json> {
    if documentId.Some? && Truthy(documentId.value) then documentId else None
  }

  /** The switch on the tool name, up to the database call. */
  function Plan(e: Engine, name: string, args: Option<Args>): Step {
    if name == "list_collections" then Run(ListCollections)
    else if name == "list_subcollections" then PlanListSubcollections(e, args)
    else if name == "get_document" then PlanGet(e, args)
    else if name == "list_documents" then PlanList(e, args)
    else if name == "query_documents" then PlanQuery(e, args)
    else if name == "create_document" then PlanCreate(e, args)
    else if name == "update_document" then PlanUpdate(e, args)
    else if name == "delete_document" then PlanDelete(e, args)
    else if name == "count_documents" then PlanCount(e, args)
    else UnknownTool
  }

  function PlanListSubcollections(e: Engine, args: Option<Args>): Step {
    match args
    case None => Threw(e.destructureError("documentPath"))
    case Some(a) => Run(ListSubcollections(Prop(a, "documentPath")))
  }

  function PlanGet(e: Engine, args: Option<Args>): Step {
    match args
    case None => Threw(e.destructureError("documentPath"))
    case Some(a) => Run(Get(Prop(a, "documentPath")))
  }

  function PlanList(e: Engine, args: Option<Args>): Step {
    match args
    case None => Threw(e.destructureError("collectionPath"))
    case Some(a) => Run(List(Prop(a, "collectionPath"), LimitOf(a)))
  }

  function PlanQuery(e: Engine, args: Option<Args>): Step {
    match args
    case None => Threw(e.destructureError("collectionPath"))
    case Some(a) =>
      Run(Query(Prop(a, "collectionPath"), Prop(a, "field"), Prop(a, "operator"),
                QueryValue(e, Prop(a, "value")), LimitOf(a)))
  }

  function PlanCreate(e: Engine, args: Option<Args>): Step {
    match args
    case None => Threw(e.destructureError("collectionPath"))
    case Some(a) =>
      match ParseArg(e, Prop(a, "data"))
      case Failure(m) => Threw(m)
      case Success(data) => Run(Create(Prop(a, "collectionPath"), ExplicitId(Prop(a, "documentId")), data))
  }

  function PlanUpdate(e: Engine, args: Option<Args>): Step {
    match args
    case None => Threw(e.destructureError("documentPath"))
    case Some(a) =>
      match ParseArg(e, Prop(a, "data"))
      case Failure(m) => Threw(m)
      case Success(data) => Run(Update(Prop(a, "documentPath"), data, Prop(a, "merge").GetOr(JBool(true))))
  }

  function PlanDelete(e: Engine, args: Option<Args>): Step {
    match args
    case None => Threw(e.destructureError("documentPath"))
    case Some(a) => Run(Delete(Prop(a, "documentPath")))
  }

  function PlanCount(e: Engine, args: Option<Args>): Step {
    match args
    case None => Threw(e.destructureError("collectionPath"))
    case Some(a) => Run(Count(Prop(a, "collectionPath")))
  }

  /** A document snapshot as the client returns it. */
  datatype Snapshot = Snapshot(found: bool, id: string, path: string, data: seq<(string, Value)>)

  /** A reference to a written document. */
  datatype DocRef = DocRef(id: string, path: string)

  /**
   * The database client, seen as its answers to each command; a Failure carries the message of the
   * error the client throws. Each field is consulted only for the commands that return its shape.
   */
  datatype Database = Database(
    collectionIds: DbCommand -> Result<seq<string>, string>,
    document: DbCommand -> Result<Snapshot, string>,
    documents: DbCommand -> Result<seq<Snapshot>, string>,
    created: DbCommand -> Result<DocRef, string>,
    written: DbCommand -> Result<(), string>,
    counted: DbCommand -> Result<Number, string>)

  /** A property that `JSON.stringify` writes only when it is defined. */
  function Echo(key: string, x: Arg): seq<(string, Json)> {
    match x
    case None => []
    case Some(j) => [(key, j)]
  }

  function Strings(ids: seq<string>): (r: seq<Json>)
    ensures |r| == |ids|
    ensures forall i :: 0 <= i < |ids| ==> r[i] == JStr(ids[i])
  {
    if ids == [] then [] else [JStr(ids[0])] + Strings(ids[1..])
  }

  /** `{id, path, data}` of a document, its data serialized. */
  function DocumentJson(n: Natives, d: Snapshot): Json {
    JObj([("id", JStr(d.id)), ("path", JStr(d.path)), ("data", JObj(SerializeData(n, d.data)))])
  }

  function DocumentsJson(n: Natives, ds: seq<Snapshot>): (r: seq<Json>)
    ensures |r| == |ds|
    ensures forall i :: 0 <= i < |ds| ==> r[i] == DocumentJson(n, ds[i])
  {
    if ds == [] then [] else [DocumentJson(n, ds[0])] + DocumentsJson(n, ds[1..])
  }

  /** The payload of a handler that ran `cmd` against `db`. */
  function Respond(n: Natives, db: Database, cmd: DbCommand): (r: Json)
    ensures r.JObj?
  {
    match cmd
    case ListCollections =>
      (match db.collectionIds(cmd)
       case Failure(m) => ErrorPayload(m)
       case Success(ids) => JObj([("collections", JArr(Strings(ids)))]))
    case ListSubcollections(_) =>
      (match db.collectionIds(cmd)
       case Failure(m) => ErrorPayload(m)
       case Success(ids) => JObj([("subcollections", JArr(Strings(ids)))]))
    case Get(path) =>
      (match db.document(cmd)
       case Failure(m) => ErrorPayload(m)
       case Success(d) =>
         if !d.found then JObj([("error", JStr("Document not found"))] + Echo("path", path))
         else DocumentJson(n, d))
    case List(_, _) => Listing(n, db.documents(cmd))
    case Query(_, _, _, _, _) => Listing(n, db.documents(cmd))
    case Create(_, _, _) =>
      (match db.created(cmd)
       case Failure(m) => ErrorPayload(m)
       case Success(r) => JObj([("success", JBool(true)), ("id", JStr(r.id)), ("path", JStr(r.path))]))
    case Update(path, _, merge) =>
      (match db.written(cmd)
       case Failure(m) => ErrorPayload(m)
       case Success(_) => JObj([("success", JBool(true))] + Echo("path", path) + [("merged", merge)]))
    case Delete(path) =>
      (match db.written(cmd)
       case Failure(m) => ErrorPayload(m)
       case Success(_) => JObj([("success", JBool(true))] + Echo("deleted", path)))
    case Count(path) =>
      (match db.counted(cmd)
       case Failure(m) => ErrorPayload(m)
       case Success(c) => JObj(Echo("collection", path) + [("count", JNum(c))]))
  }

  /** `{count, documents}` of a list or query result. */
  function Listing(n: Natives, r: Result<seq<Snapshot>, string>): Json {
    match r
    case Failure(m) => ErrorPayload(m)
    case Success(ds) => JObj([("count", JNum(|ds| as real)), ("documents", JArr(DocumentsJson(n, ds)))])
  }

  /**
   * A tool call, end to end, with every thrown error reported as `{error: message}`: whatever the
   * name, arguments and database, the reply is a JSON object and never a protocol-level failure.
   */
  function CallTool(e: Engine, db: Database, name: string, args: Option<Args>): (r: Json)
    ensures r.JObj?
  {
    match Plan(e, name, args)
    case UnknownTool => ErrorPayload("Unknown tool: " + name)
    case Threw(m) => ErrorPayload(m)
    case Run(cmd) => Respond(e.natives, db, cmd)
  }
}
