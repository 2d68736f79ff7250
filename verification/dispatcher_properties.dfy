/** Routing, defaulting and error-wrapping properties of the tool-call handler. */
module DispatcherProperties {
  import opened Wrappers
  import opened JsonValue
  import opened FirestoreValue
  import opened Serializer
  import opened Dispatcher
  import ToolCatalog
  import SerializerProperties

  /** A catalog name is handled by its own case, which issues only that tool's command. */
  lemma HandlesTool(e: Engine, id: ToolCatalog.ToolId, args: Option<Args>)
    ensures !Plan(e, ToolCatalog.Name(id), args).UnknownTool?
    ensures Plan(e, ToolCatalog.Name(id), args).Run? ==> Plan(e, ToolCatalog.Name(id), args).cmd.Tool() == id
  {
    SwitchCase(e, id, args);
    HandlerIssuesOwnCommand(e, id, args);
  }

  lemma HandlerIssuesOwnCommand(e: Engine, id: ToolCatalog.ToolId, args: Option<Args>)
    ensures !Handler(e, id, args).UnknownTool?
    ensures Handler(e, id, args).Run? ==> Handler(e, id, args).cmd.Tool() == id
  {
    match id
    case ListCollections =>
    case ListSubcollections =>
    case GetDocument =>
    case ListDocuments =>
    case QueryDocuments =>
    case CreateDocument =>
    case UpdateDocument =>
    case DeleteDocument =>
    case CountDocuments =>
  }

  /** The switch handles exactly the catalog's nine names, and a command belongs to the tool called. */
  lemma RoutesExactlyCatalog(e: Engine, name: string, args: Option<Args>)
    ensures Plan(e, name, args).UnknownTool? <==> name !in ToolCatalog.ToolNames()
    ensures Plan(e, name, args).Run? ==> ToolCatalog.Name(Plan(e, name, args).cmd.Tool()) == name
  {
    var ns := ToolCatalog.ToolNames();
    if name in ns {
      var i :| 0 <= i < |ns| && ns[i] == name;
      HandlesTool(e, ToolCatalog.Order[i], args);
    }
  }

  /** The switch selects the same tool as a search of the catalog by name. */
  lemma PlanAgreesWithLookup(e: Engine, name: string, args: Option<Args>)
    ensures Plan(e, name, args).UnknownTool? <==> ToolCatalog.Lookup(name).None?
    ensures Plan(e, name, args).Run? ==> ToolCatalog.Lookup(name) == Some(Plan(e, name, args).cmd.Tool())
  {
    RoutesExactlyCatalog(e, name, args);
    var found := ToolCatalog.Lookup(name);
    if found.Some? {
      ToolCatalog.Listed(found.value);
      var i :| 0 <= i < |ToolCatalog.Order| && ToolCatalog.Order[i] == found.value;
      assert ToolCatalog.ToolNames()[i] == name;
      if Plan(e, name, args).Run? {
        ToolCatalog.NamesDistinct(found.value, Plan(e, name, args).cmd.Tool());
      }
    }
  }

  /** An unknown name gets `{error: "Unknown tool: <name>"}` and no database command. */
  lemma UnknownToolReply(e: Engine, db: Database, name: string, args: Option<Args>)
    requires name !in ToolCatalog.ToolNames()
    ensures Plan(e, name, args) == UnknownTool
    ensures CallTool(e, db, name, args) == ErrorPayload("Unknown tool: " + name)
  {
    RoutesExactlyCatalog(e, name, args);
  }

  /** Two databases give the same answers to command c. */
  predicate Agree(db1: Database, db2: Database, c: DbCommand) {
    && db1.collectionIds(c) == db2.collectionIds(c)
    && db1.document(c) == db2.document(c)
    && db1.documents(c) == db2.documents(c)
    && db1.created(c) == db2.created(c)
    && db1.written(c) == db2.written(c)
    && db1.counted(c) == db2.counted(c)
  }

  /**
   * The reply depends on the database only through its answer to the one planned command; a call
   * that plans no command (unknown tool, error before the database call) never consults it.
   */
  lemma OnlyPlannedCommand(e: Engine, db1: Database, db2: Database, name: string, args: Option<Args>)
    requires Plan(e, name, args).Run? ==> Agree(db1, db2, Plan(e, name, args).cmd)
    ensures CallTool(e, db1, name, args) == CallTool(e, db2, name, args)
  {
  }

  /** Without an `arguments` object, every tool but list_collections throws on its first declared property. */
  lemma MissingArguments(e: Engine, id: ToolCatalog.ToolId)
    requires id != ToolCatalog.ListCollections
    ensures |ToolCatalog.Declares(id)| > 0
    ensures Plan(e, ToolCatalog.Name(id), None)
            == Threw(e.destructureError(ToolCatalog.Key(ToolCatalog.Declares(id)[0].0)))
  {
    match id
    case ListSubcollections =>
    case GetDocument =>
    case ListDocuments =>
    case QueryDocuments =>
    case CreateDocument =>
    case UpdateDocument =>
    case DeleteDocument =>
    case CountDocuments =>
  }

  /** list_documents: `limit` is 20 when absent and passed through as given otherwise. */
  lemma ListLimitDefault(e: Engine, a: Args)
    ensures Plan(e, "list_documents", Some(a)).Run?
    ensures var c := Plan(e, "list_documents", Some(a)).cmd;
      && c.List?
      && c.collectionPath == Prop(a, "collectionPath")
      && ("limit" !in a ==> c.limit == JNum(20.0))
      && ("limit" in a ==> c.limit == a["limit"])
  {
  }

  /**
   * query_documents never fails before the query: `limit` defaults to 20, and a string `value` is
   * replaced by its JSON parse when parsing succeeds and kept as the raw string otherwise.
   */
  lemma QueryArguments(e: Engine, a: Args, s: string)
    requires "value" in a && a["value"] == JStr(s)
    ensures Plan(e, "query_documents", Some(a)).Run?
    ensures var c := Plan(e, "query_documents", Some(a)).cmd;
      && c.Query?
      && c.collectionPath == Prop(a, "collectionPath")
      && c.field == Prop(a, "field")
      && c.op == Prop(a, "operator")
      && ("limit" !in a ==> c.limit == JNum(20.0))
      && ("limit" in a ==> c.limit == a["limit"])
      && (e.parse(s).Success? ==> c.value == Some(e.parse(s).value))
      && (e.parse(s).Failure? ==> c.value == Some(JStr(s)))
  {
  }

  /**
   * query_documents with a JSON engine: an absent `value` stays absent and an object `value` is
   * passed on as the object itself, since neither converts to JSON text.
   */
  lemma QueryValuePassThrough(e: Engine, a: Args)
    requires JsonEngine(e)
    requires "value" !in a || a["value"].JObj?
    ensures Plan(e, "query_documents", Some(a)).Run?
    ensures Plan(e, "query_documents", Some(a)).cmd.value == Prop(a, "value")
  {
  }

  /**
   * create_document and update_document with a JSON engine: an absent or object `data` makes
   * `JSON.parse` throw, so no database call is made and the reply is that error's message.
   */
  lemma UnparsableDataThrows(e: Engine, db: Database, name: string, a: Args)
    requires JsonEngine(e)
    requires name == "create_document" || name == "update_document"
    requires "data" !in a || a["data"].JObj?
    ensures var text := if "data" in a then "[object Object]" else "undefined";
      && Plan(e, name, Some(a)) == Threw(e.parse(text).error)
      && CallTool(e, db, name, Some(a)) == ErrorPayload(e.parse(text).error)
  {
  }

  /**
   * create_document: an absent or falsy `documentId` (such as "") selects an id generated by the
   * client; a non-empty string id is used as given.
   */
  lemma CreateDocumentId(e: Engine, a: Args)
    requires ParseArg(e, Prop(a, "data")).Success?
    ensures Plan(e, "create_document", Some(a)).Run?
    ensures var c := Plan(e, "create_document", Some(a)).cmd;
      && c == Create(Prop(a, "collectionPath"), c.documentId, ParseArg(e, Prop(a, "data")).value)
      && ("documentId" !in a ==> c.documentId == None)
      && ("documentId" in a && a["documentId"] in {JStr(""), JNull, JBool(false)} ==> c.documentId == None)
      && (forall s :: "documentId" in a && a["documentId"] == JStr(s) && s != "" ==> c.documentId == Some(JStr(s)))
  {
  }

  /**
   * update_document: `merge` is true when absent, a false `merge` selects a plain overwrite, and the
   * reply echoes the merge value as `merged`.
   */
  lemma UpdateMerge(e: Engine, db: Database, a: Args)
    requires ParseArg(e, Prop(a, "data")).Success?
    ensures Plan(e, "update_document", Some(a)).Run?
    ensures var c := Plan(e, "update_document", Some(a)).cmd;
      && c.Update?
      && c.documentPath == Prop(a, "documentPath")
      && c.data == ParseArg(e, Prop(a, "data")).value
      && ("merge" !in a ==> c.merge == JBool(true) && c.MergeWrite())
      && ("merge" in a ==> c.merge == a["merge"])
      && ("merge" in a && a["merge"] == JBool(false) ==> !c.MergeWrite())
      && (db.written(c).Success? ==>
            CallTool(e, db, "update_document", Some(a))
            == JObj([("success", JBool(true))] + Echo("path", Prop(a, "documentPath")) + [("merged", c.merge)]))
  {
  }

  /** Malformed `data` for create or update is reported as `{error: message}` before any database call. */
  lemma DataParseFailure(e: Engine, db: Database, name: string, a: Args, m: string)
    requires name == "create_document" || name == "update_document"
    requires ParseArg(e, Prop(a, "data")) == Failure(m)
    ensures Plan(e, name, Some(a)) == Threw(m)
    ensures CallTool(e, db, name, Some(a)) == ErrorPayload(m)
  {
  }

  /** The database rejects command c with message m. */
  predicate Rejects(db: Database, c: DbCommand, m: string) {
    match c
    case ListCollections => db.collectionIds(c) == Failure(m)
    case ListSubcollections(_) => db.collectionIds(c) == Failure(m)
    case Get(_) => db.document(c) == Failure(m)
    case List(_, _) => db.documents(c) == Failure(m)
    case Query(_, _, _, _, _) => db.documents(c) == Failure(m)
    case Create(_, _, _) => db.created(c) == Failure(m)
    case Update(_, _, _) => db.written(c) == Failure(m)
    case Delete(_) => db.written(c) == Failure(m)
    case Count(_) => db.counted(c) == Failure(m)
  }

  /** Whatever the database throws while running the planned command is reported as `{error: message}`. */
  lemma DatabaseFailureReported(e: Engine, db: Database, name: string, args: Option<Args>, m: string)
    requires Plan(e, name, args).Run? && Rejects(db, Plan(e, name, args).cmd, m)
    ensures CallTool(e, db, name, args) == ErrorPayload(m)
  {
  }

  /**
   * get_document: a missing document yields `{error: "Document not found", path}`; a present one
   * yields its id, path and its data serialized, under the same keys in the same order.
   */
  lemma GetDocumentReply(e: Engine, db: Database, a: Args, d: Snapshot)
    requires db.document(Get(Prop(a, "documentPath"))) == Success(d)
    ensures var r := CallTool(e, db, "get_document", Some(a));
      && (!d.found ==> r == JObj([("error", JStr("Document not found"))] + Echo("path", Prop(a, "documentPath"))))
      && (d.found ==>
            && r.JObj? && |r.entries| == 3
            && r.entries[0] == ("id", JStr(d.id))
            && r.entries[1] == ("path", JStr(d.path))
            && r.entries[2].0 == "data"
            && r.entries[2].1.JObj?
            && Keys(r.entries[2].1.entries) == Keys(d.data)
            && r.entries[2].1.entries == SerializeData(e.natives, d.data))
  {
    if d.found {
      SerializerProperties.KeysOf(e.natives, d.data);
    }
  }

  /** list_collections ignores its arguments and replies with the root collection ids, in order. */
  lemma ListCollectionsReply(e: Engine, db: Database, args: Option<Args>, ids: seq<string>)
    requires db.collectionIds(ListCollections) == Success(ids)
    ensures var r := CallTool(e, db, "list_collections", args);
      && r.JObj? && |r.entries| == 1 && r.entries[0].0 == "collections"
      && r.entries[0].1.JArr? && |r.entries[0].1.items| == |ids|
      && forall i :: 0 <= i < |ids| ==> r.entries[0].1.items[i] == JStr(ids[i])
  {
  }

  /** list_subcollections replies with the ids of the collections under the given document, in order. */
  lemma ListSubcollectionsReply(e: Engine, db: Database, a: Args, ids: seq<string>)
    requires db.collectionIds(ListSubcollections(Prop(a, "documentPath"))) == Success(ids)
    ensures var r := CallTool(e, db, "list_subcollections", Some(a));
      && r.JObj? && |r.entries| == 1 && r.entries[0].0 == "subcollections"
      && r.entries[0].1.JArr? && |r.entries[0].1.items| == |ids|
      && forall i :: 0 <= i < |ids| ==> r.entries[0].1.items[i] == JStr(ids[i])
  {
  }

  /** create_document replies with success and the id and path of the reference it wrote. */
  lemma CreateReply(e: Engine, db: Database, a: Args, written: DocRef)
    requires Plan(e, "create_document", Some(a)).Run?
    requires db.created(Plan(e, "create_document", Some(a)).cmd) == Success(written)
    ensures CallTool(e, db, "create_document", Some(a))
            == JObj([("success", JBool(true)), ("id", JStr(written.id)), ("path", JStr(written.path))])
  {
  }

  /** delete_document replies with success and the path it was given, as `deleted`. */
  lemma DeleteReply(e: Engine, db: Database, a: Args)
    requires db.written(Delete(Prop(a, "documentPath"))).Success?
    ensures CallTool(e, db, "delete_document", Some(a))
            == JObj([("success", JBool(true))] + Echo("deleted", Prop(a, "documentPath")))
    ensures "documentPath" in a ==>
              CallTool(e, db, "delete_document", Some(a))
              == JObj([("success", JBool(true)), ("deleted", a["documentPath"])])
  {
  }

  /** count_documents replies with the collection path it was given and the database's count. */
  lemma CountReply(e: Engine, db: Database, a: Args, c: Number)
    requires db.counted(Count(Prop(a, "collectionPath"))) == Success(c)
    ensures CallTool(e, db, "count_documents", Some(a))
            == JObj(Echo("collection", Prop(a, "collectionPath")) + [("count", JNum(c))])
    ensures "collectionPath" in a ==>
              CallTool(e, db, "count_documents", Some(a))
              == JObj([("collection", a["collectionPath"]), ("count", JNum(c))])
  {
  }

  /** A list or query reply counts exactly the documents it returns, each with its data serialized. */
  lemma ListingCountsDocuments(e: Engine, db: Database, name: string, args: Option<Args>)
    requires Plan(e, name, args).Run?
    requires Plan(e, name, args).cmd.List? || Plan(e, name, args).cmd.Query?
    requires db.documents(Plan(e, name, args).cmd).Success?
    ensures var ds := db.documents(Plan(e, name, args).cmd).value;
      var r := CallTool(e, db, name, args);
      && r.JObj? && |r.entries| == 2
      && r.entries[0].0 == "count" && r.entries[1].0 == "documents"
      && r.entries[1].1.JArr?
      && r.entries[0].1 == JNum(|r.entries[1].1.items| as real)
      && |r.entries[1].1.items| == |ds|
      && forall i :: 0 <= i < |ds| ==>
           r.entries[1].1.items[i] == JObj([("id", JStr(ds[i].id)), ("path", JStr(ds[i].path)),
                                            ("data", JObj(SerializeData(e.natives, ds[i].data)))])
  {
  }

  /** `a` restricted to the property names in `keys`. */
  function Restrict(a: Args, keys: set<string>): (r: Args)
    ensures forall k :: k in r <==> k in a && k in keys
    ensures forall k :: k in r ==> r[k] == a[k]
  {
    map k | k in a && k in keys :: a[k]
  }

  /** Restricting the arguments to a set of keys keeps the value of every key in the set. */
  lemma Keeps(a: Args, keys: set<string>, p: ToolCatalog.Property, t: ToolCatalog.ParamType, id: ToolCatalog.ToolId)
    requires keys == ToolCatalog.DeclaredKeys(id) && (p, t) in ToolCatalog.Declares(id)
    ensures Prop(Restrict(a, keys), ToolCatalog.Key(p)) == Prop(a, ToolCatalog.Key(p))
  {
  }

  /** The case of the switch that handles tool id. */
  function Handler(e: Engine, id: ToolCatalog.ToolId, args: Option<Args>): Step {
    match id
    case ListCollections => Run(ListCollections)
    case ListSubcollections => PlanListSubcollections(e, args)
    case GetDocument => PlanGet(e, args)
    case ListDocuments => PlanList(e, args)
    case QueryDocuments => PlanQuery(e, args)
    case CreateDocument => PlanCreate(e, args)
    case UpdateDocument => PlanUpdate(e, args)
    case DeleteDocument => PlanDelete(e, args)
    case CountDocuments => PlanCount(e, args)
  }

  lemma SwitchCase(e: Engine, id: ToolCatalog.ToolId, args: Option<Args>)
    ensures Plan(e, ToolCatalog.Name(id), args) == Handler(e, id, args)
  {
    match id
    case ListCollections =>
    case ListSubcollections =>
    case GetDocument =>
    case ListDocuments =>
    case QueryDocuments =>
    case CreateDocument =>
    case UpdateDocument =>
    case DeleteDocument =>
    case CountDocuments =>
  }

  /** A handler reads no argument its catalog entry does not declare. */
  lemma ReadsOnlyDeclared(e: Engine, id: ToolCatalog.ToolId, a: Args)
    ensures Plan(e, ToolCatalog.Name(id), Some(a))
            == Plan(e, ToolCatalog.Name(id), Some(Restrict(a, ToolCatalog.DeclaredKeys(id))))
  {
    SwitchCase(e, id, Some(a));
    SwitchCase(e, id, Some(Restrict(a, ToolCatalog.DeclaredKeys(id))));
    HandlerReadsOnlyDeclared(e, id, a);
  }

  lemma HandlerReadsOnlyDeclared(e: Engine, id: ToolCatalog.ToolId, a: Args)
    ensures Handler(e, id, Some(a)) == Handler(e, id, Some(Restrict(a, ToolCatalog.DeclaredKeys(id))))
  {
    if id.QueryDocuments? {
      QueryReadsOnlyDeclared(e, a);
    } else if id.CreateDocument? || id.UpdateDocument? {
      WriteReadsOnlyDeclared(e, id, a);
    } else {
      PathReadsOnlyDeclared(e, id, a);
    }
  }

  lemma QueryReadsOnlyDeclared(e: Engine, a: Args)
    ensures var id := ToolCatalog.QueryDocuments;
      Handler(e, id, Some(a)) == Handler(e, id, Some(Restrict(a, ToolCatalog.DeclaredKeys(id))))
  {
    QueryKeysKept(a, ToolCatalog.DeclaredKeys(ToolCatalog.QueryDocuments));
  }

  lemma QueryKeysKept(a: Args, keys: set<string>)
    requires keys == ToolCatalog.DeclaredKeys(ToolCatalog.QueryDocuments)
    ensures forall k :: k in ["collectionPath", "field", "operator", "value", "limit"] ==> Prop(Restrict(a, keys), k) == Prop(a, k)
  {
    var id := ToolCatalog.QueryDocuments;
    Keeps(a, keys, ToolCatalog.CollectionPath, ToolCatalog.StringParam, id);
    Keeps(a, keys, ToolCatalog.Field, ToolCatalog.StringParam, id);
    Keeps(a, keys, ToolCatalog.Operator, ToolCatalog.StringParam, id);
    Keeps(a, keys, ToolCatalog.Value, ToolCatalog.StringParam, id);
    Keeps(a, keys, ToolCatalog.Limit, ToolCatalog.NumberParam, id);
  }

  lemma WriteReadsOnlyDeclared(e: Engine, id: ToolCatalog.ToolId, a: Args)
    requires id.CreateDocument? || id.UpdateDocument?
    ensures Handler(e, id, Some(a)) == Handler(e, id, Some(Restrict(a, ToolCatalog.DeclaredKeys(id))))
  {
    if id.CreateDocument? {
      CreateReadsOnlyDeclared(e, a);
    } else {
      UpdateReadsOnlyDeclared(e, a);
    }
  }

  lemma CreateReadsOnlyDeclared(e: Engine, a: Args)
    ensures var id := ToolCatalog.CreateDocument;
      Handler(e, id, Some(a)) == Handler(e, id, Some(Restrict(a, ToolCatalog.DeclaredKeys(id))))
  {
    var id := ToolCatalog.CreateDocument;
    var keys := ToolCatalog.DeclaredKeys(id);
    Keeps(a, keys, ToolCatalog.CollectionPath, ToolCatalog.StringParam, id);
    Keeps(a, keys, ToolCatalog.DocumentId, ToolCatalog.StringParam, id);
    Keeps(a, keys, ToolCatalog.Data, ToolCatalog.StringParam, id);
  }

  lemma UpdateReadsOnlyDeclared(e: Engine, a: Args)
    ensures var id := ToolCatalog.UpdateDocument;
      Handler(e, id, Some(a)) == Handler(e, id, Some(Restrict(a, ToolCatalog.DeclaredKeys(id))))
  {
    var id := ToolCatalog.UpdateDocument;
    var keys := ToolCatalog.DeclaredKeys(id);
    Keeps(a, keys, ToolCatalog.DocumentPath, ToolCatalog.StringParam, id);
    Keeps(a, keys, ToolCatalog.Data, ToolCatalog.StringParam, id);
    Keeps(a, keys, ToolCatalog.Merge, ToolCatalog.BooleanParam, id);
  }

  lemma PathReadsOnlyDeclared(e: Engine, id: ToolCatalog.ToolId, a: Args)
    requires !(id.QueryDocuments? || id.CreateDocument? || id.UpdateDocument?)
    ensures Handler(e, id, Some(a)) == Handler(e, id, Some(Restrict(a, ToolCatalog.DeclaredKeys(id))))
  {
    var keys := ToolCatalog.DeclaredKeys(id);
    match id
    case ListCollections =>
    case ListSubcollections =>
      Keeps(a, keys, ToolCatalog.DocumentPath, ToolCatalog.StringParam, id);
    case GetDocument =>
      Keeps(a, keys, ToolCatalog.DocumentPath, ToolCatalog.StringParam, id);
    case DeleteDocument =>
      Keeps(a, keys, ToolCatalog.DocumentPath, ToolCatalog.StringParam, id);
    case ListDocuments =>
      Keeps(a, keys, ToolCatalog.CollectionPath, ToolCatalog.StringParam, id);
      Keeps(a, keys, ToolCatalog.Limit, ToolCatalog.NumberParam, id);
    case CountDocuments =>
      Keeps(a, keys, ToolCatalog.CollectionPath, ToolCatalog.StringParam, id);
  }
}
