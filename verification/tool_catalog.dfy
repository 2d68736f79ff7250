/** The static list of tool descriptors returned for a tool-listing request. */
module ToolCatalog {
  import opened Wrappers

  /** The nine tools, one constructor each. */
  datatype ToolId =
    | ListCollections | ListSubcollections | GetDocument | ListDocuments | QueryDocuments
    | CreateDocument | UpdateDocument | DeleteDocument | CountDocuments

  /** The input properties that occur in some tool's schema. */
  datatype Property =
    | DocumentPath | CollectionPath | Limit | Field | Operator | Value | DocumentId | Data | Merge

  datatype ParamType = StringParam | NumberParam | BooleanParam

  /** One declared input property of a tool. */
  datatype Param = Param(property: Property, kind: ParamType, description: string)

  /** A tool descriptor: an object input schema with its properties and required property names. */
  datatype Tool = Tool(id: ToolId, description: string, properties: seq<Param>, required: seq<Property>)

  /** The name a tool is listed and called by. */
  function Name(id: ToolId): string {
    match id
    case ListCollections => "list_collections"
    case ListSubcollections => "list_subcollections"
    case GetDocument => "get_document"
    case ListDocuments => "list_documents"
    case QueryDocuments => "query_documents"
    case CreateDocument => "create_document"
    case UpdateDocument => "update_document"
    case DeleteDocument => "delete_document"
    case CountDocuments => "count_documents"
  }

  /** The argument key of a property. */
  function Key(p: Property): string {
    match p
    case DocumentPath => "documentPath"
    case CollectionPath => "collectionPath"
    case Limit => "limit"
    case Field => "field"
    case Operator => "operator"
    case Value => "value"
    case DocumentId => "documentId"
    case Data => "data"
    case Merge => "merge"
  }

  lemma NamesDistinct(a: ToolId, b: ToolId)
    ensures Name(a) == Name(b) <==> a == b
  {
  }

  lemma KeysDistinct(p: Property, q: Property)
    ensures Key(p) == Key(q) <==> p == q
  {
  }

  function Description(id: ToolId): string {
    match id
    case ListCollections => "List all top-level collections in Firestore"
    case ListSubcollections => "List subcollections of a document"
    case GetDocument => "Get a single document by path"
    case ListDocuments => "List documents in a collection with optional limit"
    case QueryDocuments => "Query documents with filters"
    case CreateDocument => "Create a new document in a collection"
    case UpdateDocument => "Update an existing document"
    case DeleteDocument => "Delete a document"
    case CountDocuments => "Count documents in a collection"
  }

  /** The description a tool's schema gives a property. */
  function Hint(id: ToolId, p: Property): string {
    match p
    case DocumentPath =>
      if id == UpdateDocument then "Path to the document"
      else if id == DeleteDocument then "Path to the document to delete"
      else "Path to the document (e.g., 'users/userId123')"
    case CollectionPath =>
      if id == ListDocuments then "Path to the collection (e.g., 'users' or 'users/userId123/notes')"
      else "Path to the collection"
    case Limit => "Maximum number of documents to return (default: 20)"
    case Field => "Field to filter on"
    case Operator => "Comparison operator (==, !=, <, <=, >, >=, array-contains, in, array-contains-any)"
    case Value => "Value to compare against (use JSON for arrays/objects)"
    case DocumentId => "Optional document ID (auto-generated if not provided)"
    case Data =>
      if id == UpdateDocument then "JSON string of the fields to update" else "JSON string of the document data"
    case Merge => "If true, merge with existing data. If false, replace entirely (default: true)"
  }

  /** The declared properties of a tool, in schema order, with their types. */
  function Declares(id: ToolId): seq<(Property, ParamType)> {
    match id
    case ListCollections => []
    case ListSubcollections => [(DocumentPath, StringParam)]
    case GetDocument => [(DocumentPath, StringParam)]
    case ListDocuments => [(CollectionPath, StringParam), (Limit, NumberParam)]
    case QueryDocuments =>
      [(CollectionPath, StringParam), (Field, StringParam), (Operator, StringParam),
       (Value, StringParam), (Limit, NumberParam)]
    case CreateDocument => [(CollectionPath, StringParam), (DocumentId, StringParam), (Data, StringParam)]
    case UpdateDocument => [(DocumentPath, StringParam), (Data, StringParam), (Merge, BooleanParam)]
    case DeleteDocument => [(DocumentPath, StringParam)]
    case CountDocuments => [(CollectionPath, StringParam)]
  }

  function Required(id: ToolId): seq<Property> {
    match id
    case ListCollections => []
    case QueryDocuments => [CollectionPath, Field, Operator, Value]
    case CreateDocument => [CollectionPath, Data]
    case UpdateDocument => [DocumentPath, Data]
    case ListSubcollections => [DocumentPath]
    case GetDocument => [DocumentPath]
    case DeleteDocument => [DocumentPath]
    case ListDocuments => [CollectionPath]
    case CountDocuments => [CollectionPath]
  }

  function Params(id: ToolId, ds: seq<(Property, ParamType)>): (ps: seq<Param>)
    ensures |ps| == |ds|
    ensures forall i :: 0 <= i < |ds| ==> ps[i] == Param(ds[i].0, ds[i].1, Hint(id, ds[i].0))
  {
    if ds == [] then [] else [Param(ds[0].0, ds[0].1, Hint(id, ds[0].0))] + Params(id, ds[1..])
  }

  /** The descriptor of a tool. */
  function Descriptor(id: ToolId): Tool {
    Tool(id, Description(id), Params(id, Declares(id)), Required(id))
  }

  /** The order in which the catalog lists the tools. */
  const Order: seq<ToolId> := [ListCollections, ListSubcollections, GetDocument, ListDocuments,
    QueryDocuments, CreateDocument, UpdateDocument, DeleteDocument, CountDocuments]

  /** The catalog, as listed. */
  function Tools(): (ts: seq<Tool>)
    ensures |ts| == |Order|
    ensures forall i :: 0 <= i < |Order| ==> ts[i] == Descriptor(Order[i])
  {
    seq(|Order|, i requires 0 <= i < |Order| => Descriptor(Order[i]))
  }

  /** The tool names, in catalog order. */
  function ToolNames(): (ns: seq<string>)
    ensures |ns| == |Order|
    ensures forall i :: 0 <= i < |Order| ==> ns[i] == Name(Order[i])
  {
    ["list_collections", "list_subcollections", "get_document", "list_documents", "query_documents",
     "create_document", "update_document", "delete_document", "count_documents"]
  }

  predicate Distinct<T(==)>(xs: seq<T>) {
    forall i, j :: 0 <= i < j < |xs| ==> xs[i] != xs[j]
  }

  function PropertiesOf(t: Tool): (r: seq<Property>)
    ensures |r| == |t.properties|
    ensures forall i :: 0 <= i < |r| ==> r[i] == t.properties[i].property
  {
    seq(|t.properties|, i requires 0 <= i < |t.properties| => t.properties[i].property)
  }

  /** The properties in a declaration list, in order. */
  function Firsts(ds: seq<(Property, ParamType)>): (r: seq<Property>)
    ensures |r| == |ds|
    ensures forall i :: 0 <= i < |r| ==> r[i] == ds[i].0
  {
    if ds == [] then [] else [ds[0].0] + Firsts(ds[1..])
  }

  /** Every required property is declared, and no property is declared twice. */
  predicate WellFormedSchema(t: Tool) {
    && Distinct(PropertiesOf(t))
    && forall r :: r in t.required ==> r in PropertiesOf(t)
  }

  /** Every tool appears in the catalog. */
  lemma Listed(id: ToolId)
    ensures id in Order
  {
    match id
    case ListCollections => assert Order[0] == id;
    case ListSubcollections => assert Order[1] == id;
    case GetDocument => assert Order[2] == id;
    case ListDocuments => assert Order[3] == id;
    case QueryDocuments => assert Order[4] == id;
    case CreateDocument => assert Order[5] == id;
    case UpdateDocument => assert Order[6] == id;
    case DeleteDocument => assert Order[7] == id;
    case CountDocuments => assert Order[8] == id;
  }

  /** The catalog lists nine tools under nine distinct names. */
  lemma NineDistinctNames()
    ensures |Tools()| == 9 && |ToolNames()| == 9
    ensures Distinct(ToolNames())
  {
    var ns := ToolNames();
    forall i, j | 0 <= i < j < |ns|
      ensures ns[i] != ns[j]
    {
      NamesDistinct(Order[i], Order[j]);
    }
  }

  /** A descriptor's schema lists the tool's declared properties, in order. */
  lemma DescriptorProperties(id: ToolId)
    ensures PropertiesOf(Descriptor(id)) == Firsts(Declares(id))
  {
  }

  /** Each tool declares every property once and requires only declared properties. */
  lemma SchemaWellFormed(id: ToolId)
    ensures WellFormedSchema(Descriptor(id))
  {
    DescriptorProperties(id);
    DeclarationsWellFormed(id);
  }

  lemma DeclarationsWellFormed(id: ToolId)
    ensures Distinct(Firsts(Declares(id)))
    ensures forall r :: r in Required(id) ==> r in Firsts(Declares(id))
  {
    if id.QueryDocuments? || id.CreateDocument? || id.UpdateDocument? {
      WideDeclarationsWellFormed(id);
    } else {
      NarrowDeclarationsWellFormed(id);
    }
  }

  lemma WideDeclarationsWellFormed(id: ToolId)
    requires id.QueryDocuments? || id.CreateDocument? || id.UpdateDocument?
    ensures Distinct(Firsts(Declares(id)))
    ensures forall r :: r in Required(id) ==> r in Firsts(Declares(id))
  {
    var ps := Firsts(Declares(id));
    if id.QueryDocuments? {
      assert ps == [CollectionPath, Field, Operator, Value, Limit];
    } else if id.CreateDocument? {
      assert ps == [CollectionPath, DocumentId, Data];
    } else {
      assert ps == [DocumentPath, Data, Merge];
    }
  }

  lemma NarrowDeclarationsWellFormed(id: ToolId)
    requires !(id.QueryDocuments? || id.CreateDocument? || id.UpdateDocument?)
    ensures Distinct(Firsts(Declares(id)))
    ensures forall r :: r in Required(id) ==> r in Firsts(Declares(id))
  {
    var ps := Firsts(Declares(id));
    match id
    case ListCollections => assert ps == [];
    case ListSubcollections => assert ps == [DocumentPath];
    case GetDocument => assert ps == [DocumentPath];
    case ListDocuments => assert ps == [CollectionPath, Limit];
    case DeleteDocument => assert ps == [DocumentPath];
    case CountDocuments => assert ps == [CollectionPath];
  }

  /** The tool a name selects, if any. */
  function Lookup(name: string): (r: Option<ToolId>)
    ensures r.Some? ==> Name(r.value) == name
    ensures r.None? ==> name !in ToolNames()
  {
    LookupIn(Order, name)
  }

  function LookupIn(ids: seq<ToolId>, name: string): (r: Option<ToolId>)
    ensures r.Some? ==> Name(r.value) == name && r.value in ids
    ensures r.None? ==> forall i :: 0 <= i < |ids| ==> Name(ids[i]) != name
  {
    if ids == [] then None
    else if Name(ids[0]) == name then Some(ids[0])
    else LookupIn(ids[1..], name)
  }

  /** The argument keys a tool declares. */
  function DeclaredKeys(id: ToolId): set<string> {
    set p | p in Declares(id) :: Key(p.0)
  }
}
