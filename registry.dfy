/**
 The fourteen stream classes of `tap_shopify/streams.py` as a table of
 descriptors. A parent reference is a reference to a stream class, so it is
 modelled as a `StreamId`; attributes a class inherits are resolved
 explicitly (order_metafields takes its record path, primary key and
 replication key from metafields).
 */
module Registry {
  import opened PyValues

  /** One constructor per stream class, in the order the classes are declared. */
  datatype StreamId =
    | AbandonedCheckouts | Collects | CustomCollections | Customers | Locations
    | InventoryLevels | InventoryItems | Metafields | Orders | Refunds
    | OrderMetafields | Products | Transactions | Users

  /** Literal text of a path: it never opens a placeholder. */
  type PathText = s: string | '{' !in s

  /** The name inside a placeholder: it never closes the placeholder early. */
  type HoleName = s: string | '}' !in s

  /** A piece of a path template: literal text, or a `{name}` placeholder filled from the context. */
  datatype PathPart = Text(text: PathText) | Hole(name: HoleName)

  type PathTemplate = seq<PathPart>

  /** The template as the `path` string the class declares. */
  function Render(t: PathTemplate): string {
    if t == [] then ""
    else
      var head := match t[0] case Text(text) => text case Hole(name) => "{" + name + "}";
      head + Render(t[1..])
  }

  function Holes(t: PathTemplate): set<string> {
    if t == [] then {}
    else (if t[0].Hole? then {t[0].name} else {}) + Holes(t[1..])
  }

  /** The declarative class attributes of one stream. */
  datatype StreamDescriptor = StreamDescriptor(
    name: string,
    recordsJsonPath: string,   // evaluated by the JSONPath library; kept as text
    primaryKeys: seq<string>,
    replicationKey: Option<string>,
    ignoreParentReplicationKey: bool)

  /**
   The class attributes of every stream. A class that does not set
   `replication_key` or `ignore_parent_replication_key` keeps the base
   class's `None` and `false`. OrderMetafieldsStream subclasses
   MetafieldsStream: its record path, primary key and replication key are the
   inherited ones (see OrderMetafieldsInherits).
   */
  function Descriptor(s: StreamId): (d: StreamDescriptor)
    ensures |d.primaryKeys| == 1
    ensures d.ignoreParentReplicationKey ==> Parent(s).Some?
  {
    match s
    case AbandonedCheckouts => StreamDescriptor("abandoned_checkouts",
      "$.checkouts[*]", ["id"], Some("updated_at"), false)
    case Collects => StreamDescriptor("collects",
      "$.collects[*]", ["id"], Some("id"), false)
    case CustomCollections => StreamDescriptor("custom_collections",
      "$.custom_collections[*]", ["id"], Some("updated_at"), false)
    case Customers => StreamDescriptor("customers",
      "$.customers[*]", ["id"], Some("updated_at"), false)
    case Locations => StreamDescriptor("locations",
      "$.locations[*]", ["id"], None, false)
    case InventoryLevels => StreamDescriptor("inventory_levels",
      "$.inventory_levels[*]", ["inventory_item_id"], None, false)
    case InventoryItems => StreamDescriptor("inventory_items",
      "$.inventory_item", ["id"], None, false)
    case Metafields => StreamDescriptor("metafields",
      "$.metafields[*]", ["id"], Some("updated_at"), false)
    case Orders => StreamDescriptor("orders",
      "$.orders[*]", ["id"], Some("updated_at"), false)
    case Refunds => StreamDescriptor("refunds",
      "$.refunds[*]", ["id"], Some("created_at"), false)
    case OrderMetafields => StreamDescriptor("order_metafields",
      "$.metafields[*]", ["id"], Some("updated_at"), true)
    case Products => StreamDescriptor("products",
      "$.products[*]", ["id"], Some("updated_at"), false)
    case Transactions => StreamDescriptor("transactions",
      "$.transactions[*]", ["id"], None, false)
    case Users => StreamDescriptor("users",
      "$.users[*]", ["id"], None, false)
  }

  /**
   The `path` attribute of every stream as a template: literal text and the
   `{name}` placeholders that the base class fills from the context.
   */
  function Template(s: StreamId): PathTemplate {
    match s
    case AbandonedCheckouts => [Text("/checkouts.json")]
    case Collects => [Text("/collects.json")]
    case CustomCollections => [Text("/custom_collections.json")]
    case Customers => [Text("/customers.json")]
    case Locations => [Text("/locations.json")]
    case InventoryLevels => [Text("/inventory_levels.json")]
    case InventoryItems => [Text("/inventory_items/"), Hole("inventory_item_id"), Text(".json")]
    case Metafields => [Text("/metafields.json")]
    case Orders => [Text("/orders.json")]
    case Refunds => [Text("/orders/"), Hole("order_id"), Text("/refunds.json")]
    case OrderMetafields => [Text("/orders/"), Hole("order_id"), Text("/metafields.json")]
    case Products => [Text("/products.json")]
    case Transactions => [Text("/orders/"), Hole("order_id"), Text("/transactions.json")]
    case Users => [Text("/users.json")]
  }

  /** The `path` attribute of a stream, as the class declares it. */
  function Path(s: StreamId): string {
    Render(Template(s))
  }

  /**
   The `parent_stream_type` attribute: the stream whose records drive this
   one's requests. A class that does not set it keeps the base class's `None`.
   */
  function Parent(s: StreamId): (p: Option<StreamId>)
    ensures p.Some? ==> p.value in {Locations, InventoryLevels, Orders}
  {
    match s
    case AbandonedCheckouts => None
    case Collects => None
    case CustomCollections => None
    case Customers => None
    case Locations => None
    case InventoryLevels => Some(Locations)
    case InventoryItems => Some(InventoryLevels)
    case Metafields => None
    case Orders => None
    case Refunds => Some(Orders)
    case OrderMetafields => Some(Orders)
    case Products => None
    case Transactions => Some(Orders)
    case Users => None
  }

  /** Every stream, in declaration order. */
  const AllStreams: seq<StreamId> := [
    AbandonedCheckouts, Collects, CustomCollections, Customers, Locations,
    InventoryLevels, InventoryItems, Metafields, Orders, Refunds,
    OrderMetafields, Products, Transactions, Users]

  /** The position of a stream's class in the module. */
  function Index(s: StreamId): nat {
    match s
    case AbandonedCheckouts => 0
    case Collects => 1
    case CustomCollections => 2
    case Customers => 3
    case Locations => 4
    case InventoryLevels => 5
    case InventoryItems => 6
    case Metafields => 7
    case Orders => 8
    case Refunds => 9
    case OrderMetafields => 10
    case Products => 11
    case Transactions => 12
    case Users => 13
  }

  /** No two streams share a name, so state keyed by stream name cannot collide. */
  lemma NamesDistinct(a: StreamId, b: StreamId)
    requires a != b
    ensures Descriptor(a).name != Descriptor(b).name
  {
  }

  /** order_metafields inherits its record path and keys from metafields and overrides the rest. */
  lemma OrderMetafieldsInherits()
    ensures Descriptor(OrderMetafields).recordsJsonPath == Descriptor(Metafields).recordsJsonPath
    ensures Descriptor(OrderMetafields).primaryKeys == Descriptor(Metafields).primaryKeys
    ensures Descriptor(OrderMetafields).replicationKey == Descriptor(Metafields).replicationKey == Some("updated_at")
    ensures Descriptor(OrderMetafields).name != Descriptor(Metafields).name
    ensures Parent(OrderMetafields) == Some(Orders) && Parent(Metafields) == None
    ensures Descriptor(OrderMetafields).ignoreParentReplicationKey && !Descriptor(Metafields).ignoreParentReplicationKey
    ensures Path(OrderMetafields) != Path(Metafields)
  {
    PathPlaceholders(OrderMetafields);
    PathPlaceholders(Metafields);
  }

  /** Every parent class is declared before its child, so declaration order is a topological order. */
  lemma ParentPrecedes(s: StreamId)
    ensures Parent(s).Some? ==> Index(Parent(s).value) < Index(s)
  {
  }

  /**
   The chain obtained by following `parent_stream_type` from `s`: it starts at
   `s`, each element is the parent of the one before, it ends at a stream
   without a parent, and it never revisits a stream.
   */
  function Lineage(s: StreamId): (l: seq<StreamId>)
    decreases Index(s)
    ensures |l| >= 1 && l[0] == s
    ensures Parent(l[|l| - 1]).None?
    ensures forall i :: 0 <= i < |l| - 1 ==> Parent(l[i]) == Some(l[i + 1])
    ensures forall i, j :: 0 <= i < j < |l| ==> Index(l[j]) < Index(l[i])
  {
    match Parent(s)
    case None => [s]
    case Some(p) =>
      ParentPrecedes(s);
      [s] + Lineage(p)
  }

  /** The number of parent edges between `s` and its root. */
  function Depth(s: StreamId): nat
    decreases Index(s)
  {
    match Parent(s)
    case None => 0
    case Some(p) =>
      ParentPrecedes(s);
      1 + Depth(p)
  }

  /** AllStreams lists every stream once, at its declaration index. */
  lemma AllStreamsInOrder(s: StreamId)
    ensures |AllStreams| == 14 && AllStreams[Index(s)] == s
  {
  }

  /** A lineage is one stream longer than the number of parent edges it follows. */
  lemma {:induction false} LineageLength(s: StreamId)
    ensures |Lineage(s)| == Depth(s) + 1
    decreases Index(s)
  {
    match Parent(s)
    case None =>
    case Some(p) =>
      ParentPrecedes(s);
      LineageLength(p);
  }

  /** inventory_items is the only stream whose parent has a parent, and locations has none. */
  lemma OnlyGrandchild(s: StreamId)
    requires Parent(s).Some? && Parent(Parent(s).value).Some?
    ensures s == InventoryItems
    ensures Parent(s) == Some(InventoryLevels) && Parent(InventoryLevels) == Some(Locations) && Parent(Locations).None?
  {
  }

  /** The forest is at most two edges deep, and the deepest chain is inventory_items, inventory_levels, locations. */
  lemma DepthAtMostTwo(s: StreamId)
    ensures Depth(s) <= 2
    ensures Depth(s) == 2 <==> s == InventoryItems
  {
    match Parent(s)
    case None =>
    case Some(p) =>
      match Parent(p)
      case None =>
      case Some(q) =>
        OnlyGrandchild(s);
  }

  /**
   The `{name}` placeholders of a path template: every maximal run of
   characters between a `{` and the next `}`.
   */
  function Placeholders(path: string): set<string>
    decreases |path|
  {
    if path == [] then {}
    else if path[0] != '{' then Placeholders(path[1..])
    else
      var close := CloseBrace(path[1..]);
      if close.None? then {}
      else {path[1..][..close.value]} + Placeholders(path[1..][close.value + 1..])
  }

  /** The index of the first `}` in `s`, if there is one. */
  function CloseBrace(s: string): (r: Option<nat>)
    ensures r.Some? ==> r.value < |s|
  {
    if s == [] then None
    else if s[0] == '}' then Some(0)
    else
      var rest := CloseBrace(s[1..]);
      if rest.None? then None else Some(rest.value + 1)
  }

  /** A prefix without `{` contributes no placeholder. */
  lemma {:induction false} BraceFreePrefix(a: string, b: string)
    requires '{' !in a
    ensures Placeholders(a + b) == Placeholders(b)
    decreases |a|
  {
    if a != [] {
      assert (a + b)[0] == a[0] && a[0] in a;
      assert (a + b)[1..] == a[1..] + b;
      BraceFreePrefix(a[1..], b);
    } else {
      assert a + b == b;
    }
  }

  lemma {:induction false} CloseBraceAfter(name: string, rest: string)
    requires '}' !in name
    ensures CloseBrace(name + "}" + rest) == Some(|name|)
    decreases |name|
  {
    if name != [] {
      assert (name + "}" + rest)[1..] == name[1..] + "}" + rest;
      CloseBraceAfter(name[1..], rest);
    }
  }

  /** A `{name}` hole contributes exactly `name`. */
  lemma HoleFirst(name: string, rest: string)
    requires '}' !in name
    ensures Placeholders("{" + name + "}" + rest) == {name} + Placeholders(rest)
  {
    var path := "{" + name + "}" + rest;
    assert path[1..] == name + "}" + rest;
    CloseBraceAfter(name, rest);
    assert path[1..][..|name|] == name;
    assert path[1..][|name| + 1..] == rest;
  }

  /** Parsing a rendered template back yields exactly its holes. */
  lemma {:induction false} PlaceholdersOfRender(t: PathTemplate)
    ensures Placeholders(Render(t)) == Holes(t)
  {
    if t != [] {
      assert Render(t) == Render([t[0]]) + Render(t[1..]);
      PlaceholdersOfRender(t[1..]);
      match t[0]
      case Text(text) =>
        BraceFreePrefix(text, Render(t[1..]));
      case Hole(name) =>
        HoleFirst(name, Render(t[1..]));
    }
  }

  /**
   The placeholders of every path: none in a root's path nor in
   inventory_levels', `inventory_item_id` in inventory_items', and `order_id`
   in the path of every child of orders.
   */
  lemma PathPlaceholders(s: StreamId)
    ensures Parent(s).None? ==> Placeholders(Path(s)) == {}
    ensures s == InventoryLevels ==> Placeholders(Path(s)) == {}
    ensures s == InventoryItems ==> Placeholders(Path(s)) == {"inventory_item_id"}
    ensures Parent(s) == Some(Orders) ==> Placeholders(Path(s)) == {"order_id"}
  {
    if s in {InventoryItems, Refunds, OrderMetafields, Transactions} {
      ChildTemplates(s);
    } else {
      PlainTemplates(s);
    }
    PlaceholdersOfRender(Template(s));
  }

  lemma ChildTemplates(s: StreamId)
    requires s in {InventoryItems, Refunds, OrderMetafields, Transactions}
    ensures Holes(Template(s)) == if s == InventoryItems then {"inventory_item_id"} else {"order_id"}
  {
    var t := Template(s);
    assert t[1..][1..][1..] == [];
    assert Holes(t[1..][1..]) == {};
  }

  lemma PlainTemplates(s: StreamId)
    requires s !in {InventoryItems, Refunds, OrderMetafields, Transactions}
    ensures Holes(Template(s)) == {}
  {
  }
}
