# tap-shopify stream definitions in Dafny

This project models `tap_shopify/streams.py`, the stream classes of the
Shopify tap. A stream is one Shopify resource (orders, refunds, locations and
so on) that the tap pages through and emits as records.

The model has two parts.

**The stream registry** (`registry.dfy`, module `Registry`). The fourteen
stream classes become a table of descriptors. Each descriptor holds the
`name`, the records JSONPath, the primary keys, the replication key and
`ignore_parent_replication_key`. The `path` attribute is a template of
literal text and `{name}` placeholders. The `parent_stream_type` attribute is
a table of its own.

- Parent references are a `StreamId` enumeration, so every parent is a
  declared stream by construction.
- OrderMetafieldsStream subclasses MetafieldsStream. The attributes it
  inherits are written out in its row.
- Proved about the table:
  - stream names are pairwise distinct;
  - following parents always ends at a root, and the chain never revisits a
    stream;
  - the forest is at most two edges deep;
  - every placeholder in a child's path is a key of the context that its
    parent's `get_child_context` builds.

**The per-stream hooks** (`hooks.dfy`, module `Hooks`):

- `get_child_context` of locations, inventory_levels and orders;
- `get_url_params` of collects, inventory_levels and orders;
- `OrdersStream.post_process`, which converts ten monetary fields to
  `Decimal`;
- `RefundsStream.read_records`, which reads nothing without a context.

Records, contexts and URL parameters are string-keyed dictionaries of scalar
values. `python_values.dfy` (module `PyValues`) gives the Python semantics the
hooks rely on:

- truthiness;
- `dict.get` and `d[key]` with `KeyError`;
- the `<` operator, which raises `TypeError` between unrelated types;
- the `Decimal` constructor.

A `Decimal` is an exact `real`. Parsing `Decimal(str)` is a parameter of the
model: a partial function from text to an exact value. A string it rejects
raises `InvalidOperation`.

Anything the base class computes is a parameter of the model:

- the result of `super().get_url_params`;
- `get_context_state(context)`;
- the row handed back by `super().post_process`;
- what `super().read_records` returns.

Where a hook writes into the dictionary it received, the model returns the
updated dictionary as a new value.

Two behaviours of the code are worth stating plainly:

- An order drives its child streams only when `current_total_price <
  total_price`. The comparison is strict: equal totals, or a current total
  above the original, derive no context.
- On the first page, collects sets `since_id` to the stored
  `replication_key_value` even when there is none. The key is then present
  with the value `None`; it is not omitted.

## Model

| member | source | states |
|---|---|---|
| Registry.Descriptor | tap_shopify/streams.py:17-239 | The `name`, `records_jsonpath`, `primary_keys`, `replication_key` (the base's `None` where unset) and `ignore_parent_replication_key` (the base's `false` where unset) of every class. Every stream has exactly one primary key, and the flag is set only on a stream that has a parent |
| Registry.Template | tap_shopify/streams.py:21-236 | The `path` attribute of every class as literal text and `{name}` placeholders; `Path` renders it back to the declared string. Its placeholders are stated by PathPlaceholders |
| Registry.Parent | tap_shopify/streams.py:90-223 | The `parent_stream_type` of every class, `None` where unset. Only locations, inventory_levels and orders are ever parents |
| Registry.AllStreamsInOrder | tap_shopify/streams.py:17-239 | The list of all fourteen streams holds each stream at its declaration index |
| Registry.NamesDistinct | tap_shopify/streams.py:20-235 | Any two different streams have different names, so `order_metafields` never shares name-keyed state with `metafields` |
| Registry.OrderMetafieldsInherits | tap_shopify/streams.py:200-206 | order_metafields has the records path, primary key and `updated_at` replication key of metafields, but its own name, its parent orders (metafields has none), its own path, and `ignore_parent_replication_key` true where metafields has false |
| Registry.ParentPrecedes | tap_shopify/streams.py:90-223 | Every parent class is declared before its child, so declaration order is a topological order of the parent relation |
| Registry.Lineage | tap_shopify/streams.py:90-223 | The chain of `parent_stream_type` links from any stream is finite. It starts at the stream, links each element to its parent, ends at a stream without a parent and never revisits a stream |
| Registry.LineageLength | tap_shopify/streams.py:90-223 | The chain from a stream to its root has exactly one more element than the stream's depth |
| Registry.OnlyGrandchild | tap_shopify/streams.py:90-115 | The only stream whose parent also has a parent is inventory_items: inventory_items → inventory_levels → locations, and locations is a root |
| Registry.DepthAtMostTwo | tap_shopify/streams.py:90-223 | Every stream is at most two parent edges from its root, and exactly two only for inventory_items |
| Registry.PlaceholdersOfRender | tap_shopify/streams.py:118 | Scanning a rendered path for `{name}` placeholders yields exactly the template's placeholders |
| Registry.PathPlaceholders | tap_shopify/streams.py:118-226 | Roots and inventory_levels have no placeholder. inventory_items has exactly `{inventory_item_id}`. Each child of orders has exactly `{order_id}` |
| Hooks.LocationsChildContext | tap_shopify/streams.py:82-84 | The context is the single-key map `{"location_id": record["id"]}`. Its only failure is a KeyError when the record has no `id` |
| Hooks.InventoryLevelsChildContext | tap_shopify/streams.py:98-100 | The context is the single-key map `{"inventory_item_id": record["inventory_item_id"]}`. Its only failure is a KeyError for that key |
| Hooks.OrdersChildContext | tap_shopify/streams.py:164-169 | The result is `{"order_id": record["id"]}` exactly when `current_total_price < total_price` holds and `id` is present. It is `None` exactly when the comparison is false, equal totals included. A missing `current_total_price`, `total_price` or `id` raises KeyError for that key. Totals that cannot be compared raise TypeError |
| Hooks.ChildContext | tap_shopify/streams.py:82-169 | get_child_context of the three classes that define it. Locations and inventory_levels always derive a context when they do not raise. A derived context has the single key `location_id`, `inventory_item_id` or `order_id` respectively |
| Hooks.ParentContextCoversChild | tap_shopify/streams.py:82-226 | A root reads no context key. A parent always has a `get_child_context` hook. When the parent derives a context, it holds every key the child's path and URL parameters read |
| Hooks.CollectUrlParams | tap_shopify/streams.py:38-48 | A later page keeps the base parameters unchanged. On the first page, `since_id` is added: the stored `replication_key_value`, or `None` when there is none. No other key changes |
| Hooks.InventoryLevelsUrlParams | tap_shopify/streams.py:102-109 | A later page keeps the base parameters. On the first page, `location_ids` is set to `context["location_id"]`. A missing context raises TypeError and a missing key raises KeyError. No other key changes |
| Hooks.OrdersUrlParams | tap_shopify/streams.py:171-178 | A later page keeps the base parameters. On the first page, `status` is set to `"any"` and no other key changes |
| Hooks.UrlParams | tap_shopify/streams.py:38-178 | For every stream, a truthy page token gives exactly the base parameters. The first page only adds or overwrites the stream's own keys. Only inventory_levels can raise |
| Hooks.MoneyFieldsDistinct | tap_shopify/streams.py:150-160 | The ten converted fields are ten different keys |
| Hooks.FirstCoercionError | tap_shopify/streams.py:150-160 | Converting keys in turn raises nothing exactly when every key is present and parses. Otherwise it raises the exception of the first key that fails |
| Hooks.CoerceInTurn | tap_shopify/streams.py:150-160 | Assigning `row[key] = Decimal(row[key])` for each distinct key in turn either raises the first failing key's exception or yields the row with exactly those keys converted |
| Hooks.PostProcess | tap_shopify/streams.py:145-162 | post_process returns a falsy row as it is. Otherwise it converts the ten fields in source order, stopping at the first exception; the result is NormalizeOrder |
| Hooks.NormalizeOrderSpec | tap_shopify/streams.py:145-162 | On a truthy row, post_process succeeds exactly when all ten fields are present and parse. It keeps the key set, replaces those ten fields with their exact values and leaves every other field unchanged. A missing field raises, and the exception is that of the first failing field |
| Hooks.NormalizeOrderIdempotent | tap_shopify/streams.py:145-162 | Post-processing a converted order again returns it unchanged |
| Hooks.ContextOfCoercedRow | tap_shopify/streams.py:164-169 | On a row whose totals are converted and whose `id` is not, get_child_context compares the exact totals |
| Hooks.OrdersContextAfterPostProcess | tap_shopify/streams.py:145-169 | On a post-processed order, a context naming the order is derived exactly when the exact current total is strictly below the exact original total. None is derived otherwise, equal totals included |
| Hooks.RefundsReadRecords | tap_shopify/streams.py:193-197 | read_records returns nothing without a context. With one, it returns exactly what the base reader returns |

## Left out

- The base class `tap_shopifyStream` (`tap_shopify/client.py`) and the Singer
  SDK behind it are not part of this model. This covers pagination,
  bookmarks, the parent-to-child traversal, HTTP requests and
  authentication. Their results enter the model as parameters.
- Base-class defaults are taken to be `None` for `replication_key` and
  `parent_stream_type`, and `false` for `ignore_parent_replication_key`.
- `records_jsonpath` is evaluated by a JSONPath library, so the model keeps it
  as text.
- `schema_filepath` and `SCHEMAS_DIR` are left out: they are file-system
  locations of JSON schemas.
- The module logger is left out; it has no behaviour.
- How `Decimal(str)` parses text is a parameter, not a model. Special values
  (`NaN`, infinities, signed zero) and Decimal contexts are not represented.
- Record values are scalars only: `None`, booleans, integers, strings and
  exact decimals. Floats, lists and nested objects are not represented.
- Hooks.PostProcess: the row is a value. When a conversion raises midway,
  Python has already overwritten the earlier fields of the caller's
  dictionary in place. The model returns only the exception, not that
  partially converted dictionary.
- Hooks.CollectUrlParams: the `None` value of `since_id` is kept in the
  parameters. Whether the HTTP layer drops `None`-valued parameters belongs
  to the library and is not modelled.
- Hooks.InventoryLevelsUrlParams and the other `get_url_params` methods: the
  parameter dictionary is a value. Aliasing between it and the base class's
  own state is not modelled.
- Hooks.RefundsReadRecords: the base reader is a function of the context
  only. `sync_mode`, `stream_slice` and `stream_state` are passed through
  unchanged and not represented.
