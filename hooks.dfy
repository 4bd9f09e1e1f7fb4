/**
 The per-stream hooks of `tap_shopify/streams.py`: child-context derivation,
 first-page URL parameters, the orders normaliser and the refunds guard.
 Whatever the base class would return (`super().get_url_params`,
 `get_context_state`, `super().post_process`, `super().read_records`) is a
 parameter.
 */
module Hooks {
  import opened PyValues
  import opened Registry

  // ---------------------------------------------------------------------
  // get_child_context
  // ---------------------------------------------------------------------

  /** LocationsStream.get_child_context: `{"location_id": record["id"]}`. */
  function LocationsChildContext(record: Dict): (r: Result<Dict, PyError>)
    ensures r.Ok? <==> "id" in record
    ensures r.Ok? ==> r.value.Keys == {"location_id"} && r.value["location_id"] == record["id"]
    ensures r.Err? ==> r.error == KeyError("id")
  {
    var id :- Subscript(record, "id");
    Ok(map["location_id" := id])
  }

  /** InventoryLevelsStream.get_child_context: `{"inventory_item_id": record["inventory_item_id"]}`. */
  function InventoryLevelsChildContext(record: Dict): (r: Result<Dict, PyError>)
    ensures r.Ok? <==> "inventory_item_id" in record
    ensures r.Ok? ==> r.value.Keys == {"inventory_item_id"} && r.value["inventory_item_id"] == record["inventory_item_id"]
    ensures r.Err? ==> r.error == KeyError("inventory_item_id")
  {
    var item :- Subscript(record, "inventory_item_id");
    Ok(map["inventory_item_id" := item])
  }

  /** Both totals are present and `current_total_price < total_price` evaluates to `outcome`. */
  predicate TotalsCompare(record: Dict, outcome: bool) {
    && "current_total_price" in record
    && "total_price" in record
    && Less(record["current_total_price"], record["total_price"]) == Ok(outcome)
  }

  /**
   OrdersStream.get_child_context: a context naming the order exactly when its
   current total is strictly below its original total, and no context
   otherwise (equal totals included).
   */
  function OrdersChildContext(record: Dict): (r: Result<Option<Dict>, PyError>)
    ensures r == Ok(None) <==> TotalsCompare(record, false)
    ensures (r.Ok? && r.value.Some?) <==> TotalsCompare(record, true) && "id" in record
    ensures r.Ok? && r.value.Some? ==>
      r.value.value.Keys == {"order_id"} && r.value.value["order_id"] == record["id"]
    ensures "current_total_price" !in record ==> r == Err(KeyError("current_total_price"))
    ensures "current_total_price" in record && "total_price" !in record ==> r == Err(KeyError("total_price"))
    ensures ("current_total_price" in record && "total_price" in record
             && Less(record["current_total_price"], record["total_price"]).Err?) ==> r == Err(TypeError)
    ensures TotalsCompare(record, true) && "id" !in record ==> r == Err(KeyError("id"))
  {
    var current :- Subscript(record, "current_total_price");
    var total :- Subscript(record, "total_price");
    var below :- Less(current, total);
    if below then
      var id :- Subscript(record, "id");
      Ok(Some(map["order_id" := id]))
    else
      Ok(None)
  }

  /** The streams whose class overrides get_child_context. */
  predicate HasChildContextHook(s: StreamId) {
    s == Locations || s == InventoryLevels || s == Orders
  }

  /** The context a parent stream derives from one of its records; `None` means the children are not synced for it. */
  function ChildContext(s: StreamId, record: Dict): (r: Result<Option<Dict>, PyError>)
    requires HasChildContextHook(s)
    ensures s != Orders && r.Ok? ==> r.value.Some?
    ensures r.Ok? && r.value.Some? ==>
      (r.value.value.Keys == if s == Locations then {"location_id"}
        else if s == InventoryLevels then {"inventory_item_id"} else {"order_id"})
  {
    if s == Locations then
      var c :- LocationsChildContext(record);
      Ok(Some(c))
    else if s == InventoryLevels then
      var c :- InventoryLevelsChildContext(record);
      Ok(Some(c))
    else
      OrdersChildContext(record)
  }

  /** The context keys a stream reads: the placeholders of its path, plus `location_id` for inventory_levels' URL parameters. */
  function ContextKeysRead(s: StreamId): set<string> {
    Placeholders(Path(s)) + (if s == InventoryLevels then {"location_id"} else {})
  }

  /**
   Every stream that has a parent reads only context keys that its parent's
   get_child_context supplies, whenever the parent supplies a context at all;
   a stream without a parent reads none.
   */
  lemma ParentContextCoversChild(s: StreamId, record: Dict)
    ensures Parent(s).None? ==> ContextKeysRead(s) == {}
    ensures Parent(s).Some? ==> HasChildContextHook(Parent(s).value)
    ensures Parent(s).Some? ==>
      var derived := ChildContext(Parent(s).value, record);
      derived.Ok? && derived.value.Some? ==> ContextKeysRead(s) <= derived.value.value.Keys
  {
    PathPlaceholders(s);
    match Parent(s)
    case None =>
    case Some(p) =>
      if p == Locations {
        assert s == InventoryLevels;
      } else if p == InventoryLevels {
        assert s == InventoryItems;
      } else {
        assert p == Orders;
      }
  }

  // ---------------------------------------------------------------------
  // get_url_params
  // ---------------------------------------------------------------------

  /**
   CollectStream.get_url_params: on the first page, `since_id` is the stored
   `replication_key_value`, and `None` when there is none (the key is set
   either way); later pages keep the base parameters.
   */
  method CollectUrlParams(base: Dict, contextState: Dict, nextPageToken: Value) returns (params: Dict)
    ensures Truthy(nextPageToken) ==> params == base
    ensures !Truthy(nextPageToken) ==> params.Keys == base.Keys + {"since_id"}
    ensures !Truthy(nextPageToken) && "replication_key_value" in contextState ==>
      params["since_id"] == contextState["replication_key_value"]
    ensures !Truthy(nextPageToken) && "replication_key_value" !in contextState ==> params["since_id"] == Null
    ensures forall k :: k in base && k != "since_id" ==> params[k] == base[k]
  {
    params := base;
    if !Truthy(nextPageToken) {
      var lastId := Get(contextState, "replication_key_value");
      params := params["since_id" := lastId];
    }
  }

  /**
   InventoryLevelsStream.get_url_params: on the first page, `location_ids` is
   the context's `location_id`; `context["location_id"]` raises when there is
   no context or no such key.
   */
  method InventoryLevelsUrlParams(base: Dict, context: Option<Dict>, nextPageToken: Value) returns (r: Result<Dict, PyError>)
    ensures Truthy(nextPageToken) ==> r == Ok(base)
    ensures !Truthy(nextPageToken) ==> (r.Ok? <==> context.Some? && "location_id" in context.value)
    ensures !Truthy(nextPageToken) && context.None? ==> r == Err(TypeError)
    ensures !Truthy(nextPageToken) && context.Some? && "location_id" !in context.value ==>
      r == Err(KeyError("location_id"))
    ensures !Truthy(nextPageToken) && r.Ok? ==>
      r.value.Keys == base.Keys + {"location_ids"} && r.value["location_ids"] == context.value["location_id"]
    ensures r.Ok? ==> forall k :: k in base && k != "location_ids" ==> r.value[k] == base[k]
  {
    var params := base;
    if !Truthy(nextPageToken) {
      if context.None? {
        return Err(TypeError);
      }
      if "location_id" !in context.value {
        return Err(KeyError("location_id"));
      }
      params := params["location_ids" := context.value["location_id"]];
    }
    return Ok(params);
  }

  /** OrdersStream.get_url_params: on the first page, `status` is `"any"`. */
  method OrdersUrlParams(base: Dict, nextPageToken: Value) returns (params: Dict)
    ensures Truthy(nextPageToken) ==> params == base
    ensures !Truthy(nextPageToken) ==> params.Keys == base.Keys + {"status"} && params["status"] == Str("any")
    ensures forall k :: k in base && k != "status" ==> params[k] == base[k]
  {
    params := base;
    if !Truthy(nextPageToken) {
      params := params["status" := Str("any")];
    }
  }

  /** The keys a stream's get_url_params may add to the base parameters. */
  function FirstPageParams(s: StreamId): set<string> {
    if s == Collects then {"since_id"}
    else if s == InventoryLevels then {"location_ids"}
    else if s == Orders then {"status"}
    else {}
  }

  /**
   get_url_params of any stream. A later page (a truthy token) gets exactly
   the base parameters; the first page only adds or overwrites the stream's
   own keys; only inventory_levels can raise.
   */
  method UrlParams(s: StreamId, base: Dict, context: Option<Dict>, contextState: Dict, nextPageToken: Value)
    returns (r: Result<Dict, PyError>)
    ensures Truthy(nextPageToken) ==> r == Ok(base)
    ensures r.Ok? ==> base.Keys <= r.value.Keys <= base.Keys + FirstPageParams(s)
    ensures r.Ok? ==> forall k :: k in base && k !in FirstPageParams(s) ==> r.value[k] == base[k]
    ensures r.Err? ==> s == InventoryLevels
  {
    if s == Collects {
      var params := CollectUrlParams(base, contextState, nextPageToken);
      r := Ok(params);
    } else if s == InventoryLevels {
      r := InventoryLevelsUrlParams(base, context, nextPageToken);
    } else if s == Orders {
      var params := OrdersUrlParams(base, nextPageToken);
      r := Ok(params);
    } else {
      r := Ok(base);
    }
  }

  // ---------------------------------------------------------------------
  // OrdersStream.post_process
  // ---------------------------------------------------------------------

  /** The monetary fields post_process converts, in the order it converts them. */
  const MoneyFields: seq<string> := [
    "subtotal_price", "total_price", "total_discounts", "total_line_items_price",
    "total_tax", "total_outstanding",
    "current_subtotal_price", "current_total_discounts", "current_total_price", "current_total_tax"]

  lemma MoneyFieldsDistinct()
    ensures Distinct(MoneyFields)
  {
  }

  /** `Decimal(row[key])` succeeds. */
  predicate Coercible(row: Dict, key: string, parse: DecimalParser) {
    key in row && ToDecimal(row[key], parse).Ok?
  }

  /** What `Decimal(row[key])` raises when it does not succeed. */
  function CoercionError(row: Dict, key: string, parse: DecimalParser): PyError
    requires !Coercible(row, key, parse)
  {
    if key !in row then KeyError(key) else ToDecimal(row[key], parse).error
  }

  /**
   The exception raised when `Decimal(row[key])` is evaluated for each key in
   turn: none when every conversion succeeds, otherwise the one of the first
   key whose conversion fails.
   */
  function FirstCoercionError(row: Dict, keys: seq<string>, parse: DecimalParser): (r: Option<PyError>)
    ensures r.None? <==> forall i :: 0 <= i < |keys| ==> Coercible(row, keys[i], parse)
    ensures r.Some? ==> exists i :: (0 <= i < |keys| && !Coercible(row, keys[i], parse)
      && (forall j :: 0 <= j < i ==> Coercible(row, keys[j], parse))
      && r.value == CoercionError(row, keys[i], parse))
  {
    if keys == [] then None
    else if !Coercible(row, keys[0], parse) then Some(CoercionError(row, keys[0], parse))
    else
      var rest := FirstCoercionError(row, keys[1..], parse);
      if rest.Some? then
        ghost var i :| 0 <= i < |keys[1..]| && !Coercible(row, keys[1..][i], parse)
          && (forall j :: 0 <= j < i ==> Coercible(row, keys[1..][j], parse))
          && rest.value == CoercionError(row, keys[1..][i], parse);
        assert forall j :: 0 <= j < i + 1 ==> Coercible(row, keys[j], parse) by {
          forall j | 0 <= j < i + 1 ensures Coercible(row, keys[j], parse) {
            if j > 0 { assert keys[j] == keys[1..][j - 1]; }
          }
        }
        rest
      else
        assert forall i :: 0 <= i < |keys| ==> Coercible(row, keys[i], parse) by {
          forall i | 0 <= i < |keys| ensures Coercible(row, keys[i], parse) {
            if i > 0 { assert keys[i] == keys[1..][i - 1]; }
          }
        }
        None
  }

  /** Every monetary field is present and holds a decimal-parsable value. */
  predicate MoneyCoercible(row: Dict, parse: DecimalParser) {
    forall k :: k in MoneyFields ==> Coercible(row, k, parse)
  }

  /** The exact value of a field that converts. */
  function MoneyValue(row: Dict, key: string, parse: DecimalParser): real
    requires Coercible(row, key, parse)
  {
    ToDecimal(row[key], parse).value
  }

  /** The row with every field named in `keys` replaced by its exact Decimal value. */
  function CoerceKeys(row: Dict, keys: seq<string>, parse: DecimalParser): Dict
    requires forall k :: k in keys ==> Coercible(row, k, parse)
  {
    map k | k in row :: if k in keys then Dec(MoneyValue(row, k, parse)) else row[k]
  }

  /**
   What OrdersStream.post_process returns for the row the base class handed
   it: a falsy row as it is, otherwise the row with its ten monetary fields
   converted, or the exception of the first conversion that fails.
   */
  function NormalizeOrder(row: Option<Dict>, parse: DecimalParser): Result<Option<Dict>, PyError> {
    if !DictTruthy(row) then Ok(row)
    else
      var failure := FirstCoercionError(row.value, MoneyFields, parse);
      if failure.Some? then Err(failure.value)
      else Ok(Some(CoerceKeys(row.value, MoneyFields, parse)))
  }

  predicate Distinct(keys: seq<string>) {
    forall i, j :: 0 <= i < j < |keys| ==> keys[i] != keys[j]
  }

  /**
   `row[key] = Decimal(row[key])` for each key in turn, stopping at the first
   exception.
   */
  method CoerceInTurn(row: Dict, keys: seq<string>, parse: DecimalParser) returns (r: Result<Dict, PyError>)
    requires Distinct(keys)
    ensures FirstCoercionError(row, keys, parse).Some? ==> r == Err(FirstCoercionError(row, keys, parse).value)
    ensures FirstCoercionError(row, keys, parse).None? ==> r == Ok(CoerceKeys(row, keys, parse))
  {
    var fields := row;
    for i := 0 to |keys|
      invariant forall k :: k in keys[..i] ==> Coercible(row, k, parse)
      invariant fields == CoerceKeys(row, keys[..i], parse)
      invariant FirstCoercionError(row, keys, parse) == FirstCoercionError(row, keys[i..], parse)
    {
      var key := keys[i];
      FirstCoercionErrorStep(row, keys, i, parse);
      UntouchedKey(row, keys, i, parse);
      if key !in fields {
        return Err(KeyError(key));
      }
      var amount := ToDecimal(fields[key], parse);
      if amount.Err? {
        return Err(amount.error);
      }
      CoerceKeysStep(row, keys, i, parse);
      fields := fields[key := Dec(amount.value)];
    }
    assert keys[..|keys|] == keys;
    return Ok(fields);
  }

  /** One more key of the scan: the first error from position `i` on. */
  lemma FirstCoercionErrorStep(row: Dict, keys: seq<string>, i: nat, parse: DecimalParser)
    requires i < |keys|
    ensures FirstCoercionError(row, keys[i..], parse) ==
      if !Coercible(row, keys[i], parse) then Some(CoercionError(row, keys[i], parse))
      else FirstCoercionError(row, keys[i + 1..], parse)
  {
    assert keys[i..][1..] == keys[i + 1..];
  }

  /** A key not yet converted still holds the row's original value. */
  lemma UntouchedKey(row: Dict, keys: seq<string>, i: nat, parse: DecimalParser)
    requires Distinct(keys) && i < |keys|
    requires forall k :: k in keys[..i] ==> Coercible(row, k, parse)
    ensures var coerced := CoerceKeys(row, keys[..i], parse);
      (keys[i] in coerced <==> keys[i] in row) && (keys[i] in row ==> coerced[keys[i]] == row[keys[i]])
  {
    assert keys[i] !in keys[..i];
  }

  /** Converting one more key is one more map update. */
  lemma CoerceKeysStep(row: Dict, keys: seq<string>, i: nat, parse: DecimalParser)
    requires i < |keys|
    requires forall k :: k in keys[..i] ==> Coercible(row, k, parse)
    requires Coercible(row, keys[i], parse)
    ensures forall k :: k in keys[..i + 1] ==> Coercible(row, k, parse)
    ensures CoerceKeys(row, keys[..i + 1], parse) ==
      CoerceKeys(row, keys[..i], parse)[keys[i] := Dec(MoneyValue(row, keys[i], parse))]
  {
    assert keys[..i + 1] == keys[..i] + [keys[i]];
  }

  /** OrdersStream.post_process: nothing to do on a falsy row, otherwise the ten monetary fields in source order. */
  method PostProcess(row: Option<Dict>, parse: DecimalParser) returns (r: Result<Option<Dict>, PyError>)
    ensures r == NormalizeOrder(row, parse)
  {
    if !DictTruthy(row) {
      return Ok(row);
    }
    MoneyFieldsDistinct();
    var converted := CoerceInTurn(row.value, MoneyFields, parse);
    if converted.Err? {
      return Err(converted.error);
    }
    return Ok(Some(converted.value));
  }

  /**
   The promises of post_process: a falsy row comes back as it is; a truthy row
   comes back with the same keys, every monetary field holding its exact
   Decimal value and every other field untouched; a truthy row missing a
   monetary field, or holding one that does not parse, raises; the exception
   is the one of the first failing field in source order.
   */
  lemma NormalizeOrderSpec(row: Option<Dict>, parse: DecimalParser)
    ensures !DictTruthy(row) ==> NormalizeOrder(row, parse) == Ok(row)
    ensures DictTruthy(row) ==> (NormalizeOrder(row, parse).Ok? <==> MoneyCoercible(row.value, parse))
    ensures DictTruthy(row) && NormalizeOrder(row, parse).Ok? ==>
      var normalized := NormalizeOrder(row, parse).value;
      && normalized.Some?
      && normalized.value.Keys == row.value.Keys
      && (forall k :: k in row.value && k !in MoneyFields ==> normalized.value[k] == row.value[k])
      && (forall k :: k in MoneyFields ==> normalized.value[k] == Dec(MoneyValue(row.value, k, parse)))
    ensures DictTruthy(row) ==> forall k :: k in MoneyFields && k !in row.value ==> NormalizeOrder(row, parse).Err?
    ensures DictTruthy(row) && NormalizeOrder(row, parse).Err? ==>
      exists i :: (0 <= i < |MoneyFields| && !Coercible(row.value, MoneyFields[i], parse)
        && (forall j :: 0 <= j < i ==> Coercible(row.value, MoneyFields[j], parse))
        && NormalizeOrder(row, parse).error == CoercionError(row.value, MoneyFields[i], parse))
  {
  }

  /** Converting an already converted row changes nothing: `Decimal(Decimal(x)) == Decimal(x)`. */
  lemma NormalizeOrderIdempotent(row: Option<Dict>, parse: DecimalParser)
    requires NormalizeOrder(row, parse).Ok?
    ensures NormalizeOrder(NormalizeOrder(row, parse).value, parse) == NormalizeOrder(row, parse)
  {
    if DictTruthy(row) {
      var once := CoerceKeys(row.value, MoneyFields, parse);
      assert once.Keys == row.value.Keys;
      assert DictTruthy(Some(once)) by {
        assert MoneyFields[0] in row.value;
      }
      forall k | k in MoneyFields
        ensures Coercible(once, k, parse)
        ensures MoneyValue(once, k, parse) == MoneyValue(row.value, k, parse)
      {
      }
      assert CoerceKeys(once, MoneyFields, parse) == once;
    }
  }

  /**
   On a row whose totals have been converted (and whose `id` has not),
   get_child_context compares the exact totals.
   */
  lemma ContextOfCoercedRow(row: Dict, keys: seq<string>, parse: DecimalParser)
    requires forall k :: k in keys ==> Coercible(row, k, parse)
    requires "current_total_price" in keys && "total_price" in keys && "id" !in keys
    ensures
      var coerced := CoerceKeys(row, keys, parse);
      var current := MoneyValue(row, "current_total_price", parse);
      var total := MoneyValue(row, "total_price", parse);
      && (current < total && "id" in row ==> OrdersChildContext(coerced) == Ok(Some(map["order_id" := row["id"]])))
      && (current < total && "id" !in row ==> OrdersChildContext(coerced) == Err(KeyError("id")))
      && (current >= total ==> OrdersChildContext(coerced) == Ok(None))
  {
    var coerced := CoerceKeys(row, keys, parse);
    if "id" in row {
      assert coerced["id"] == row["id"];
    }
  }

  /**
   On an order that post_process has converted, get_child_context compares the
   exact totals: it names the order when the current total is strictly below
   the original one and derives nothing otherwise, equal totals included.
   */
  lemma OrdersContextAfterPostProcess(row: Dict, parse: DecimalParser)
    requires DictTruthy(Some(row)) && MoneyCoercible(row, parse)
    ensures NormalizeOrder(Some(row), parse) == Ok(Some(CoerceKeys(row, MoneyFields, parse)))
    ensures Coercible(row, "current_total_price", parse) && Coercible(row, "total_price", parse)
    ensures
      var normalized := NormalizeOrder(Some(row), parse).value.value;
      var current := MoneyValue(row, "current_total_price", parse);
      var total := MoneyValue(row, "total_price", parse);
      && (current < total && "id" in row ==> OrdersChildContext(normalized) == Ok(Some(map["order_id" := row["id"]])))
      && (current < total && "id" !in row ==> OrdersChildContext(normalized) == Err(KeyError("id")))
      && (current >= total ==> OrdersChildContext(normalized) == Ok(None))
  {
    assert forall i :: 0 <= i < |MoneyFields| ==> Coercible(row, MoneyFields[i], parse);
    assert MoneyFields[1] == "total_price" && MoneyFields[8] == "current_total_price";
    assert "id" !in MoneyFields;
    ContextOfCoercedRow(row, MoneyFields, parse);
  }

  // ---------------------------------------------------------------------
  // RefundsStream.read_records
  // ---------------------------------------------------------------------

  /**
   RefundsStream.read_records: nothing (`None`) without a context; with one,
   exactly what the base reader returns for it.
   */
  function RefundsReadRecords<T>(context: Option<Dict>, baseRead: Dict -> T): (r: Option<T>)
    ensures r.None? <==> context.None?
    ensures context.Some? ==> r == Some(baseRead(context.value))
  {
    if context.Some? then Some(baseRead(context.value)) else None
  }
}
