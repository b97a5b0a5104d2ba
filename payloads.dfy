/**
 * The payload dicts of the fifteen private tools, as values: what each dict
 * holds once its tool has built it. Each starts with the literal the tool
 * writes, `method` first; optional fields follow, in the order the tool adds
 * them, under one of two rules:
 *   - "not None" (`if x is not None: payload[k] = x`): sent even when `x`
 *     is 0 (`NumOpt`, `IntOpt`);
 *   - truthiness (`if x: payload[k] = x`): dropped for `None` and for `""`
 *     (`StrIfTruthy`).
 * The methods in `Tools` build the same dicts step by step on a `Dict`
 * object and are proved to produce these values; the lemmas here state what
 * each tool sends, key by key.
 */
module Payloads {
  import opened PyDict
  import opened Form
  import opened PrivateApi

  function NumOpt(o: Option<Float>): Option<Value>
  {
    if o.Some? then Some(Num(o.value)) else None
  }

  function IntOpt(o: Option<int>): Option<Value>
  {
    if o.Some? then Some(Int(o.value)) else None
  }

  /** The value an optional string field is sent with, if it is sent at all. */
  function StrIfTruthy(o: Option<string>): Option<Value>
  {
    if Truthy(o) then Some(Str(o.value)) else None
  }

  /** The key list of an optional field: the key when the field is sent. */
  function KeyIf(sent: bool, k: string): seq<string>
  {
    if sent then [k] else []
  }

  /** The entry of an optional field, when it is sent. */
  function Entry(k: string, o: Option<Value>): Items<Value>
  {
    if o.Some? then [(k, o.value)] else []
  }

  /** A payload whose first entry is `method` set to `name`. */
  predicate StartsWithMethod(p: Items<Value>, name: string)
  {
    |p| > 0 && p[0] == ("method", Str(name))
  }

  // ---------------------------------------------------------------------
  // The payload of each tool
  // ---------------------------------------------------------------------

  function GetInfoPayload(): Items<Value>
  {
    [("method", Str("getInfo"))]
  }

  function TransHistoryPayload(start: Option<string> := None, end: Option<string> := None): Items<Value>
  {
    [("method", Str("transHistory"))] + Entry("start", StrIfTruthy(start)) + Entry("end", StrIfTruthy(end))
  }

  function TradePayload(pair: string, side: string, price: Float,
                        idr: Option<Float> := None, crypto: Option<Float> := None): Items<Value>
  {
    [("method", Str("trade")), ("pair", Str(pair)), ("type", Str(side)), ("price", Num(price))]
      + Entry("idr", NumOpt(idr)) + Entry("crypto", NumOpt(crypto))
  }

  /** The shared shape of `trade_history` and `order_history`. */
  function HistoryPayload(name: string, pair: Option<string>, count: int,
                          fromId: Option<int>, endId: Option<int>, order: string): Items<Value>
  {
    [("method", Str(name)), ("count", Int(count)), ("order", Str(order))]
      + Entry("pair", StrIfTruthy(pair)) + Entry("from", IntOpt(fromId)) + Entry("end", IntOpt(endId))
  }

  function TradeHistoryPayload(pair: Option<string> := None, count: int := 100, fromId: Option<int> := None,
                               endId: Option<int> := None, order: string := "desc"): Items<Value>
  {
    HistoryPayload("tradeHistory", pair, count, fromId, endId, order)
  }

  function OpenOrdersPayload(pair: Option<string> := None): Items<Value>
  {
    [("method", Str("openOrders"))] + Entry("pair", StrIfTruthy(pair))
  }

  function OrderHistoryPayload(pair: Option<string> := None, count: int := 100, fromId: Option<int> := None,
                               endId: Option<int> := None, order: string := "desc"): Items<Value>
  {
    HistoryPayload("orderHistory", pair, count, fromId, endId, order)
  }

  function GetOrderPayload(orderId: int): Items<Value>
  {
    [("method", Str("getOrder")), ("order_id", Int(orderId))]
  }

  function GetOrderByClientOrderIdPayload(clientOrderId: string): Items<Value>
  {
    [("method", Str("getOrderByClientOrderId")), ("client_order_id", Str(clientOrderId))]
  }

  function CancelOrderPayload(orderId: int): Items<Value>
  {
    [("method", Str("cancelOrder")), ("order_id", Int(orderId))]
  }

  function CancelByClientOrderIdPayload(clientOrderId: string): Items<Value>
  {
    [("method", Str("cancelByClientOrderId")), ("client_order_id", Str(clientOrderId))]
  }

  function WithdrawFeePayload(currency: string, amount: Float, address: string,
                              network: Option<string> := None): Items<Value>
  {
    [("method", Str("withdrawFee")), ("currency", Str(currency)), ("amount", Num(amount)), ("address", Str(address))]
      + Entry("network", StrIfTruthy(network))
  }

  function WithdrawCoinPayload(currency: string, amount: Float, address: string,
                               network: Option<string> := None, memo: Option<string> := None): Items<Value>
  {
    [("method", Str("withdrawCoin")), ("currency", Str(currency)), ("amount", Num(amount)), ("address", Str(address))]
      + Entry("network", StrIfTruthy(network)) + Entry("memo", StrIfTruthy(memo))
  }

  function ListDownlinePayload(): Items<Value>
  {
    [("method", Str("listDownline"))]
  }

  function CheckDownlinePayload(username: string): Items<Value>
  {
    [("method", Str("checkDownline")), ("username", Str(username))]
  }

  function CreateVoucherPayload(amount: Float, description: Option<string> := None): Items<Value>
  {
    [("method", Str("createVoucher")), ("amount", Num(amount))] + Entry("description", StrIfTruthy(description))
  }

  // ---------------------------------------------------------------------
  // Reading a payload back
  // ---------------------------------------------------------------------

  /** In a dict, every key reads as the value stored beside it. */
  lemma {:induction false} LookupEntries(p: Items<Value>)
    requires UniqueKeys(p)
    ensures forall i :: 0 <= i < |p| ==> Lookup(p, p[i].0) == Some(p[i].1)
  {
    if p != [] {
      LookupEntries(p[1..]);
      forall i | 0 < i < |p|
        ensures Lookup(p, p[i].0) == Some(p[i].1)
      {
        assert p[i] == p[1..][i - 1];
      }
    }
  }

  /** Appending an optional field adds its key exactly when it is sent. */
  lemma KeysEntry(p: Items<Value>, k: string, o: Option<Value>)
    ensures Keys(p + Entry(k, o)) == Keys(p) + KeyIf(o.Some?, k)
  {
    KeysAppend(p, Entry(k, o));
  }

  /**
   * After appending an optional field, an earlier key reads as before, the
   * field's own key reads as the field's value, and any other key is absent.
   */
  lemma LookupEntry(p: Items<Value>, k: string, o: Option<Value>, k': string)
    ensures Lookup(p + Entry(k, o), k') ==
      if k' in Keys(p) then Lookup(p, k') else if k' == k then o else None
  {
    LookupAppend(p, Entry(k, o), k');
  }

  // ---------------------------------------------------------------------
  // What each tool sends
  // ---------------------------------------------------------------------

  /** The tools without arguments send `method` alone; the one-argument tools send `method` and that argument. */
  lemma FixedFields(orderId: int, clientOrderId: string, username: string)
    ensures StartsWithMethod(GetInfoPayload(), "getInfo") && Keys(GetInfoPayload()) == ["method"]
    ensures StartsWithMethod(ListDownlinePayload(), "listDownline") && Keys(ListDownlinePayload()) == ["method"]
    ensures var p := GetOrderPayload(orderId);
      StartsWithMethod(p, "getOrder") && Keys(p) == ["method", "order_id"] && Lookup(p, "order_id") == Some(Int(orderId))
    ensures var p := CancelOrderPayload(orderId);
      StartsWithMethod(p, "cancelOrder") && Keys(p) == ["method", "order_id"] && Lookup(p, "order_id") == Some(Int(orderId))
    ensures var p := GetOrderByClientOrderIdPayload(clientOrderId);
      StartsWithMethod(p, "getOrderByClientOrderId") && Keys(p) == ["method", "client_order_id"] &&
      Lookup(p, "client_order_id") == Some(Str(clientOrderId))
    ensures var p := CancelByClientOrderIdPayload(clientOrderId);
      StartsWithMethod(p, "cancelByClientOrderId") && Keys(p) == ["method", "client_order_id"] &&
      Lookup(p, "client_order_id") == Some(Str(clientOrderId))
    ensures var p := CheckDownlinePayload(username);
      StartsWithMethod(p, "checkDownline") && Keys(p) == ["method", "username"] && Lookup(p, "username") == Some(Str(username))
  {
  }

  /** `trans_history` sends `start` and `end` only when they are non-empty strings. */
  lemma TransHistoryFields(start: Option<string>, end: Option<string>)
    ensures var p := TransHistoryPayload(start, end);
      StartsWithMethod(p, "transHistory") &&
      Keys(p) == ["method"] + KeyIf(Truthy(start), "start") + KeyIf(Truthy(end), "end") &&
      Lookup(p, "start") == StrIfTruthy(start) && Lookup(p, "end") == StrIfTruthy(end)
  {
    var base := [("method", Str("transHistory"))];
    var p1 := base + Entry("start", StrIfTruthy(start));
    var p2 := p1 + Entry("end", StrIfTruthy(end));
    assert TransHistoryPayload(start, end) == p2;
    assert Keys(base) == ["method"];
    KeysEntry(base, "start", StrIfTruthy(start));
    KeysEntry(p1, "end", StrIfTruthy(end));
    forall k | k in ["start", "end"]
      ensures Lookup(p2, k) == if k == "start" then StrIfTruthy(start) else if k == "end" then StrIfTruthy(end) else Lookup(base, k)
    {
      LookupEntry(base, "start", StrIfTruthy(start), k);
      LookupEntry(p1, "end", StrIfTruthy(end), k);
    }
  }

  /**
   * `trade` always sends `method, pair, type, price` in that order, then
   * `idr` exactly when it is not None and `crypto` exactly when it is not
   * None, `idr` first. Nothing makes the two amounts exclusive.
   */
  lemma TradeFields(pair: string, side: string, price: Float, idr: Option<Float>, crypto: Option<Float>)
    ensures var p := TradePayload(pair, side, price, idr, crypto);
      StartsWithMethod(p, "trade") &&
      Keys(p) == ["method", "pair", "type", "price"] + KeyIf(idr.Some?, "idr") + KeyIf(crypto.Some?, "crypto") &&
      Lookup(p, "pair") == Some(Str(pair)) && Lookup(p, "type") == Some(Str(side)) &&
      Lookup(p, "price") == Some(Num(price)) &&
      Lookup(p, "idr") == NumOpt(idr) && Lookup(p, "crypto") == NumOpt(crypto)
  {
    var base := [("method", Str("trade")), ("pair", Str(pair)), ("type", Str(side)), ("price", Num(price))];
    var p1 := base + Entry("idr", NumOpt(idr));
    var p2 := p1 + Entry("crypto", NumOpt(crypto));
    assert TradePayload(pair, side, price, idr, crypto) == p2;
    assert Keys(base) == ["method", "pair", "type", "price"];
    KeysEntry(base, "idr", NumOpt(idr));
    KeysEntry(p1, "crypto", NumOpt(crypto));
    assert UniqueKeys(base);
    forall k | k in ["pair", "type", "price", "idr", "crypto"]
      ensures Lookup(p2, k) == if k == "idr" then NumOpt(idr) else if k == "crypto" then NumOpt(crypto) else Lookup(base, k)
    {
      LookupEntry(base, "idr", NumOpt(idr), k);
      LookupEntry(p1, "crypto", NumOpt(crypto), k);
    }
    LookupEntries(base);
    assert base[1].0 == "pair" && base[2].0 == "type" && base[3].0 == "price";
  }

  /**
   * The history tools always send `count` and `order`, then `pair` when it
   * is a non-empty string, then `from_id` as `from` and `end_id` as `end`
   * whenever they are not None (0 included).
   */
  lemma HistoryFields(name: string, pair: Option<string>, count: int, fromId: Option<int>, endId: Option<int>, order: string)
    ensures var p := HistoryPayload(name, pair, count, fromId, endId, order);
      StartsWithMethod(p, name) &&
      Keys(p) == ["method", "count", "order"] + KeyIf(Truthy(pair), "pair") + KeyIf(fromId.Some?, "from") + KeyIf(endId.Some?, "end") &&
      Lookup(p, "count") == Some(Int(count)) && Lookup(p, "order") == Some(Str(order)) &&
      Lookup(p, "pair") == StrIfTruthy(pair) && Lookup(p, "from") == IntOpt(fromId) && Lookup(p, "end") == IntOpt(endId)
  {
    var base := [("method", Str(name)), ("count", Int(count)), ("order", Str(order))];
    var p1 := base + Entry("pair", StrIfTruthy(pair));
    var p2 := p1 + Entry("from", IntOpt(fromId));
    var p3 := p2 + Entry("end", IntOpt(endId));
    assert HistoryPayload(name, pair, count, fromId, endId, order) == p3;
    assert Keys(base) == ["method", "count", "order"];
    KeysEntry(base, "pair", StrIfTruthy(pair));
    KeysEntry(p1, "from", IntOpt(fromId));
    KeysEntry(p2, "end", IntOpt(endId));
    assert UniqueKeys(base);
    forall k | k in ["count", "order", "pair", "from", "end"]
      ensures Lookup(p3, k) == if k == "pair" then StrIfTruthy(pair) else if k == "from" then IntOpt(fromId) else if k == "end" then IntOpt(endId) else Lookup(base, k)
    {
      LookupEntry(base, "pair", StrIfTruthy(pair), k);
      LookupEntry(p1, "from", IntOpt(fromId), k);
      LookupEntry(p2, "end", IntOpt(endId), k);
    }
    LookupEntries(base);
    assert base[1].0 == "count" && base[2].0 == "order";
  }

  /** Called with its defaults, a history tool asks for the 100 newest records. */
  lemma HistoryDefaults(pair: Option<string>, fromId: Option<int>, endId: Option<int>)
    ensures Lookup(TradeHistoryPayload(pair, fromId := fromId, endId := endId), "count") == Some(Int(100))
    ensures Lookup(TradeHistoryPayload(pair, fromId := fromId, endId := endId), "order") == Some(Str("desc"))
    ensures Lookup(OrderHistoryPayload(pair, fromId := fromId, endId := endId), "count") == Some(Int(100))
    ensures Lookup(OrderHistoryPayload(pair, fromId := fromId, endId := endId), "order") == Some(Str("desc"))
  {
    HistoryFields("tradeHistory", pair, 100, fromId, endId, "desc");
    HistoryFields("orderHistory", pair, 100, fromId, endId, "desc");
  }

  /** An id of 0 is still sent: the rule for `from` and `end` is "not None", not truthiness. */
  lemma HistoryZeroIdsSent(pair: Option<string>)
    ensures Lookup(TradeHistoryPayload(pair, fromId := Some(0), endId := Some(0)), "from") == Some(Int(0))
    ensures Lookup(TradeHistoryPayload(pair, fromId := Some(0), endId := Some(0)), "end") == Some(Int(0))
  {
    HistoryFields("tradeHistory", pair, 100, Some(0), Some(0), "desc");
  }

  /** `open_orders` sends `pair` only when it is a non-empty string. */
  lemma OpenOrdersFields(pair: Option<string>)
    ensures var p := OpenOrdersPayload(pair);
      StartsWithMethod(p, "openOrders") &&
      Keys(p) == ["method"] + KeyIf(Truthy(pair), "pair") && Lookup(p, "pair") == StrIfTruthy(pair)
  {
    var base := [("method", Str("openOrders"))];
    var p1 := base + Entry("pair", StrIfTruthy(pair));
    assert OpenOrdersPayload(pair) == p1;
    assert Keys(base) == ["method"];
    KeysEntry(base, "pair", StrIfTruthy(pair));
    forall k | k in ["pair"]
      ensures Lookup(p1, k) == if k == "pair" then StrIfTruthy(pair) else Lookup(base, k)
    {
      LookupEntry(base, "pair", StrIfTruthy(pair), k);
    }
  }

  /** `withdraw_fee` sends `currency, amount, address`, then `network` only when it is a non-empty string. */
  lemma WithdrawFeeFields(currency: string, amount: Float, address: string, network: Option<string>)
    ensures var p := WithdrawFeePayload(currency, amount, address, network);
      StartsWithMethod(p, "withdrawFee") &&
      Keys(p) == ["method", "currency", "amount", "address"] + KeyIf(Truthy(network), "network") &&
      Lookup(p, "currency") == Some(Str(currency)) && Lookup(p, "amount") == Some(Num(amount)) &&
      Lookup(p, "address") == Some(Str(address)) && Lookup(p, "network") == StrIfTruthy(network)
  {
    var base := [("method", Str("withdrawFee")), ("currency", Str(currency)), ("amount", Num(amount)), ("address", Str(address))];
    var p1 := base + Entry("network", StrIfTruthy(network));
    assert WithdrawFeePayload(currency, amount, address, network) == p1;
    assert Keys(base) == ["method", "currency", "amount", "address"];
    KeysEntry(base, "network", StrIfTruthy(network));
    assert UniqueKeys(base);
    forall k | k in ["currency", "amount", "address", "network"]
      ensures Lookup(p1, k) == if k == "network" then StrIfTruthy(network) else Lookup(base, k)
    {
      LookupEntry(base, "network", StrIfTruthy(network), k);
    }
    LookupEntries(base);
    assert base[1].0 == "currency" && base[2].0 == "amount" && base[3].0 == "address";
  }

  /**
   * `withdraw_coin` sends `currency, amount, address`, then `network` and
   * `memo` only when they are non-empty strings.
   */
  lemma WithdrawCoinFields(currency: string, amount: Float, address: string, network: Option<string>, memo: Option<string>)
    ensures var p := WithdrawCoinPayload(currency, amount, address, network, memo);
      StartsWithMethod(p, "withdrawCoin") &&
      Keys(p) == ["method", "currency", "amount", "address"] + KeyIf(Truthy(network), "network") + KeyIf(Truthy(memo), "memo") &&
      Lookup(p, "currency") == Some(Str(currency)) && Lookup(p, "amount") == Some(Num(amount)) &&
      Lookup(p, "address") == Some(Str(address)) &&
      Lookup(p, "network") == StrIfTruthy(network) && Lookup(p, "memo") == StrIfTruthy(memo)
  {
    var base := [("method", Str("withdrawCoin")), ("currency", Str(currency)), ("amount", Num(amount)), ("address", Str(address))];
    var p1 := base + Entry("network", StrIfTruthy(network));
    var p2 := p1 + Entry("memo", StrIfTruthy(memo));
    assert WithdrawCoinPayload(currency, amount, address, network, memo) == p2;
    assert Keys(base) == ["method", "currency", "amount", "address"];
    KeysEntry(base, "network", StrIfTruthy(network));
    KeysEntry(p1, "memo", StrIfTruthy(memo));
    assert UniqueKeys(base);
    forall k | k in ["currency", "amount", "address", "network", "memo"]
      ensures Lookup(p2, k) == if k == "network" then StrIfTruthy(network) else if k == "memo" then StrIfTruthy(memo) else Lookup(base, k)
    {
      LookupEntry(base, "network", StrIfTruthy(network), k);
      LookupEntry(p1, "memo", StrIfTruthy(memo), k);
    }
    LookupEntries(base);
    assert base[1].0 == "currency" && base[2].0 == "amount" && base[3].0 == "address";
  }

  /** `create_voucher` sends `amount`, then `description` only when it is a non-empty string. */
  lemma CreateVoucherFields(amount: Float, description: Option<string>)
    ensures var p := CreateVoucherPayload(amount, description);
      StartsWithMethod(p, "createVoucher") &&
      Keys(p) == ["method", "amount"] + KeyIf(Truthy(description), "description") &&
      Lookup(p, "amount") == Some(Num(amount)) && Lookup(p, "description") == StrIfTruthy(description)
  {
    var base := [("method", Str("createVoucher")), ("amount", Num(amount))];
    var p1 := base + Entry("description", StrIfTruthy(description));
    assert CreateVoucherPayload(amount, description) == p1;
    assert Keys(base) == ["method", "amount"];
    KeysEntry(base, "description", StrIfTruthy(description));
    assert UniqueKeys(base);
    forall k | k in ["amount", "description"]
      ensures Lookup(p1, k) == if k == "description" then StrIfTruthy(description) else Lookup(base, k)
    {
      LookupEntry(base, "description", StrIfTruthy(description), k);
    }
    LookupEntries(base);
    assert base[1].0 == "amount";
  }
}
