/**
 * The fifteen private tools. Each builds its payload dict step by step and
 * hands it to `_private_post`. A dict display `{"method": m, "k": v}` is
 * the empty dict followed by one assignment per entry, in the order
 * written. Every tool takes the process configuration `env` and the clock
 * reading `now` that `_private_post` would use. The result is the request
 * the tool posts; the HTTP response it returns is not modelled.
 *
 * Each method is proved to post exactly `Send(env, <its payload>, now)`,
 * where the payload is the value defined in `Payloads`.
 */
module Tools {
  import opened PyDict
  import opened Form
  import opened PrivateApi
  import opened Payloads

  /** `get_info()`: account balances and details. */
  method GetInfo(env: Env, now: int)
    returns (req: Request)
    ensures req == Send(env, GetInfoPayload(), now)
  {
    var payload := new Dict<Value>();
    payload.Set("method", Str("getInfo"));
    assert payload.items == GetInfoPayload();
    req := PrivatePost(env, payload, now);
  }

  /** `trans_history(start, end)`: deposit and withdrawal history. */
  method TransHistory(env: Env, now: int, start: Option<string> := None, end: Option<string> := None)
    returns (req: Request)
    ensures req == Send(env, TransHistoryPayload(start, end), now)
  {
    var payload := new Dict<Value>();
    payload.Set("method", Str("transHistory"));
    ghost var p0 := payload.items;
    assert p0 == [("method", Str("transHistory"))];
    assert Keys(p0) == ["method"];
    if Truthy(start) {
      payload.Set("start", Str(start.value));
    }
    ghost var p1 := payload.items;
    assert p1 == p0 + Entry("start", StrIfTruthy(start));
    KeysEntry(p0, "start", StrIfTruthy(start));
    if Truthy(end) {
      payload.Set("end", Str(end.value));
    }
    assert payload.items == p1 + Entry("end", StrIfTruthy(end));
    assert payload.items == TransHistoryPayload(start, end);
    req := PrivatePost(env, payload, now);
  }

  /** `trade(pair, type, price, idr, crypto)`: places an order; `side` is the `type` argument. */
  method Trade(env: Env, now: int, pair: string, side: string, price: Float,
      idr: Option<Float> := None, crypto: Option<Float> := None)
    returns (req: Request)
    ensures req == Send(env, TradePayload(pair, side, price, idr, crypto), now)
  {
    var payload := new Dict<Value>();
    payload.Set("method", Str("trade"));
    payload.Set("pair", Str(pair));
    payload.Set("type", Str(side));
    payload.Set("price", Num(price));
    ghost var p0 := payload.items;
    assert p0 == [("method", Str("trade")), ("pair", Str(pair)), ("type", Str(side)), ("price", Num(price))];
    assert Keys(p0) == ["method", "pair", "type", "price"];
    if idr.Some? {
      payload.Set("idr", Num(idr.value));
    }
    ghost var p1 := payload.items;
    assert p1 == p0 + Entry("idr", NumOpt(idr));
    KeysEntry(p0, "idr", NumOpt(idr));
    if crypto.Some? {
      payload.Set("crypto", Num(crypto.value));
    }
    assert payload.items == p1 + Entry("crypto", NumOpt(crypto));
    assert payload.items == TradePayload(pair, side, price, idr, crypto);
    req := PrivatePost(env, payload, now);
  }

  /** `trade_history(pair, count, from_id, end_id, order)`: filled trades. */
  method TradeHistory(env: Env, now: int, pair: Option<string> := None, count: int := 100,
      fromId: Option<int> := None, endId: Option<int> := None, order: string := "desc")
    returns (req: Request)
    ensures req == Send(env, TradeHistoryPayload(pair, count, fromId, endId, order), now)
  {
    var payload := new Dict<Value>();
    payload.Set("method", Str("tradeHistory"));
    payload.Set("count", Int(count));
    payload.Set("order", Str(order));
    ghost var p0 := payload.items;
    assert p0 == [("method", Str("tradeHistory")), ("count", Int(count)), ("order", Str(order))];
    assert Keys(p0) == ["method", "count", "order"];
    if Truthy(pair) {
      payload.Set("pair", Str(pair.value));
    }
    ghost var p1 := payload.items;
    assert p1 == p0 + Entry("pair", StrIfTruthy(pair));
    KeysEntry(p0, "pair", StrIfTruthy(pair));
    if fromId.Some? {
      payload.Set("from", Int(fromId.value));
    }
    ghost var p2 := payload.items;
    assert p2 == p1 + Entry("from", IntOpt(fromId));
    KeysEntry(p1, "from", IntOpt(fromId));
    if endId.Some? {
      payload.Set("end", Int(endId.value));
    }
    assert payload.items == p2 + Entry("end", IntOpt(endId));
    assert payload.items == TradeHistoryPayload(pair, count, fromId, endId, order);
    req := PrivatePost(env, payload, now);
  }

  /** `open_orders(pair)`: orders still open, for one pair or all. */
  method OpenOrders(env: Env, now: int, pair: Option<string> := None)
    returns (req: Request)
    ensures req == Send(env, OpenOrdersPayload(pair), now)
  {
    var payload := new Dict<Value>();
    payload.Set("method", Str("openOrders"));
    ghost var p0 := payload.items;
    assert p0 == [("method", Str("openOrders"))];
    assert Keys(p0) == ["method"];
    if Truthy(pair) {
      payload.Set("pair", Str(pair.value));
    }
    assert payload.items == p0 + Entry("pair", StrIfTruthy(pair));
    assert payload.items == OpenOrdersPayload(pair);
    req := PrivatePost(env, payload, now);
  }

  /** `order_history(pair, count, from_id, end_id, order)`: past orders. */
  method OrderHistory(env: Env, now: int, pair: Option<string> := None, count: int := 100,
      fromId: Option<int> := None, endId: Option<int> := None, order: string := "desc")
    returns (req: Request)
    ensures req == Send(env, OrderHistoryPayload(pair, count, fromId, endId, order), now)
  {
    var payload := new Dict<Value>();
    payload.Set("method", Str("orderHistory"));
    payload.Set("count", Int(count));
    payload.Set("order", Str(order));
    ghost var p0 := payload.items;
    assert p0 == [("method", Str("orderHistory")), ("count", Int(count)), ("order", Str(order))];
    assert Keys(p0) == ["method", "count", "order"];
    if Truthy(pair) {
      payload.Set("pair", Str(pair.value));
    }
    ghost var p1 := payload.items;
    assert p1 == p0 + Entry("pair", StrIfTruthy(pair));
    KeysEntry(p0, "pair", StrIfTruthy(pair));
    if fromId.Some? {
      payload.Set("from", Int(fromId.value));
    }
    ghost var p2 := payload.items;
    assert p2 == p1 + Entry("from", IntOpt(fromId));
    KeysEntry(p1, "from", IntOpt(fromId));
    if endId.Some? {
      payload.Set("end", Int(endId.value));
    }
    assert payload.items == p2 + Entry("end", IntOpt(endId));
    assert payload.items == OrderHistoryPayload(pair, count, fromId, endId, order);
    req := PrivatePost(env, payload, now);
  }

  /** `get_order(order_id)`. */
  method GetOrder(env: Env, now: int, orderId: int)
    returns (req: Request)
    ensures req == Send(env, GetOrderPayload(orderId), now)
  {
    var payload := new Dict<Value>();
    payload.Set("method", Str("getOrder"));
    payload.Set("order_id", Int(orderId));
    assert payload.items == GetOrderPayload(orderId);
    req := PrivatePost(env, payload, now);
  }

  /** `get_order_by_client_order_id(client_order_id)`. */
  method GetOrderByClientOrderId(env: Env, now: int, clientOrderId: string)
    returns (req: Request)
    ensures req == Send(env, GetOrderByClientOrderIdPayload(clientOrderId), now)
  {
    var payload := new Dict<Value>();
    payload.Set("method", Str("getOrderByClientOrderId"));
    payload.Set("client_order_id", Str(clientOrderId));
    assert payload.items == GetOrderByClientOrderIdPayload(clientOrderId);
    req := PrivatePost(env, payload, now);
  }

  /** `cancel_order(order_id)`. */
  method CancelOrder(env: Env, now: int, orderId: int)
    returns (req: Request)
    ensures req == Send(env, CancelOrderPayload(orderId), now)
  {
    var payload := new Dict<Value>();
    payload.Set("method", Str("cancelOrder"));
    payload.Set("order_id", Int(orderId));
    assert payload.items == CancelOrderPayload(orderId);
    req := PrivatePost(env, payload, now);
  }

  /** `cancel_by_client_order_id(client_order_id)`. */
  method CancelByClientOrderId(env: Env, now: int, clientOrderId: string)
    returns (req: Request)
    ensures req == Send(env, CancelByClientOrderIdPayload(clientOrderId), now)
  {
    var payload := new Dict<Value>();
    payload.Set("method", Str("cancelByClientOrderId"));
    payload.Set("client_order_id", Str(clientOrderId));
    assert payload.items == CancelByClientOrderIdPayload(clientOrderId);
    req := PrivatePost(env, payload, now);
  }

  /** `withdraw_fee(currency, amount, address, network)`: the fee a withdrawal would cost. */
  method WithdrawFee(env: Env, now: int, currency: string, amount: Float, address: string,
      network: Option<string> := None)
    returns (req: Request)
    ensures req == Send(env, WithdrawFeePayload(currency, amount, address, network), now)
  {
    var payload := new Dict<Value>();
    payload.Set("method", Str("withdrawFee"));
    payload.Set("currency", Str(currency));
    payload.Set("amount", Num(amount));
    payload.Set("address", Str(address));
    ghost var p0 := payload.items;
    assert p0 == [("method", Str("withdrawFee")), ("currency", Str(currency)), ("amount", Num(amount)), ("address", Str(address))];
    assert Keys(p0) == ["method", "currency", "amount", "address"];
    if Truthy(network) {
      payload.Set("network", Str(network.value));
    }
    assert payload.items == p0 + Entry("network", StrIfTruthy(network));
    assert payload.items == WithdrawFeePayload(currency, amount, address, network);
    req := PrivatePost(env, payload, now);
  }

  /** `withdraw_coin(currency, amount, address, network, memo)`. */
  method WithdrawCoin(env: Env, now: int, currency: string, amount: Float, address: string,
      network: Option<string> := None, memo: Option<string> := None)
    returns (req: Request)
    ensures req == Send(env, WithdrawCoinPayload(currency, amount, address, network, memo), now)
  {
    var payload := new Dict<Value>();
    payload.Set("method", Str("withdrawCoin"));
    payload.Set("currency", Str(currency));
    payload.Set("amount", Num(amount));
    payload.Set("address", Str(address));
    ghost var p0 := payload.items;
    assert p0 == [("method", Str("withdrawCoin")), ("currency", Str(currency)), ("amount", Num(amount)), ("address", Str(address))];
    assert Keys(p0) == ["method", "currency", "amount", "address"];
    if Truthy(network) {
      payload.Set("network", Str(network.value));
    }
    ghost var p1 := payload.items;
    assert p1 == p0 + Entry("network", StrIfTruthy(network));
    KeysEntry(p0, "network", StrIfTruthy(network));
    if Truthy(memo) {
      payload.Set("memo", Str(memo.value));
    }
    assert payload.items == p1 + Entry("memo", StrIfTruthy(memo));
    assert payload.items == WithdrawCoinPayload(currency, amount, address, network, memo);
    req := PrivatePost(env, payload, now);
  }

  /** `list_downline()`. */
  method ListDownline(env: Env, now: int)
    returns (req: Request)
    ensures req == Send(env, ListDownlinePayload(), now)
  {
    var payload := new Dict<Value>();
    payload.Set("method", Str("listDownline"));
    assert payload.items == ListDownlinePayload();
    req := PrivatePost(env, payload, now);
  }

  /** `check_downline(username)`. */
  method CheckDownline(env: Env, now: int, username: string)
    returns (req: Request)
    ensures req == Send(env, CheckDownlinePayload(username), now)
  {
    var payload := new Dict<Value>();
    payload.Set("method", Str("checkDownline"));
    payload.Set("username", Str(username));
    assert payload.items == CheckDownlinePayload(username);
    req := PrivatePost(env, payload, now);
  }

  /** `create_voucher(amount, description)`. */
  method CreateVoucher(env: Env, now: int, amount: Float, description: Option<string> := None)
    returns (req: Request)
    ensures req == Send(env, CreateVoucherPayload(amount, description), now)
  {
    var payload := new Dict<Value>();
    payload.Set("method", Str("createVoucher"));
    payload.Set("amount", Num(amount));
    ghost var p0 := payload.items;
    assert p0 == [("method", Str("createVoucher")), ("amount", Num(amount))];
    assert Keys(p0) == ["method", "amount"];
    if Truthy(description) {
      payload.Set("description", Str(description.value));
    }
    assert payload.items == p0 + Entry("description", StrIfTruthy(description));
    assert payload.items == CreateVoucherPayload(amount, description);
    req := PrivatePost(env, payload, now);
  }
}
