/**
 * The private tools as one catalog: a `PrivateCall` names a tool and its
 * arguments, `MethodName` is the Indodax API method it invokes and
 * `PayloadOf` the dict it hands to `_private_post`. The lemmas here hold for
 * every tool at once: each payload starts with its `method`, and the
 * request that goes out for it is accepted by the exchange's signature
 * check and decodes to the payload as `_private_post` filled it in.
 */
module Catalog {
  import opened PyDict
  import opened Form
  import opened PrivateApi
  import opened Payloads

  /** A call of one of the fifteen private tools, with its arguments. */
  datatype PrivateCall =
    | GetInfo
    | TransHistory(startDate: Option<string>, endDate: Option<string>)
    | Trade(pair: string, side: string, price: Float, idr: Option<Float>, crypto: Option<Float>)
    | TradeHistory(pairFilter: Option<string>, count: int, fromId: Option<int>, endId: Option<int>, order: string)
    | OpenOrders(pairFilter: Option<string>)
    | OrderHistory(pairFilter: Option<string>, count: int, fromId: Option<int>, endId: Option<int>, order: string)
    | GetOrder(orderId: int)
    | GetOrderByClientOrderId(clientOrderId: string)
    | CancelOrder(orderId: int)
    | CancelByClientOrderId(clientOrderId: string)
    | WithdrawFee(currency: string, amount: Float, address: string, network: Option<string>)
    | WithdrawCoin(currency: string, amount: Float, address: string, network: Option<string>, memo: Option<string>)
    | ListDownline
    | CheckDownline(username: string)
    | CreateVoucher(amount: Float, description: Option<string>)

  /** The `method` value of each tool's payload. */
  function MethodName(c: PrivateCall): string
  {
    match c
    case GetInfo => "getInfo"
    case TransHistory(_, _) => "transHistory"
    case Trade(_, _, _, _, _) => "trade"
    case TradeHistory(_, _, _, _, _) => "tradeHistory"
    case OpenOrders(_) => "openOrders"
    case OrderHistory(_, _, _, _, _) => "orderHistory"
    case GetOrder(_) => "getOrder"
    case GetOrderByClientOrderId(_) => "getOrderByClientOrderId"
    case CancelOrder(_) => "cancelOrder"
    case CancelByClientOrderId(_) => "cancelByClientOrderId"
    case WithdrawFee(_, _, _, _) => "withdrawFee"
    case WithdrawCoin(_, _, _, _, _) => "withdrawCoin"
    case ListDownline => "listDownline"
    case CheckDownline(_) => "checkDownline"
    case CreateVoucher(_, _) => "createVoucher"
  }

  /** The payload dict each tool builds. */
  function PayloadOf(c: PrivateCall): Items<Value>
  {
    match c
    case GetInfo => GetInfoPayload()
    case TransHistory(s, e) => TransHistoryPayload(s, e)
    case Trade(pair, side, price, idr, crypto) => TradePayload(pair, side, price, idr, crypto)
    case TradeHistory(pair, count, f, e, order) => TradeHistoryPayload(pair, count, f, e, order)
    case OpenOrders(pair) => OpenOrdersPayload(pair)
    case OrderHistory(pair, count, f, e, order) => OrderHistoryPayload(pair, count, f, e, order)
    case GetOrder(id) => GetOrderPayload(id)
    case GetOrderByClientOrderId(id) => GetOrderByClientOrderIdPayload(id)
    case CancelOrder(id) => CancelOrderPayload(id)
    case CancelByClientOrderId(id) => CancelByClientOrderIdPayload(id)
    case WithdrawFee(cur, amount, addr, net) => WithdrawFeePayload(cur, amount, addr, net)
    case WithdrawCoin(cur, amount, addr, net, memo) => WithdrawCoinPayload(cur, amount, addr, net, memo)
    case ListDownline => ListDownlinePayload()
    case CheckDownline(user) => CheckDownlinePayload(user)
    case CreateVoucher(amount, desc) => CreateVoucherPayload(amount, desc)
  }

  /** Every tool's payload starts with `method` set to that tool's API method name. */
  lemma PayloadShape(c: PrivateCall)
    ensures StartsWithMethod(PayloadOf(c), MethodName(c))
  {
  }

  /**
   * For every tool: the request that goes out passes the exchange's check,
   * and decoding its body gives back the payload as `_private_post` left it
   * (the tool's pairs in order, then `timestamp` unless one of the
   * freshness keys was already there).
   */
  lemma EveryRequestReadsBack(c: PrivateCall, env: Env, now: int, unquote: string -> string)
    requires Escapes(env.codec.quotePlus) && Inverts(unquote, env.codec.quotePlus)
    ensures var req := Send(env, PayloadOf(c), now);
      ExchangeAccepts(req, env) &&
      ParseForm(req.body, unquote) == Rendered(WithTimestamp(PayloadOf(c), now), env.codec)
  {
    PayloadShape(c);
    SignedBodyReadsBack(WithTimestamp(PayloadOf(c), now), env, unquote);
  }

  // ---------------------------------------------------------------------
  // No tool sets `timestamp` or `nonce` itself
  // ---------------------------------------------------------------------

  lemma TransHistoryUnstamped(start: Option<string>, end: Option<string>)
    ensures !HasFreshnessKey(TransHistoryPayload(start, end))
  {
    TransHistoryFields(start, end);
  }

  lemma TradeUnstamped(pair: string, side: string, price: Float, idr: Option<Float>, crypto: Option<Float>)
    ensures !HasFreshnessKey(TradePayload(pair, side, price, idr, crypto))
  {
    TradeFields(pair, side, price, idr, crypto);
  }

  lemma HistoryUnstamped(name: string, pair: Option<string>, count: int, fromId: Option<int>, endId: Option<int>, order: string)
    ensures !HasFreshnessKey(HistoryPayload(name, pair, count, fromId, endId, order))
  {
    HistoryFields(name, pair, count, fromId, endId, order);
  }

  lemma OpenOrdersUnstamped(pair: Option<string>)
    ensures !HasFreshnessKey(OpenOrdersPayload(pair))
  {
    OpenOrdersFields(pair);
  }

  lemma WithdrawFeeUnstamped(currency: string, amount: Float, address: string, network: Option<string>)
    ensures !HasFreshnessKey(WithdrawFeePayload(currency, amount, address, network))
  {
    WithdrawFeeFields(currency, amount, address, network);
  }

  lemma WithdrawCoinUnstamped(currency: string, amount: Float, address: string, network: Option<string>, memo: Option<string>)
    ensures !HasFreshnessKey(WithdrawCoinPayload(currency, amount, address, network, memo))
  {
    WithdrawCoinFields(currency, amount, address, network, memo);
  }

  lemma CreateVoucherUnstamped(amount: Float, description: Option<string>)
    ensures !HasFreshnessKey(CreateVoucherPayload(amount, description))
  {
    CreateVoucherFields(amount, description);
  }

  /** No tool's payload holds `timestamp` or `nonce`. */
  lemma NoToolSetsFreshness(c: PrivateCall)
    ensures !HasFreshnessKey(PayloadOf(c))
  {
    match c {
      case TransHistory(s, e) => TransHistoryUnstamped(s, e);
      case Trade(pair, side, price, idr, crypto) => TradeUnstamped(pair, side, price, idr, crypto);
      case TradeHistory(pair, count, f, e, order) => HistoryUnstamped("tradeHistory", pair, count, f, e, order);
      case OpenOrders(pair) => OpenOrdersUnstamped(pair);
      case OrderHistory(pair, count, f, e, order) => HistoryUnstamped("orderHistory", pair, count, f, e, order);
      case WithdrawFee(cur, amount, addr, net) => WithdrawFeeUnstamped(cur, amount, addr, net);
      case WithdrawCoin(cur, amount, addr, net, memo) => WithdrawCoinUnstamped(cur, amount, addr, net, memo);
      case CreateVoucher(amount, desc) => CreateVoucherUnstamped(amount, desc);
      case _ =>
    }
  }

  /**
   * So `_private_post` always takes its timestamp branch for these tools:
   * every request carries the tool's fields followed by `timestamp = now`,
   * and never a `nonce`.
   */
  lemma EveryRequestIsStamped(c: PrivateCall, env: Env, now: int)
    ensures WithTimestamp(PayloadOf(c), now) == PayloadOf(c) + [("timestamp", Int(now))]
    ensures Send(env, PayloadOf(c), now).body ==
      UrlEncode(PayloadOf(c), env.codec) + "&" + Field(("timestamp", Int(now)), env.codec)
  {
    NoToolSetsFreshness(c);
    PayloadShape(c);
    SendAppendsTimestamp(env, PayloadOf(c), now);
  }

  /**
   * What the exchange reads out of every private request: the tool's keys
   * and value texts in order, then `timestamp` with the clock reading in
   * decimal, and no other key.
   */
  lemma EveryRequestDecodesStamped(c: PrivateCall, env: Env, now: int, unquote: string -> string)
    requires Escapes(env.codec.quotePlus) && Inverts(unquote, env.codec.quotePlus)
    ensures var decoded := ParseForm(Send(env, PayloadOf(c), now).body, unquote);
      decoded == Rendered(PayloadOf(c), env.codec) + [("timestamp", IntText(now))] &&
      Keys(decoded) == Keys(PayloadOf(c)) + ["timestamp"]
  {
    var p := PayloadOf(c);
    EveryRequestReadsBack(c, env, now, unquote);
    EveryRequestIsStamped(c, env, now);
    RenderedAppend(p, ("timestamp", Int(now)), env.codec);
    RenderedKeys(p, env.codec);
    KeysAppend(Rendered(p, env.codec), [("timestamp", IntText(now))]);
  }
}
