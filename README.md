# Indodax MCP server: private request construction

This project models how the Indodax MCP server (`server.py`) builds the
requests it sends to the exchange. It covers three pieces:

- **The fifteen private tools**, from `get_info` to `create_voucher`. Each
  builds an insertion-ordered payload dict. `method` comes first and the
  required fields follow. Optional fields are added under one of two rules:
  - "not None": `idr`, `crypto`, `from`, `end`. These are sent even when the
    value is 0.
  - truthiness: `start`, `end`, `pair`, `network`, `memo`, `description`.
    These are dropped for `None` and for `""`.
- **`_private_post`**. It adds `timestamp = now` at the end of the caller's
  dict unless the dict already has `timestamp` or `nonce`. It url-encodes the
  dict in insertion order into one body string and signs that string with
  HMAC-SHA512 under the API secret. It posts the same string with the `Key`,
  `Sign` and `Content-Type` headers.
- **Public path selection**. `ticker` and `trades` ask for `<endpoint>/<pair>`
  when the pair id is a non-empty string, and for `<endpoint>` otherwise.

Modules:

- `PyDict` (pydict.dfy): Python's ordered `dict` with string keys.
  - The value-level operations are `Keys`, `Lookup` and `Assign`
    (`d[k] = v`).
  - The class `Dict` is the mutable dict the tools build and
    `_private_post` changes in place.
- `Form` (form.dfy): `urlencode`.
  - The library parts (`quote_plus`, and `str()` of a float) are function
    fields of a `Codec`.
  - `ParseForm` is an independent reference decoder: split on `&`, cut at the
    first `=`, unquote. It serves as `urlencode`'s partner.
- `PrivateApi` (private_post.dfy): `_private_post`.
  - `WithTimestamp` specifies the timestamp fill, and `Signed` / `Send`
    specify the request.
  - `PrivatePost` is the in-place method.
  - `ExchangeAccepts` is the exchange's signature check.
- `Payloads` (payloads.dfy): each tool's payload as a value, plus lemmas
  stating, key by key, what each tool sends.
- `Tools` (tools.dfy): the fifteen tools as methods. Each builds a `Dict`
  step by step, as the Python code does. Each is proved to post exactly
  `Send(env, <its payload>, now)`.
- `Catalog` (catalog.dfy): the closed set of private tools, with statements
  that hold for every tool at once.
- `PublicApi` (public_api.dfy): the paths of the public tools, with a
  reference path reader as their partner.

The model follows the code. Some parts are easy to imagine for an exchange
gateway but do not exist in `server.py`, so they are not modelled:
- a nonce counter;
- per-operation input validation;
- retries;
- mapping exchange errors to typed results.

Freshness comes only from the millisecond `timestamp` that `_private_post`
adds. `Catalog.NoToolSetsFreshness` shows that no tool supplies `timestamp`
or `nonce` itself, so every private request carries a `timestamp`.

## Model

| member | source | states |
|---|---|---|
| PyDict.LookupFindsKeys | server.py:75 | `k in d` holds exactly when `d.get(k)` finds a value |
| PyDict.AssignAppends | server.py:78 | assigning a key the dict does not hold appends the entry at the end and leaves every earlier entry in place |
| PyDict.AssignReplaces | server.py:78 | Python's `d[k] = v` on a key the dict already holds: the length stays the same and that entry is replaced where it stands, while every other entry is unchanged. `Dict.Set` needs this case to be complete. server.py never takes it: line 78 runs only when `timestamp` is absent, and no tool assigns a key twice |
| PyDict.LookupAssign | server.py:78 | after `d[k] = v`, `d[k]` reads `v` and every other key reads as before |
| PyDict.AssignKeepsOthers | server.py:78 | an assignment leaves every entry under another key at its position |
| PyDict.AssignKeepsUnique | server.py:78 | an assignment never creates a duplicate key |
| PyDict.KeysAppend | server.py:179-188 | the keys of a dict after more entries are appended are the old keys followed by the new ones |
| PyDict.LookupAppend | server.py:179-188 | a key of `p + q` reads from `p` when `p` holds it, otherwise from `q` |
| PyDict.Dict.constructor | server.py:160 | the empty dict that a display such as `{"method": "transHistory"}` starts from; the tools then make one `Set` per entry, in the order written |
| PyDict.Dict.Set | server.py:78 | `d[k] = v` on the dict object: a new key is appended; an existing key keeps its position and takes the new value; keys stay unique |
| Form.UrlEncodeAppend | server.py:80 | `urlencode` keeps insertion order: an entry added last becomes the last `key=value` field after one `&` |
| Form.ParseFieldsOfFields | server.py:80 | each `key=value` field decodes back to its entry's key and value text |
| Form.ParseUrlEncode | server.py:80 | the body of a non-empty payload decodes to exactly the payload's keys and value texts, in insertion order, whenever `quote_plus` escapes `&` and `=` and is inverted by the decoder's unquote |
| Form.BodyDeterminesPairs | server.py:80-81 | two payloads with the same body carry the same keys and the same value texts, in the same order, so the signature over the body covers every key and value text (an `int` and a `str` with the same text are not told apart) |
| Form.RenderedAppend | server.py:78-80 | an entry appended last, like the `timestamp` of line 78, reads back as the last decoded pair: its key and its value text |
| Form.RenderedKeys | server.py:80 | decoding keeps exactly the payload's keys, in order |
| PrivateApi.WithTimestamp | server.py:75-78 | the fill adds `timestamp = now` at the end exactly when neither `timestamp` nor `nonce` is a key; otherwise the dict is unchanged; afterwards a freshness key is always present |
| PrivateApi.PrivatePost | server.py:75-87 | mutates the caller's dict into `WithTimestamp` of its old contents, keeps its keys unique, and returns the request to the private URL: the body is the url-encoded dict, `Sign` is HMAC-SHA512 of that same body under the secret, `Key` is the API key, and the content type is form-encoded |
| PrivateApi.SignedBodyReadsBack | server.py:80-87 | the request passes the exchange's check (recomputing the HMAC over the received body gives the `Sign` header, and `Key` is the API key), and its body decodes to the payload's pairs in order |
| PrivateApi.SendAppendsTimestamp | server.py:75-80 | for a payload without `timestamp` and `nonce`, the posted body is the payload's own encoding followed by `&` and the `timestamp` field |
| Payloads.FixedFields | server.py:246-264 | `get_order` and `cancel_order` send exactly `method, order_id`. The `client_order_id` tools send exactly `method, client_order_id`. `get_info`, `list_downline` (lines 151, 307) send only `method`, and `check_downline` (line 313) sends exactly `method, username`. Each `method` holds its API method name |
| Payloads.TransHistoryFields | server.py:160-164 | `trans_history` sends `method`, then `start` and `end` exactly when each is a non-empty string, with that string as the value |
| Payloads.TradeFields | server.py:179-188 | `trade` sends `method, pair, type, price` in that order. It then sends `idr` exactly when it is not None and `crypto` exactly when it is not None, `idr` first. Both, one or neither may appear. Every value is the argument given |
| Payloads.HistoryFields | server.py:203-214 | the history payloads (`trade_history` here, `order_history` at lines 229-240 alike) send `method, count, order`. Then `pair` follows when it is a non-empty string, `from` when `from_id` is not None, and `end` when `end_id` is not None, with the argument values |
| Payloads.HistoryDefaults | server.py:193 | with their defaults, both history tools send `count = 100` and `order = "desc"` (the `order_history` signature is line 227) |
| Payloads.HistoryZeroIdsSent | server.py:210-213 | an id of 0 is still sent as `from` and `end`, because the rule is "not None" and not truthiness |
| Payloads.OpenOrdersFields | server.py:220-222 | `open_orders` sends `method`, then `pair` exactly when it is a non-empty string |
| Payloads.WithdrawFeeFields | server.py:277-284 | `withdraw_fee` sends `method, currency, amount, address`, then `network` exactly when it is a non-empty string |
| Payloads.WithdrawCoinFields | server.py:291-300 | `withdraw_coin` sends `method, currency, amount, address`, then `network` and then `memo`, each exactly when it is a non-empty string |
| Payloads.CreateVoucherFields | server.py:319-321 | `create_voucher` sends `method, amount`, then `description` exactly when it is a non-empty string |
| Payloads.LookupEntries | server.py:179-184 | in a dict built from a literal, every key reads as the value written beside it |
| Payloads.KeysEntry | server.py:185-188 | appending an optional field adds its key exactly when the field is sent |
| Payloads.LookupEntry | server.py:185-188 | after appending an optional field, earlier keys read as before and the field's key reads as the sent value, if any |
| Tools.GetInfo | server.py:148-151 | `get_info` posts exactly `Send(env, GetInfoPayload(), now)` |
| Tools.TransHistory | server.py:154-165 | building the dict step by step posts exactly the `TransHistoryPayload` request |
| Tools.Trade | server.py:168-189 | building the dict step by step posts exactly the `TradePayload` request |
| Tools.TradeHistory | server.py:192-214 | building the dict step by step posts exactly the `TradeHistoryPayload` request |
| Tools.OpenOrders | server.py:217-223 | building the dict step by step posts exactly the `OpenOrdersPayload` request |
| Tools.OrderHistory | server.py:226-240 | building the dict step by step posts exactly the `OrderHistoryPayload` request |
| Tools.GetOrder | server.py:243-246 | posts exactly the `GetOrderPayload` request |
| Tools.GetOrderByClientOrderId | server.py:249-252 | posts exactly the `GetOrderByClientOrderIdPayload` request |
| Tools.CancelOrder | server.py:255-258 | posts exactly the `CancelOrderPayload` request |
| Tools.CancelByClientOrderId | server.py:261-264 | posts exactly the `CancelByClientOrderIdPayload` request |
| Tools.WithdrawFee | server.py:267-285 | building the dict step by step posts exactly the `WithdrawFeePayload` request |
| Tools.WithdrawCoin | server.py:288-301 | building the dict step by step posts exactly the `WithdrawCoinPayload` request |
| Tools.ListDownline | server.py:304-307 | posts exactly the `ListDownlinePayload` request |
| Tools.CheckDownline | server.py:310-313 | posts exactly the `CheckDownlinePayload` request |
| Tools.CreateVoucher | server.py:316-322 | building the dict step by step posts exactly the `CreateVoucherPayload` request |
| Catalog.PayloadShape | server.py:148-322 | every private tool's payload has `method` as its first key, set to that tool's API method name |
| Catalog.NoToolSetsFreshness | server.py:148-322 | no private tool puts `timestamp` or `nonce` into its payload |
| Catalog.EveryRequestIsStamped | server.py:75-80 | for every private tool, `_private_post` appends `timestamp = now` after the tool's fields, and the body is the tool's encoding followed by the `timestamp` field |
| Catalog.EveryRequestReadsBack | server.py:75-87 | for every private tool, the posted request passes the exchange's signature check, and its body decodes to the payload as `_private_post` filled it in |
| Catalog.EveryRequestDecodesStamped | server.py:75-87 | for every private tool, the exchange decodes the posted body to the tool's keys and value texts in order, then `timestamp` with `now` in decimal; its key list is the tool's keys followed by `timestamp` and nothing else |
| PublicApi.PairPathReadsBack | server.py:130 | with a non-empty pair id, the path is the endpoint, `/`, and the pair id, and cutting at the first `/` gives both back; without one, the path is the bare endpoint |
| PublicApi.ParsePathOf | server.py:107-142 | every public tool's path reads back as that tool, and as the pair id when the id is non-empty (`""` and `None` both mean "no pair") |
| PublicApi.PathOfParse | server.py:107-142 | every path the reader accepts is the path of the call it reads, so path and call determine each other |
| PublicApi.SameUrlSameCall | server.py:100-142 | two public calls request the same URL exactly when they are the same tool with the same pair id, counting `""` as no pair id |
| PyDict.Lookup | server.py:75 | (definition) `d.get(k)`: the value of the first entry under `k`, or `None` |
| PyDict.Assign | server.py:78 | (definition) `d[k] = v` on the entries: an existing key takes the new value where it stands, a new key goes at the end |
| PyDict.Dict.Contains | server.py:75 | (definition) `k in d`: `k` is one of the dict's keys |
| Form.Text | server.py:80 | (definition) `str()` of a payload value as `urlencode` renders it: a `str` as itself, an `int` in decimal with a leading `-` when negative, a float through the `str()` the codec supplies |
| Form.UrlEncode | server.py:80 | (definition) `urlencode(payload)`: one `quote_plus(key)=quote_plus(str(value))` field per entry, in insertion order, joined with `&` |
| PrivateApi.Signed | server.py:80-87 | (definition) the request for a filled payload: the private URL, the body `urlencode(payload)`, and the headers `Key` = API key, `Sign` = HMAC-SHA512 hex of that body under the secret, and the form content type |
| PrivateApi.Send | server.py:75-87 | (definition) the timestamp fill followed by `Signed`: the request `_private_post` posts for a tool's payload |
| Payloads.GetInfoPayload | server.py:151 | (definition) `{"method": "getInfo"}` |
| Payloads.TransHistoryPayload | server.py:160-164 | (definition) `method = transHistory`, then `start` and `end` when each is a non-empty string |
| Payloads.TradePayload | server.py:179-188 | (definition) `method, pair, type, price`, then `idr` and `crypto` when each is not None |
| Payloads.HistoryPayload | server.py:203-213 | (definition) the shared history shape: `method, count, order`, then `pair` when non-empty, `from` and `end` when not None |
| Payloads.TradeHistoryPayload | server.py:193-213 | (definition) `HistoryPayload` under `tradeHistory`, with the defaults `count = 100`, `order = "desc"` |
| Payloads.OpenOrdersPayload | server.py:220-222 | (definition) `method = openOrders`, then `pair` when it is a non-empty string |
| Payloads.OrderHistoryPayload | server.py:227-239 | (definition) `HistoryPayload` under `orderHistory`, with the defaults `count = 100`, `order = "desc"` |
| Payloads.GetOrderPayload | server.py:246 | (definition) `{"method": "getOrder", "order_id": order_id}` |
| Payloads.GetOrderByClientOrderIdPayload | server.py:252 | (definition) `{"method": "getOrderByClientOrderId", "client_order_id": client_order_id}` |
| Payloads.CancelOrderPayload | server.py:258 | (definition) `{"method": "cancelOrder", "order_id": order_id}` |
| Payloads.CancelByClientOrderIdPayload | server.py:264 | (definition) `{"method": "cancelByClientOrderId", "client_order_id": client_order_id}` |
| Payloads.WithdrawFeePayload | server.py:277-284 | (definition) `method, currency, amount, address`, then `network` when it is a non-empty string |
| Payloads.WithdrawCoinPayload | server.py:291-300 | (definition) `method, currency, amount, address`, then `network` and `memo` when each is a non-empty string |
| Payloads.ListDownlinePayload | server.py:307 | (definition) `{"method": "listDownline"}` |
| Payloads.CheckDownlinePayload | server.py:313 | (definition) `{"method": "checkDownline", "username": username}` |
| Payloads.CreateVoucherPayload | server.py:319-321 | (definition) `method, amount`, then `description` when it is a non-empty string |
| Catalog.MethodName | server.py:7-21 | (definition) the `method` value of each of the fifteen private tools, as the module documentation lists them |
| Catalog.PayloadOf | server.py:148-322 | (definition) the payload each private tool builds from its arguments |
| PublicApi.PairPath | server.py:130 | (definition) `f"{endpoint}/{pair_id}" if pair_id else endpoint`, shared by `ticker` and `trades` (line 141) |
| PublicApi.PathOf | server.py:107-142 | (definition) the path each public tool passes to `_public_get` |
| PublicApi.PublicUrl | server.py:101 | (definition) `f"{PUBLIC_API_BASE}/{path}"` |
| PyDict.Truthy | server.py:161 | (definition) Python's `if x:` on an `Optional[str]`: true for a non-empty string, false for `None` and `""`; the same test guards lines 163, 208, 221, 234, 283, 297, 299 and 320 |
| PrivateApi.HasFreshnessKey | server.py:75 | (definition) the negation of the test at line 75: `timestamp` or `nonce` is already a key of the payload |

## Left out

- HTTP (server.py:89-92, 100-105): the `httpx` client, the timeout, `raise_for_status` and the JSON response. The private tools return the request they would post. The public tools are modelled only as far as their path and URL.
- HMAC-SHA512 and `quote_plus` (server.py:80-81) are library code. They are function-typed fields of `Env` and `Codec`. The round trip assumes only that `quote_plus` output contains no `&` or `=` and that unquoting inverts it.
- `str()` of a float is a `Codec` field, and payload floats are an opaque type: the server only passes them through.
- `int(time() * 1000)` (server.py:77-78) is a clock read. It is the parameter `now`.
- Credential loading and the start-up check on missing credentials (server.py:50-59) are process configuration. The key and secret are fields of `Env`.
- MCP registration, the `@mcp.tool()` decorators and the stdio entry point (server.py:63, 329-331) are transport plumbing.
- `async`/`await`: the code shares no mutable state between calls, so there is no concurrency to model.
- Argument types: the model gives each argument the type its hint names. Callers that pass other types are not modelled.
