/**
 * The public REST tools: each asks for one path under the public API base
 * with a GET. `ticker` and `trades` take an optional pair id and choose the
 * per-pair path when it is a non-empty string, the all-pairs path otherwise.
 * The GET itself and the JSON it returns are not modelled.
 *
 * `ParsePath` is a reference reader of those paths; the round trip
 * `ParsePath(PathOf(c))` says that the path selects exactly one tool and,
 * for `ticker` and `trades`, exactly one pair.
 */
module PublicApi {
  import opened PyDict
  import opened Form

  const PublicApiBase := "https://indodax.com/api"

  /** A call of one of the public tools, with its optional pair id. */
  datatype PublicCall =
    | ServerTime
    | Pairs
    | PriceIncrements
    | Summaries
    | Ticker(tickerPair: Option<string>)
    | TickerAll
    | Trades(tradesPair: Option<string>)

  /** `f"{endpoint}/{pair_id}" if pair_id else endpoint`. */
  function PairPath(endpoint: string, pairId: Option<string>): string
  {
    if Truthy(pairId) then endpoint + "/" + pairId.value else endpoint
  }

  /** The path each public tool asks for. */
  function PathOf(c: PublicCall): string
  {
    match c
    case ServerTime => "server_time"
    case Pairs => "pairs"
    case PriceIncrements => "price_increments"
    case Summaries => "summaries"
    case Ticker(pairId) => PairPath("ticker", pairId)
    case TickerAll => "ticker_all"
    case Trades(pairId) => PairPath("trades", pairId)
  }

  /** `_public_get(path)` asks for `PUBLIC_API_BASE/path`. */
  function PublicUrl(path: string): string
  {
    PublicApiBase + "/" + path
  }

  /** The call as the path shows it: a pair id of `""` asks for the same path as no pair id. */
  function Canonical(c: PublicCall): PublicCall
  {
    match c
    case Ticker(pairId) => if Truthy(pairId) then c else Ticker(None)
    case Trades(pairId) => if Truthy(pairId) then c else Trades(None)
    case _ => c
  }

  /** Reference reader of a public path: the tool it names and, after the first `/`, the pair. */
  function ParsePath(path: string): Option<PublicCall>
  {
    if '/' !in path then
      if path == "server_time" then Some(ServerTime)
      else if path == "pairs" then Some(Pairs)
      else if path == "price_increments" then Some(PriceIncrements)
      else if path == "summaries" then Some(Summaries)
      else if path == "ticker" then Some(Ticker(None))
      else if path == "ticker_all" then Some(TickerAll)
      else if path == "trades" then Some(Trades(None))
      else None
    else
      var (endpoint, pair) := Cut(path, '/');
      if pair == "" then None
      else if endpoint == "ticker" then Some(Ticker(Some(pair)))
      else if endpoint == "trades" then Some(Trades(Some(pair)))
      else None
  }

  /** The path with a pair id is `<endpoint>/<pair id>`, and reads back as that endpoint and pair. */
  lemma {:induction false} PairPathReadsBack(endpoint: string, pairId: Option<string>)
    requires '/' !in endpoint
    ensures Truthy(pairId) ==>
      ('/' in PairPath(endpoint, pairId) && Cut(PairPath(endpoint, pairId), '/') == (endpoint, pairId.value))
    ensures !Truthy(pairId) ==> PairPath(endpoint, pairId) == endpoint
  {
    if Truthy(pairId) {
      var path := endpoint + "/" + pairId.value;
      assert path[|endpoint|] == '/';
      CutSeparated(endpoint, pairId.value, '/');
    }
  }

  /** Every public path reads back as the call that asked for it. */
  lemma ParsePathOf(c: PublicCall)
    ensures ParsePath(PathOf(c)) == Some(Canonical(c))
  {
    match c {
      case Ticker(pairId) => PairPathReadsBack("ticker", pairId);
      case Trades(pairId) => PairPathReadsBack("trades", pairId);
      case _ =>
    }
  }

  /** Every path the reader accepts is the path of the call it reads. */
  lemma PathOfParse(path: string)
    requires ParsePath(path).Some?
    ensures PathOf(ParsePath(path).value) == path
  {
    if '/' in path {
      CutRejoins(path, '/');
    }
  }

  /** Two calls ask for the same URL exactly when they are the same call up to an empty pair id. */
  lemma SameUrlSameCall(a: PublicCall, b: PublicCall)
    ensures PublicUrl(PathOf(a)) == PublicUrl(PathOf(b)) <==> Canonical(a) == Canonical(b)
  {
    ParsePathOf(a);
    ParsePathOf(b);
    if PublicUrl(PathOf(a)) == PublicUrl(PathOf(b)) {
      var n := |PublicApiBase + "/"|;
      assert PathOf(a) == PublicUrl(PathOf(a))[n..];
      assert PathOf(b) == PublicUrl(PathOf(b))[n..];
    }
    if Canonical(a) == Canonical(b) {
      PathOfParse(PathOf(a));
      PathOfParse(PathOf(b));
    }
  }
}
