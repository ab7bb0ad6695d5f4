/**
 * `CoinMarketCapAdapter` of `adapters/coinmarketcap_adapter.py`: `map_to_id`
 * scans the symbol-mapping response for the first token whose platform
 * address matches, and `get_quote` scans the quote response for the first
 * token whose id matches. Inside the `try` a `KeyError` anywhere turns the
 * call into `None`; every other exception escapes to the caller.
 */
module CoinMarketCap {
  import opened Wrappers
  import opened Json
  import opened Http
  import Cmc = CmcModels
  import AdapterUtils

  /** What escapes an adapter call. */
  datatype Raised =
    | SymbolAddressMismatch   // raised by `map_to_id` when no token address matches
    | QuoteNotFound           // raised by `get_quote` when no token id matches
    | Py(error: PyError)      // a `TypeError` or `AttributeError` from the response's shape
    | RequestFailed           // `requests.get` raised
    | BodyNotJson             // `response.json()` raised; it runs before the status check

  /** `except KeyError: return None`: only a `KeyError` is absorbed. */
  function CatchKeyError<T>(e: PyError): (r: Result<Option<T>, Raised>)
    ensures e.KeyError? <==> r == Success(None)
    ensures !e.KeyError? ==> r == Failure(Py(e))
  {
    if e.KeyError? then Success(None) else Failure(Py(e))
  }

  /**
   * A response whose status is not 200: the log line evaluates
   * `data.get('status', {}).get('error_message', 'Unknown error')`, then the
   * call returns `None`.
   */
  function NonOkOutcome<T>(data: Json): (r: Result<Option<T>, Raised>)
    ensures r == Success(None) <==>
              data.JObj? && ("status" !in KeySet(data.fields) || Subscript(data, "status").value.JObj?)
    ensures r.Failure? ==> r.error == Py(AttributeError)
  {
    match GetOr(data, "status", JObj([]))
    case Failure(e) => Failure(Py(e))
    case Success(status) =>
      match GetOr(status, "error_message", JStr("Unknown error"))
      case Failure(e) => Failure(Py(e))
      case Success(_) => Success(None)
  }

  // ================================================================ first match

  /**
   * The outcome of a `for` loop that returns at the first entry whose test is
   * true: `probes[i]` is what testing entry `i` gives. An exception stops the
   * loop; `None` means every test was false.
   */
  function FirstMatch(probes: seq<Result<bool, PyError>>): (r: Result<Option<nat>, PyError>)
    ensures r.Success? && r.value.Some? ==>
              r.value.value < |probes| && probes[r.value.value] == Success(true)
              && forall j :: 0 <= j < r.value.value ==> probes[j] == Success(false)
    ensures r == Success(None) <==> forall j :: 0 <= j < |probes| ==> probes[j] == Success(false)
    ensures r.Failure? ==>
              exists i :: 0 <= i < |probes| && probes[i] == Failure(r.error)
                          && forall j :: 0 <= j < i ==> probes[j] == Success(false)
  {
    if |probes| == 0 then Success(None)
    else
      match probes[0]
      case Failure(e) => Failure(e)
      case Success(true) => Success(Some(0))
      case Success(false) =>
        var rest := FirstMatch(probes[1..]);
        assert forall j :: 1 <= j < |probes| ==> probes[j] == probes[1..][j - 1];
        match rest
        case Failure(e) =>
          var i :| 0 <= i < |probes[1..]| && probes[1..][i] == Failure(e)
                   && forall j :: 0 <= j < i ==> probes[1..][j] == Success(false);
          assert probes[i + 1] == Failure(e);
          Failure(e)
        case Success(None) => Success(None)
        case Success(Some(i)) => Success(Some(i + 1))
  }

  /** The loop stops at the first entry whose test is not false, whatever follows it. */
  lemma {:induction false} FirstMatchAt(probes: seq<Result<bool, PyError>>, i: nat)
    requires i < |probes| && probes[i] != Success(false)
    requires forall j :: 0 <= j < i ==> probes[j] == Success(false)
    ensures probes[i].Failure? ==> FirstMatch(probes) == Failure(probes[i].error)
    ensures probes[i].Success? ==> FirstMatch(probes) == Success(Some(i))
  {
    if i > 0 {
      FirstMatchAt(probes[1..], i - 1);
    }
  }

  // ================================================================ map_to_id

  /** `token['platform']['token_address'] == token_address`. */
  function AddressProbe(token: Json, tokenAddress: string): (r: Result<bool, PyError>)
    ensures r.Success? <==> Subscript(token, "platform").Success?
                            && Subscript(Subscript(token, "platform").value, "token_address").Success?
    ensures r.Success? ==>
              (r.value <==> Subscript(Subscript(token, "platform").value, "token_address").value == JStr(tokenAddress))
  {
    var platform :- Subscript(token, "platform");
    var address :- Subscript(platform, "token_address");
    Success(address == JStr(tokenAddress))
  }

  function AddressProbes(tokens: seq<Json>, tokenAddress: string): (ps: seq<Result<bool, PyError>>)
    ensures |ps| == |tokens| && forall i :: 0 <= i < |tokens| ==> ps[i] == AddressProbe(tokens[i], tokenAddress)
  {
    seq(|tokens|, i requires 0 <= i < |tokens| => AddressProbe(tokens[i], tokenAddress))
  }

  /** The `try` block of `map_to_id`, on the decoded body of a 200 response. */
  function MapToIdIn(data: Json, tokenAddress: string): (r: Result<Option<Json>, Raised>)
    // the handler catches every `KeyError`; only the mismatch and other errors escape
    ensures r.Failure? ==> r.error == SymbolAddressMismatch || (r.error.Py? && !r.error.error.KeyError?)
  {
    match Subscript(data, "data")
    case Failure(e) => CatchKeyError(e)
    case Success(list) =>
      match Iterate(list)
      case Failure(e) => CatchKeyError(e)
      case Success(tokens) =>
        match FirstMatch(AddressProbes(tokens, tokenAddress))
        case Failure(e) => CatchKeyError(e)
        case Success(None) => Failure(SymbolAddressMismatch)
        case Success(Some(i)) =>
          match Subscript(tokens[i], "id")
          case Failure(e) => CatchKeyError(e)
          case Success(id) => Success(Some(id))
  }

  /** What `map_to_id(token_address, symbol)` returns or raises for a given response. */
  function MapToIdOutcome(resp: HttpResponse, tokenAddress: string): (r: Result<Option<Json>, Raised>)
    ensures resp.Unreachable? ==> r == Failure(RequestFailed)
    ensures resp.Response? && resp.body.None? ==> r == Failure(BodyNotJson)
    ensures resp.Response? && resp.body.Some? && resp.status != 200 ==> r == NonOkOutcome(resp.body.value)
    ensures r != Failure(QuoteNotFound)
  {
    match resp
    case Unreachable => Failure(RequestFailed)
    case Response(status, body) =>
      if body.None? then Failure(BodyNotJson)
      else if status != 200 then NonOkOutcome(body.value)
      else MapToIdIn(body.value, tokenAddress)
  }

  /** A returned id belongs to the first token whose platform address matches. */
  lemma MapToIdReturnsFirstMatch(data: Json, tokens: seq<Json>, tokenAddress: string, id: Json)
    requires Subscript(data, "data") == Success(JArr(tokens))
    requires MapToIdOutcome(Response(200, Some(data)), tokenAddress) == Success(Some(id))
    ensures exists i :: 0 <= i < |tokens|
                        && Subscript(tokens[i], "platform").Success?
                        && Subscript(Subscript(tokens[i], "platform").value, "token_address") == Success(JStr(tokenAddress))
                        && Subscript(tokens[i], "id") == Success(id)
                        && forall j :: 0 <= j < i ==> AddressProbe(tokens[j], tokenAddress) == Success(false)
  {
    var i := FirstMatch(AddressProbes(tokens, tokenAddress)).value.value;
    assert AddressProbe(tokens[i], tokenAddress) == Success(true);
  }

  /**
   * The first token whose platform address matches, with every token before
   * it carrying a different address, gives its `id`.
   */
  lemma FirstMatchIdReturned(data: Json, tokens: seq<Json>, tokenAddress: string, k: nat)
    requires Subscript(data, "data") == Success(JArr(tokens))
    requires k < |tokens| && AddressProbe(tokens[k], tokenAddress) == Success(true)
    requires forall j :: 0 <= j < k ==> AddressProbe(tokens[j], tokenAddress) == Success(false)
    requires Subscript(tokens[k], "id").Success?
    ensures MapToIdOutcome(Response(200, Some(data)), tokenAddress) == Success(Some(Subscript(tokens[k], "id").value))
  {
    FirstMatchAt(AddressProbes(tokens, tokenAddress), k);
    assert Iterate(JArr(tokens)) == Success(tokens);
  }

  /**
   * `SymbolAddressMismatch` escapes exactly when every token has a platform
   * address and none of them matches.
   */
  lemma MismatchIffNoAddressMatches(data: Json, tokens: seq<Json>, tokenAddress: string)
    requires Subscript(data, "data") == Success(JArr(tokens))
    ensures MapToIdOutcome(Response(200, Some(data)), tokenAddress) == Failure(SymbolAddressMismatch)
            <==> forall j :: 0 <= j < |tokens| ==> AddressProbe(tokens[j], tokenAddress) == Success(false)
  {
  }

  /**
   * A token without a `platform` (or whose platform lacks `token_address`)
   * ahead of the match makes `map_to_id` return `None`, even when a later
   * token carries the address.
   */
  lemma MissingKeyBeforeMatchGivesNone(data: Json, tokens: seq<Json>, tokenAddress: string, k: nat)
    requires Subscript(data, "data") == Success(JArr(tokens))
    requires k < |tokens| && AddressProbe(tokens[k], tokenAddress).Failure?
    requires AddressProbe(tokens[k], tokenAddress).error.KeyError?
    requires forall j :: 0 <= j < k ==> AddressProbe(tokens[j], tokenAddress) == Success(false)
    ensures MapToIdOutcome(Response(200, Some(data)), tokenAddress) == Success(None)
  {
    FirstMatchAt(AddressProbes(tokens, tokenAddress), k);
  }

  /**
   * A token whose `platform` is `null` ahead of the match raises `TypeError`
   * out of `map_to_id`: the `except KeyError` does not catch it.
   */
  lemma NullPlatformRaisesTypeError(data: Json, tokens: seq<Json>, tokenAddress: string, k: nat)
    requires Subscript(data, "data") == Success(JArr(tokens))
    requires k < |tokens| && Subscript(tokens[k], "platform") == Success(JNull)
    requires forall j :: 0 <= j < k ==> AddressProbe(tokens[j], tokenAddress) == Success(false)
    ensures MapToIdOutcome(Response(200, Some(data)), tokenAddress) == Failure(Py(TypeError))
  {
    FirstMatchAt(AddressProbes(tokens, tokenAddress), k);
  }

  /** Without a `data` key the call returns `None`. */
  lemma MapToIdWithoutDataKey(data: Json, tokenAddress: string)
    requires data.JObj? && "data" !in KeySet(data.fields)
    ensures MapToIdOutcome(Response(200, Some(data)), tokenAddress) == Success(None)
  {
  }

  /** `map_to_id` over a response. */
  method MapToId(resp: HttpResponse, tokenAddress: string) returns (r: Result<Option<Json>, Raised>)
    ensures r == MapToIdOutcome(resp, tokenAddress)
  {
    if resp.Unreachable? {
      return Failure(RequestFailed);
    }
    if resp.body.None? {
      return Failure(BodyNotJson);
    }
    var data := resp.body.value;
    if resp.status != 200 {
      return NonOkOutcome(data);
    }
    var list := Subscript(data, "data");
    if list.Failure? {
      return CatchKeyError(list.error);
    }
    var tokens := Iterate(list.value);
    if tokens.Failure? {
      return CatchKeyError(tokens.error);
    }
    ghost var probes := AddressProbes(tokens.value, tokenAddress);
    var i := 0;
    while i < |tokens.value|
      invariant 0 <= i <= |tokens.value|
      invariant forall j :: 0 <= j < i ==> probes[j] == Success(false)
    {
      var probe := AddressProbe(tokens.value[i], tokenAddress);
      if probe.Failure? {
        FirstMatchAt(probes, i);
        return CatchKeyError(probe.error);
      }
      if probe.value {
        FirstMatchAt(probes, i);
        var id := Subscript(tokens.value[i], "id");
        if id.Failure? {
          return CatchKeyError(id.error);
        }
        return Success(Some(id.value));
      }
      i := i + 1;
    }
    return Failure(SymbolAddressMismatch);
  }

  // ================================================================ get_quote

  /** Python's `x == id` for a decoded JSON value and an `int` (`True == 1`, `1.0 == 1`). */
  predicate EqualsInt(x: Json, id: int) {
    match x
    case JNum(n) => n == id as real
    case JBool(b) => (if b then 1 else 0) == id
    case _ => false
  }

  /** `token['id'] == id`. */
  function IdProbe(token: Json, id: int): (r: Result<bool, PyError>)
    ensures r.Success? <==> Subscript(token, "id").Success?
    ensures r.Success? ==> (r.value <==> EqualsInt(Subscript(token, "id").value, id))
  {
    var tokenId :- Subscript(token, "id");
    Success(EqualsInt(tokenId, id))
  }

  /** How Python compares a decoded JSON value with an `int`. */
  lemma EqualsIntExamples()
    ensures EqualsInt(JNum(1.0), 1) && !EqualsInt(JNum(1.5), 1)
    ensures EqualsInt(JBool(true), 1) && EqualsInt(JBool(false), 0) && !EqualsInt(JBool(true), 0)
    ensures !EqualsInt(JStr("1"), 1) && !EqualsInt(JNull, 0)
  {
  }

  function IdProbes(tokens: seq<Json>, id: int): (ps: seq<Result<bool, PyError>>)
    ensures |ps| == |tokens| && forall i :: 0 <= i < |tokens| ==> ps[i] == IdProbe(tokens[i], id)
  {
    seq(|tokens|, i requires 0 <= i < |tokens| => IdProbe(tokens[i], id))
  }

  /** The `try` block of `get_quote`, on the decoded body of a 200 response. */
  function GetQuoteIn(data: Json, id: int, symbol: string): (r: Result<Option<Cmc.CryptocurrencyQuote>, Raised>)
    // the handler catches every `KeyError`; only the not-found and other errors escape
    ensures r.Failure? ==> r.error == QuoteNotFound || (r.error.Py? && !r.error.error.KeyError?)
  {
    match Subscript(data, "data")
    case Failure(e) => CatchKeyError(e)
    case Success(bySymbol) =>
      match Subscript(bySymbol, symbol)
      case Failure(e) => CatchKeyError(e)
      case Success(list) =>
        match Iterate(list)
        case Failure(e) => CatchKeyError(e)
        case Success(tokens) =>
          match FirstMatch(IdProbes(tokens, id))
          case Failure(e) => CatchKeyError(e)
          case Success(None) => Failure(QuoteNotFound)
          case Success(Some(i)) => DecodeMatch(tokens[i])
  }

  /** `return create_cryptocurrency_quote(token)` inside the `try`: a `KeyError` gives `None`. */
  function DecodeMatch(token: Json): (r: Result<Option<Cmc.CryptocurrencyQuote>, Raised>)
    ensures AdapterUtils.CreateCryptocurrencyQuote(token).Success? ==>
              r == Success(Some(AdapterUtils.CreateCryptocurrencyQuote(token).value))
    ensures AdapterUtils.CreateCryptocurrencyQuote(token).Failure? ==>
              r == CatchKeyError(AdapterUtils.CreateCryptocurrencyQuote(token).error)
  {
    match AdapterUtils.CreateCryptocurrencyQuote(token)
    case Failure(e) => CatchKeyError(e)
    case Success(q) => Success(Some(q))
  }

  /** With the `k`-th token the first whose id matches, `get_quote` returns what decoding it gives. */
  lemma GetQuotePicks(data: Json, tokens: seq<Json>, id: int, symbol: string, k: nat)
    requires Subscript(data, "data").Success?
    requires Subscript(Subscript(data, "data").value, symbol) == Success(JArr(tokens))
    requires k < |tokens| && IdProbe(tokens[k], id) == Success(true)
    requires forall j :: 0 <= j < k ==> IdProbe(tokens[j], id) == Success(false)
    ensures GetQuoteOutcome(Response(200, Some(data)), id, symbol) == DecodeMatch(tokens[k])
  {
    FirstMatchAt(IdProbes(tokens, id), k);
    assert Iterate(JArr(tokens)) == Success(tokens);
  }

  /** What `get_quote(id, symbol)` returns or raises for a given response. */
  function GetQuoteOutcome(resp: HttpResponse, id: int, symbol: string)
    : (r: Result<Option<Cmc.CryptocurrencyQuote>, Raised>)
    ensures resp.Unreachable? ==> r == Failure(RequestFailed)
    ensures resp.Response? && resp.body.None? ==> r == Failure(BodyNotJson)
    ensures resp.Response? && resp.body.Some? && resp.status != 200 ==> r == NonOkOutcome(resp.body.value)
    ensures r != Failure(SymbolAddressMismatch)
  {
    match resp
    case Unreachable => Failure(RequestFailed)
    case Response(status, body) =>
      if body.None? then Failure(BodyNotJson)
      else if status != 200 then NonOkOutcome(body.value)
      else GetQuoteIn(body.value, id, symbol)
  }

  /** A returned quote is decoded from the first token listed under the symbol whose id equals `id`. */
  lemma GetQuoteDecodesFirstMatch(data: Json, tokens: seq<Json>, id: int, symbol: string,
                                  q: Cmc.CryptocurrencyQuote)
    requires Subscript(data, "data").Success?
    requires Subscript(Subscript(data, "data").value, symbol) == Success(JArr(tokens))
    requires GetQuoteOutcome(Response(200, Some(data)), id, symbol) == Success(Some(q))
    ensures exists i :: 0 <= i < |tokens|
                        && Subscript(tokens[i], "id").Success? && EqualsInt(Subscript(tokens[i], "id").value, id)
                        && AdapterUtils.CreateCryptocurrencyQuote(tokens[i]) == Success(q)
                        && forall j :: 0 <= j < i ==> IdProbe(tokens[j], id) == Success(false)
  {
    GetQuoteFound(data, tokens, id, symbol);
    var i := FirstMatch(IdProbes(tokens, id)).value.value;
    assert IdProbe(tokens[i], id) == Success(true);
    assert AdapterUtils.CreateCryptocurrencyQuote(tokens[i]) == Success(q);
  }

  /** A quote `get_quote` returns comes from decoding the token the search stopped at. */
  lemma GetQuoteFound(data: Json, tokens: seq<Json>, id: int, symbol: string)
    requires Subscript(data, "data").Success?
    requires Subscript(Subscript(data, "data").value, symbol) == Success(JArr(tokens))
    requires GetQuoteOutcome(Response(200, Some(data)), id, symbol).Success?
    requires GetQuoteOutcome(Response(200, Some(data)), id, symbol).value.Some?
    ensures FirstMatch(IdProbes(tokens, id)).Success? && FirstMatch(IdProbes(tokens, id)).value.Some?
    ensures GetQuoteOutcome(Response(200, Some(data)), id, symbol)
            == DecodeMatch(tokens[FirstMatch(IdProbes(tokens, id)).value.value])
  {
    assert Iterate(JArr(tokens)) == Success(tokens);
  }

  /**
   * The first token under the symbol whose id equals `id`, with every token
   * before it carrying a different id, is decoded and returned.
   */
  lemma FirstMatchQuoteReturned(data: Json, tokens: seq<Json>, id: int, symbol: string, k: nat,
                                q: Cmc.CryptocurrencyQuote)
    requires Subscript(data, "data").Success?
    requires Subscript(Subscript(data, "data").value, symbol) == Success(JArr(tokens))
    requires k < |tokens| && IdProbe(tokens[k], id) == Success(true)
    requires forall j :: 0 <= j < k ==> IdProbe(tokens[j], id) == Success(false)
    requires AdapterUtils.CreateCryptocurrencyQuote(tokens[k]) == Success(q)
    ensures GetQuoteOutcome(Response(200, Some(data)), id, symbol) == Success(Some(q))
  {
    GetQuotePicks(data, tokens, id, symbol, k);
  }

  /** `QuoteNotFound` escapes exactly when every listed token has an id and none equals `id`. */
  lemma QuoteNotFoundIffNoIdMatches(data: Json, tokens: seq<Json>, id: int, symbol: string)
    requires Subscript(data, "data").Success?
    requires Subscript(Subscript(data, "data").value, symbol) == Success(JArr(tokens))
    ensures GetQuoteOutcome(Response(200, Some(data)), id, symbol) == Failure(QuoteNotFound)
            <==> forall j :: 0 <= j < |tokens| ==> IdProbe(tokens[j], id) == Success(false)
  {
  }

  /**
   * When the matching token cannot be decoded, a `KeyError` from
   * `create_cryptocurrency_quote` gives `None` and any other error escapes.
   */
  lemma UndecodableQuote(data: Json, tokens: seq<Json>, id: int, symbol: string, k: nat)
    requires Subscript(data, "data").Success?
    requires Subscript(Subscript(data, "data").value, symbol) == Success(JArr(tokens))
    requires k < |tokens| && IdProbe(tokens[k], id) == Success(true)
    requires forall j :: 0 <= j < k ==> IdProbe(tokens[j], id) == Success(false)
    requires AdapterUtils.CreateCryptocurrencyQuote(tokens[k]).Failure?
    ensures var e := AdapterUtils.CreateCryptocurrencyQuote(tokens[k]).error;
            GetQuoteOutcome(Response(200, Some(data)), id, symbol)
            == (if e.KeyError? then Success(None) else Failure(Py(e)))
  {
    GetQuotePicks(data, tokens, id, symbol, k);
  }

  /**
   * A matched token whose tag list holds an entry that is not a tag dict
   * raises `TypeError`, which the `KeyError` handler does not catch.
   */
  lemma MalformedTagEscapes(data: Json, tokens: seq<Json>, id: int, symbol: string, k: nat, tags: seq<Json>, t: nat)
    requires Subscript(data, "data").Success?
    requires Subscript(Subscript(data, "data").value, symbol) == Success(JArr(tokens))
    requires k < |tokens| && IdProbe(tokens[k], id) == Success(true)
    requires forall j :: 0 <= j < k ==> IdProbe(tokens[j], id) == Success(false)
    requires Subscript(tokens[k], "tags") == Success(JArr(tags))
    requires t < |tags| && Cmc.MakeTag(tags[t]).Failure?
    ensures GetQuoteOutcome(Response(200, Some(data)), id, symbol) == Failure(Py(TypeError))
  {
    assert AdapterUtils.QuoteTags(tokens[k]).Failure?;
    UndecodableQuote(data, tokens, id, symbol, k);
  }

  /** A symbol absent from `data` gives `None`. */
  lemma UnknownSymbolGivesNone(data: Json, id: int, symbol: string)
    requires Subscript(data, "data").Success? && Subscript(data, "data").value.JObj?
    requires symbol !in KeySet(Subscript(data, "data").value.fields)
    ensures GetQuoteOutcome(Response(200, Some(data)), id, symbol) == Success(None)
  {
  }

  /** `get_quote` over a response. */
  method GetQuote(resp: HttpResponse, id: int, symbol: string) returns (r: Result<Option<Cmc.CryptocurrencyQuote>, Raised>)
    ensures r == GetQuoteOutcome(resp, id, symbol)
  {
    if resp.Unreachable? {
      return Failure(RequestFailed);
    }
    if resp.body.None? {
      return Failure(BodyNotJson);
    }
    var data := resp.body.value;
    if resp.status != 200 {
      return NonOkOutcome(data);
    }
    var bySymbol := Subscript(data, "data");
    if bySymbol.Failure? {
      return CatchKeyError(bySymbol.error);
    }
    var list := Subscript(bySymbol.value, symbol);
    if list.Failure? {
      return CatchKeyError(list.error);
    }
    var tokens := Iterate(list.value);
    if tokens.Failure? {
      return CatchKeyError(tokens.error);
    }
    ghost var probes := IdProbes(tokens.value, id);
    var i := 0;
    while i < |tokens.value|
      invariant 0 <= i <= |tokens.value|
      invariant forall j :: 0 <= j < i ==> probes[j] == Success(false)
    {
      var probe := IdProbe(tokens.value[i], id);
      if probe.Failure? {
        FirstMatchAt(probes, i);
        return CatchKeyError(probe.error);
      }
      if probe.value {
        FirstMatchAt(probes, i);
        var quote := AdapterUtils.CreateCryptocurrencyQuote(tokens.value[i]);
        if quote.Failure? {
          return CatchKeyError(quote.error);
        }
        return Success(Some(quote.value));
      }
      i := i + 1;
    }
    return Failure(QuoteNotFound);
  }
}
