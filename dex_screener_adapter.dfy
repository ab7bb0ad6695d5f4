/**
 * `DexScreenerAdapter`: decoding a pair and its info block, the lenient loop
 * that keeps every well-formed pair, and the response handling shared by
 * `get_pairs`, `get_tokens` and `search_pairs`.
 */
module DexScreener {
  import opened Wrappers
  import opened Json
  import opened Http
  import opened DexModels

  /** The keys `parse_pair` subscripts directly, so a pair without one of them fails. */
  const RequiredPairKeys: set<string> := {
    "chainId", "dexId", "url", "pairAddress", "baseToken", "quoteToken",
    "priceNative", "txns", "volume", "priceChange"}

  /** `d.get(key)`: the value of an optional key, `JNull` (Python `None`) when absent. */
  function Optional(v: Json, key: string): (r: Json)
    requires v.JObj?
    ensures key !in KeySet(v.fields) ==> r == JNull
    ensures key in KeySet(v.fields) ==> Subscript(v, key) == Success(r)
  {
    DictGet(v, key, JNull)
  }

  /** `[Cls(**x) for x in info.get(key, [])]` for the websites or socials list. */
  function InfoList<T>(v: Json, key: string, make: Json -> Result<T, PyError>): (r: Result<seq<T>, PyError>)
    requires v.JObj?
    ensures key !in KeySet(v.fields) ==> r == Success([])
    ensures Subscript(v, key).Success? && Subscript(v, key).value.JArr? ==>
              r == MapAll(Subscript(v, key).value.items, make)
  {
    var items :- Iterate(DictGet(v, key, JArr([])));
    MapAll(items, make)
  }

  /**
   * `parse_info(info_data)`: `None` for a falsy value; otherwise `imageUrl` is
   * required and `websites`/`socials` default to empty lists.
   */
  function ParseInfo(v: Json): (r: Result<Option<Info>, PyError>)
    ensures !Truthy(v) ==> r == Success(None)
    ensures Truthy(v) && r.Success? ==> r.value.Some? && v.JObj?
    ensures Truthy(v) && Subscript(v, "imageUrl").Failure? ==> r == Failure(Subscript(v, "imageUrl").error)
    ensures Truthy(v) && Subscript(v, "imageUrl").Success? && InfoList(v, "websites", MakeWebsite).Failure? ==>
              r == Failure(InfoList(v, "websites", MakeWebsite).error)
    ensures Truthy(v) && Subscript(v, "imageUrl").Success? && InfoList(v, "websites", MakeWebsite).Success?
              && InfoList(v, "socials", MakeSocial).Failure? ==>
              r == Failure(InfoList(v, "socials", MakeSocial).error)
    ensures Truthy(v) && Subscript(v, "imageUrl").Success? && InfoList(v, "websites", MakeWebsite).Success?
              && InfoList(v, "socials", MakeSocial).Success? ==>
              r.Success? && r.value.Some?
    ensures r.Success? && r.value.Some? ==>
              Subscript(v, "imageUrl") == Success(r.value.value.imageUrl)
              && InfoList(v, "websites", MakeWebsite) == Success(r.value.value.websites)
              && InfoList(v, "socials", MakeSocial) == Success(r.value.value.socials)
  {
    if !Truthy(v) then Success(None)
    else
      var imageUrl :- Subscript(v, "imageUrl");
      var websites :- InfoList(v, "websites", MakeWebsite);
      var socials :- InfoList(v, "socials", MakeSocial);
      Success(Some(Info(imageUrl, websites, socials)))
  }

  /** Each website entry of an info block becomes one `Website`, in order. */
  lemma WebsitesKeepOrder(v: Json, ws: seq<Json>, i: nat)
    requires Truthy(v) && Subscript(v, "websites") == Success(JArr(ws))
    requires ParseInfo(v).Success? && i < |ws|
    ensures |ParseInfo(v).value.value.websites| == |ws|
    ensures MakeWebsite(ws[i]) == Success(ParseInfo(v).value.value.websites[i])
  {
  }

  /** An info block without `websites` or `socials` gets empty lists. */
  lemma InfoListsDefaultEmpty(v: Json)
    requires ParseInfo(v).Success? && ParseInfo(v).value.Some?
    requires "websites" !in KeySet(v.fields) && "socials" !in KeySet(v.fields)
    ensures ParseInfo(v).value.value.websites == [] && ParseInfo(v).value.value.socials == []
  {
  }

  /**
   * `parse_pair(pair_data)`, evaluating the constructor's arguments in the
   * source's order so that the first failing one decides the exception.
   */
  function ParsePair(v: Json): (r: Result<Pair, PyError>)
    ensures r.Success? <==>
              && v.JObj? && RequiredPairKeys <= KeySet(v.fields)
              && MakeToken(Subscript(v, "baseToken").value).Success?
              && MakeToken(Subscript(v, "quoteToken").value).Success?
              && ParseInfo(Optional(v, "info")).Success?
    ensures r.Success? ==>
              && Subscript(v, "chainId") == Success(r.value.chainId)
              && Subscript(v, "dexId") == Success(r.value.dexId)
              && Subscript(v, "url") == Success(r.value.url)
              && Subscript(v, "pairAddress") == Success(r.value.pairAddress)
              && Subscript(v, "priceNative") == Success(r.value.priceNative)
              && Subscript(v, "txns") == Success(r.value.txns)
              && Subscript(v, "volume") == Success(r.value.volume)
              && Subscript(v, "priceChange") == Success(r.value.priceChange)
              && MakeToken(Subscript(v, "baseToken").value) == Success(r.value.baseToken)
              && MakeToken(Subscript(v, "quoteToken").value) == Success(r.value.quoteToken)
              && r.value.priceUsd == Optional(v, "priceUsd")
              && r.value.liquidity == Optional(v, "liquidity")
              && r.value.fdv == Optional(v, "fdv")
              && r.value.pairCreatedAt == Optional(v, "pairCreatedAt")
              && ParseInfo(Optional(v, "info")) == Success(r.value.info)
  {
    var chainId :- Subscript(v, "chainId");
    var dexId :- Subscript(v, "dexId");
    var url :- Subscript(v, "url");
    var pairAddress :- Subscript(v, "pairAddress");
    var base :- Subscript(v, "baseToken");
    var baseToken :- MakeToken(base);
    var quote :- Subscript(v, "quoteToken");
    var quoteToken :- MakeToken(quote);
    var priceNative :- Subscript(v, "priceNative");
    var priceUsd := Optional(v, "priceUsd");
    var txns :- Subscript(v, "txns");
    var volume :- Subscript(v, "volume");
    var priceChange :- Subscript(v, "priceChange");
    var liquidity := Optional(v, "liquidity");
    var fdv := Optional(v, "fdv");
    var pairCreatedAt := Optional(v, "pairCreatedAt");
    var info :- ParseInfo(Optional(v, "info"));
    Success(Pair(chainId, dexId, url, pairAddress, baseToken, quoteToken, priceNative,
                 priceUsd, txns, volume, priceChange, liquidity, fdv, pairCreatedAt, info))
  }

  /** A pair missing any required key is rejected, whatever else it holds. */
  lemma MissingRequiredKeyFails(v: Json, key: string)
    requires key in RequiredPairKeys
    requires v.JObj? ==> key !in KeySet(v.fields)
    ensures ParsePair(v).Failure?
  {
  }

  // ---------------------------------------------------------------- the lenient loop

  /** The values kept by a loop that skips every entry `parse` rejects, in order. */
  function KeepParsed<T>(items: seq<Json>, parse: Json -> Result<T, PyError>): (r: seq<T>)
    ensures |r| <= |items|
    decreases |items|
  {
    if |items| == 0 then []
    else
      var rest := KeepParsed(items[..|items| - 1], parse);
      match parse(items[|items| - 1])
      case Success(p) => rest + [p]
      case Failure(_) => rest
  }

  /** The positions of the entries that parse, ascending: the reference for `KeepParsed`. */
  ghost function ParsedIndices<T>(items: seq<Json>, parse: Json -> Result<T, PyError>): (idx: seq<nat>)
    ensures forall k :: 0 <= k < |idx| ==> idx[k] < |items| && parse(items[idx[k]]).Success?
    ensures forall k, l :: 0 <= k < l < |idx| ==> idx[k] < idx[l]
    ensures forall i :: 0 <= i < |items| && parse(items[i]).Success? ==> i in idx
    decreases |items|
  {
    if |items| == 0 then []
    else
      var n := |items| - 1;
      var rest := ParsedIndices(items[..n], parse);
      assert forall i :: 0 <= i < n ==> items[..n][i] == items[i];
      if parse(items[n]).Success? then rest + [n] else rest
  }

  /**
   * The loop keeps exactly the entries that parse, in input order: the k-th
   * kept value is the decoding of the k-th well-formed entry.
   */
  lemma {:induction false} KeepParsedIsParsedEntries<T>(items: seq<Json>, parse: Json -> Result<T, PyError>)
    ensures |KeepParsed(items, parse)| == |ParsedIndices(items, parse)|
    ensures forall k :: 0 <= k < |KeepParsed(items, parse)| ==>
              parse(items[ParsedIndices(items, parse)[k]]) == Success(KeepParsed(items, parse)[k])
    decreases |items|
  {
    if |items| > 0 {
      var n := |items| - 1;
      var pre := items[..n];
      KeepParsedIsParsedEntries(pre, parse);
      var kept, idx := KeepParsed(pre, parse), ParsedIndices(pre, parse);
      forall k | 0 <= k < |kept| ensures parse(items[idx[k]]) == Success(kept[k]) {
        assert pre[idx[k]] == items[idx[k]];
      }
    }
  }

  /** Entries are handled independently: the result over a concatenation is the concatenation. */
  lemma {:induction false} KeepParsedAppend<T>(a: seq<Json>, b: seq<Json>, parse: Json -> Result<T, PyError>)
    ensures KeepParsed(a + b, parse) == KeepParsed(a, parse) + KeepParsed(b, parse)
    decreases |b|
  {
    if |b| == 0 {
      assert a + b == a;
    } else {
      var n := |b| - 1;
      KeepParsedAppend(a, b[..n], parse);
      assert (a + b)[..|a + b| - 1] == a + b[..n];
      assert (a + b)[|a + b| - 1] == b[n];
    }
  }

  /** A malformed pair is skipped and does not abort the entries after it. */
  lemma MalformedEntrySkipped(a: seq<Json>, bad: Json, b: seq<Json>)
    requires ParsePair(bad).Failure?
    ensures KeepParsed(a + [bad] + b, ParsePair) == KeepParsed(a, ParsePair) + KeepParsed(b, ParsePair)
  {
    KeepParsedAppend(a + [bad], b, ParsePair);
    KeepParsedAppend(a, [bad], ParsePair);
    assert [bad][..0] == [];
  }

  /** When every entry is well formed, every entry is kept, in order. */
  lemma AllWellFormedAllKept<T>(items: seq<Json>, parse: Json -> Result<T, PyError>)
    requires forall i :: 0 <= i < |items| ==> parse(items[i]).Success?
    ensures |KeepParsed(items, parse)| == |items|
    ensures forall i :: 0 <= i < |items| ==> parse(items[i]) == Success(KeepParsed(items, parse)[i])
  {
    KeepParsedIsParsedEntries(items, parse);
    var idx := ParsedIndices(items, parse);
    IncreasingCoverIsIdentity(idx, |items|);
  }

  /** A strictly increasing sequence below `n` that contains every index below `n` is 0, 1, ..., n-1. */
  lemma {:induction false} IncreasingCoverIsIdentity(idx: seq<nat>, n: nat)
    requires |idx| <= n
    requires forall k :: 0 <= k < |idx| ==> idx[k] < n
    requires forall k, l :: 0 <= k < l < |idx| ==> idx[k] < idx[l]
    requires forall i :: 0 <= i < n ==> i in idx
    ensures |idx| == n && forall k :: 0 <= k < n ==> idx[k] == k
    decreases n
  {
    if n > 0 {
      assert n - 1 in idx;
      var m :| 0 <= m < |idx| && idx[m] == n - 1;
      assert idx[|idx| - 1] < n;
      assert m == |idx| - 1;
      var front := idx[..m];
      forall i | 0 <= i < n - 1 ensures i in front {
        assert i in idx;
        var k :| 0 <= k < |idx| && idx[k] == i;
        assert k < m;
        assert front[k] == i;
      }
      IncreasingCoverIsIdentity(front, n - 1);
    }
  }

  /** One more entry of the list: kept when it parses, skipped otherwise. */
  lemma KeepParsedStep<T>(items: seq<Json>, i: nat, parse: Json -> Result<T, PyError>)
    requires i < |items|
    ensures parse(items[i]).Success? ==>
              KeepParsed(items[..i + 1], parse) == KeepParsed(items[..i], parse) + [parse(items[i]).value]
    ensures parse(items[i]).Failure? ==> KeepParsed(items[..i + 1], parse) == KeepParsed(items[..i], parse)
  {
    assert items[..i + 1][..i] == items[..i];
  }

  /** The loop of `get_pairs`, `get_tokens` and `search_pairs`, with its per-entry `try`/`except`. */
  method CollectPairs(items: seq<Json>) returns (pairs: seq<Pair>)
    ensures pairs == KeepParsed(items, ParsePair)
  {
    pairs := [];
    for i := 0 to |items|
      invariant pairs == KeepParsed(items[..i], ParsePair)
    {
      KeepParsedStep(items, i, ParsePair);
      var parsed := ParsePair(items[i]);
      if parsed.Success? {
        pairs := pairs + [parsed.value];
      }
    }
    assert items[..|items|] == items;
  }

  // ---------------------------------------------------------------- the endpoints

  /**
   * What `get_pairs`/`get_tokens`/`search_pairs` return for a response:
   * `Success(None)` where the source catches a `RequestException`,
   * `Failure` where an exception escapes.
   */
  function PairsOutcome(resp: HttpResponse): (r: Result<Option<PairsResponse>, PyError>)
    ensures resp.Unreachable? ==> r == Success(None)
    ensures resp.Response? && (IsHttpError(resp.status) || resp.body.None?) ==> r == Success(None)
    ensures r.Success? && r.value.Some? ==> resp.Response? && resp.body.Some? && resp.body.value.JObj?
    ensures resp.Response? && !IsHttpError(resp.status) && resp.body.Some? && !resp.body.value.JObj? ==>
              r == Failure(AttributeError)
  {
    match resp
    case Unreachable => Success(None)
    case Response(status, body) =>
      if IsHttpError(status) || body.None? then Success(None)
      else
        var data := body.value;
        var pairsValue :- GetOr(data, "pairs", JArr([]));
        var items :- Iterate(pairsValue);
        Success(Some(PairsResponse(DictGet(data, "schemaVersion", JStr("unknown")), KeepParsed(items, ParsePair))))
  }

  /** A body without `pairs` gives an empty list; one without `schemaVersion` gives "unknown". */
  lemma PairsDefaults(status: int, data: Json)
    requires !IsHttpError(status) && data.JObj?
    ensures "pairs" !in KeySet(data.fields) ==>
              PairsOutcome(Response(status, Some(data))).Success?
              && PairsOutcome(Response(status, Some(data))).value.value.pairs == []
    ensures "schemaVersion" !in KeySet(data.fields) && PairsOutcome(Response(status, Some(data))).Success? ==>
              PairsOutcome(Response(status, Some(data))).value.value.schemaVersion == JStr("unknown")
  {
  }

  /** A `pairs` list is passed through the lenient loop. */
  lemma PairsListIsKeptParsed(status: int, data: Json, items: seq<Json>)
    requires !IsHttpError(status) && data.JObj?
    requires Subscript(data, "pairs") == Success(JArr(items))
    ensures PairsOutcome(Response(status, Some(data))).Success?
    ensures PairsOutcome(Response(status, Some(data))).value.value.pairs == KeepParsed(items, ParsePair)
  {
    assert GetOr(data, "pairs", JArr([])) == Success(JArr(items));
    assert Iterate(JArr(items)) == Success(items);
  }

  /** A `pairs` value that Python cannot iterate (null, a number, a boolean) escapes as `TypeError`. */
  lemma UniterablePairsRaise(status: int, data: Json)
    requires !IsHttpError(status) && data.JObj?
    requires Subscript(data, "pairs").Success?
    requires var p := Subscript(data, "pairs").value; p.JNull? || p.JNum? || p.JBool?
    ensures PairsOutcome(Response(status, Some(data))) == Failure(TypeError)
  {
  }

  /** The shared body of the three endpoints, with the request already made. */
  method FetchPairs(resp: HttpResponse) returns (r: Result<Option<PairsResponse>, PyError>)
    ensures r == PairsOutcome(resp)
  {
    if resp.Unreachable? || IsHttpError(resp.status) || resp.body.None? {
      return Success(None);
    }
    var data := resp.body.value;
    var pairsValue := GetOr(data, "pairs", JArr([]));
    if pairsValue.Failure? {
      return Failure(pairsValue.error);
    }
    var items := Iterate(pairsValue.value);
    if items.Failure? {
      return Failure(items.error);
    }
    var pairs := CollectPairs(items.value);
    var schema := DictGet(data, "schemaVersion", JStr("unknown"));
    r := Success(Some(PairsResponse(schema, pairs)));
  }
}
