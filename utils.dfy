/**
 * The dict-to-record decoders of `adapters/utils.py`:
 * `create_cryptocurrency_quote`, which subscripts every key it needs, and
 * `create_coin_info`, which pops five keys out of the caller's dict and
 * passes every remaining key to the record.
 */
module AdapterUtils {
  import opened Wrappers
  import opened Json
  import Cmc = CmcModels
  import opened CoinInfoModels

  // ================================================================ create_cryptocurrency_quote

  /** The keys `create_cryptocurrency_quote` copies into the record unchanged, in evaluation order. */
  const QuoteScalarKeys: seq<string> := [
    "id", "name", "symbol", "slug", "num_market_pairs", "date_added",
    "max_supply", "circulating_supply", "total_supply", "is_active",
    "infinite_supply", "cmc_rank", "is_fiat", "self_reported_circulating_supply",
    "self_reported_market_cap", "tvl_ratio", "last_updated"]

  /** `data['tags']`, iterated and turned into `Tag`s. */
  function QuoteTags(data: Json): (r: Result<seq<Cmc.Tag>, PyError>)
    ensures r.Success? ==> Subscript(data, "tags").Success?
    ensures Subscript(data, "tags").Success? && Subscript(data, "tags").value.JArr? ==>
              r == MapAll(Subscript(data, "tags").value.items, Cmc.MakeTag)
    ensures Subscript(data, "tags").Failure? ==> r == Failure(Subscript(data, "tags").error)
    // an uniterable `tags` or an entry that is not a tag dict
    ensures Subscript(data, "tags").Success? && r.Failure? ==> r.error == TypeError
  {
    var tags :- Subscript(data, "tags");
    var items :- Iterate(tags);
    MapAll(items, Cmc.MakeTag)
  }

  /** `QuoteDetail(**data['quote']['USD'])`. */
  function QuoteUsd(data: Json): (r: Result<Cmc.QuoteDetail, PyError>)
    ensures r.Success? ==> Subscript(data, "quote").Success?
                           && Subscript(Subscript(data, "quote").value, "USD").Success?
                           && r == Cmc.MakeQuoteDetail(Subscript(Subscript(data, "quote").value, "USD").value)
    ensures Subscript(data, "quote").Failure? ==> r == Failure(Subscript(data, "quote").error)
    ensures Subscript(data, "quote").Success? && Subscript(Subscript(data, "quote").value, "USD").Failure? ==>
              r == Failure(Subscript(Subscript(data, "quote").value, "USD").error)
    ensures Subscript(data, "quote").Success? && Subscript(Subscript(data, "quote").value, "USD").Success?
            && r.Failure?
            ==> r.error == TypeError
  {
    var quote :- Subscript(data, "quote");
    var usd :- Subscript(quote, "USD");
    Cmc.MakeQuoteDetail(usd)
  }

  /** `[v[k] for k in keys]`: the first missing key raises `KeyError`. */
  function SubscriptAll(v: Json, keys: seq<string>): (r: Result<seq<Json>, PyError>)
    ensures r.Success? <==> |keys| == 0 || (v.JObj? && forall i :: 0 <= i < |keys| ==> keys[i] in KeySet(v.fields))
    ensures r.Success? ==> |r.value| == |keys| && forall i :: 0 <= i < |keys| ==> Subscript(v, keys[i]) == Success(r.value[i])
    ensures r.Failure? && v.JObj? ==> r.error.KeyError? && r.error.key in keys && r.error.key !in KeySet(v.fields)
    ensures r.Failure? && !v.JObj? ==> r.error == TypeError
  {
    if |keys| == 0 then Success([])
    else
      var first :- Subscript(v, keys[0]);
      var rest :- SubscriptAll(v, keys[1..]);
      assert forall i :: 1 <= i < |keys| ==> keys[i] == keys[1..][i - 1];
      Success([first] + rest)
  }

  /** The scalar field of a quote named by `QuoteScalarKeys[i]`. */
  function ScalarField(q: Cmc.CryptocurrencyQuote, i: nat): Json
    requires i < |QuoteScalarKeys|
  {
    match i
    case 0 => q.id
    case 1 => q.name
    case 2 => q.symbol
    case 3 => q.slug
    case 4 => q.numMarketPairs
    case 5 => q.dateAdded
    case 6 => q.maxSupply
    case 7 => q.circulatingSupply
    case 8 => q.totalSupply
    case 9 => q.isActive
    case 10 => q.infiniteSupply
    case 11 => q.cmcRank
    case 12 => q.isFiat
    case 13 => q.selfReportedCirculatingSupply
    case 14 => q.selfReportedMarketCap
    case 15 => q.tvlRatio
    case _ => q.lastUpdated
  }

  /** The record built from the scalar values (in `QuoteScalarKeys` order) and the decoded parts. */
  function BuildQuote(scalars: seq<Json>, tags: seq<Cmc.Tag>, platform: Cmc.Platform, usd: Cmc.QuoteDetail)
    : (q: Cmc.CryptocurrencyQuote)
    requires |scalars| == |QuoteScalarKeys|
    ensures forall i :: 0 <= i < |QuoteScalarKeys| ==> ScalarField(q, i) == scalars[i]
    ensures q.tags == tags && q.platform == platform && q.quote.usd == usd
  {
    Cmc.CryptocurrencyQuote(
      scalars[0], scalars[1], scalars[2], scalars[3], scalars[4], scalars[5], tags,
      scalars[6], scalars[7], scalars[8], platform, scalars[9], scalars[10], scalars[11],
      scalars[12], scalars[13], scalars[14], scalars[15], scalars[16], Cmc.Quote(usd))
  }

  /**
   * `create_cryptocurrency_quote(data)`: every key is required (a missing one
   * raises `KeyError`, never a default), tags become one `Tag` each in order,
   * `quote.USD` is decoded from `data['quote']['USD']`, and scalar fields are
   * copied as they are.
   */
  function CreateCryptocurrencyQuote(data: Json): (r: Result<Cmc.CryptocurrencyQuote, PyError>)
    ensures r.Success? ==> QuoteTags(data) == Success(r.value.tags)
    ensures r.Success? ==> Subscript(data, "platform").Success?
                           && Cmc.MakePlatform(Subscript(data, "platform").value) == Success(r.value.platform)
    ensures r.Success? ==> QuoteUsd(data) == Success(r.value.quote.usd)
    ensures r.Success? ==> forall i :: 0 <= i < |QuoteScalarKeys| ==>
                             Subscript(data, QuoteScalarKeys[i]) == Success(ScalarField(r.value, i))
    // the parts are decoded in source order, and the first failing part's error is raised
    ensures QuoteTags(data).Failure? ==> r == Failure(QuoteTags(data).error)
    ensures QuoteTags(data).Success? && Subscript(data, "platform").Failure? ==>
              r == Failure(Subscript(data, "platform").error)
    ensures QuoteTags(data).Success? && Subscript(data, "platform").Success?
            && Cmc.MakePlatform(Subscript(data, "platform").value).Failure?
            ==> r == Failure(TypeError)
    ensures QuoteTags(data).Success? && Subscript(data, "platform").Success?
            && Cmc.MakePlatform(Subscript(data, "platform").value).Success? && QuoteUsd(data).Failure? ==>
              r == Failure(QuoteUsd(data).error)
    // once tags, platform and USD detail decode, the only failure left is a missing scalar key
    ensures r.Failure? && QuoteTags(data).Success? && QuoteUsd(data).Success?
            && Subscript(data, "platform").Success? && Cmc.MakePlatform(Subscript(data, "platform").value).Success?
            ==> r.error.KeyError? && r.error.key in QuoteScalarKeys && r.error.key !in KeySet(data.fields)
  {
    var tags :- QuoteTags(data);
    var platformData :- Subscript(data, "platform");
    var platform :- Cmc.MakePlatform(platformData);
    var usd :- QuoteUsd(data);
    var scalars :- SubscriptAll(data, QuoteScalarKeys);
    Success(BuildQuote(scalars, tags, platform, usd))
  }

  /** The tag list of a decoded quote has one entry per input tag, in order. */
  lemma QuoteTagsInOrder(data: Json, tags: seq<Json>, i: nat)
    requires Subscript(data, "tags") == Success(JArr(tags)) && i < |tags|
    requires CreateCryptocurrencyQuote(data).Success?
    ensures |CreateCryptocurrencyQuote(data).value.tags| == |tags|
    ensures Cmc.MakeTag(tags[i]) == Success(CreateCryptocurrencyQuote(data).value.tags[i])
  {
  }

  // ================================================================ create_coin_info

  /** A Python dict the caller owns and `create_coin_info` mutates. */
  class PyDict {
    var entries: map<string, Json>

    constructor (entries: map<string, Json>)
      ensures this.entries == entries
    {
      this.entries := entries;
    }

    /** `d.pop(key, default)`. */
    method PopOr(key: string, default: Json) returns (v: Json)
      modifies this
      ensures v == GetOrDefault(old(entries), key, default)
      ensures entries == old(entries) - {key}
    {
      if key in entries {
        v := entries[key];
      } else {
        v := default;
      }
      entries := entries - {key};
    }

    /** `d.pop(key)`: `KeyError` when absent, and then the dict is unchanged. */
    method Pop(key: string) returns (r: Result<Json, PyError>)
      modifies this
      ensures key in old(entries) ==> r == Success(old(entries)[key]) && entries == old(entries) - {key}
      ensures key !in old(entries) ==> r == Failure(KeyError(key)) && entries == old(entries)
    {
      if key in entries {
        r := Success(entries[key]);
        entries := entries - {key};
      } else {
        r := Failure(KeyError(key));
      }
    }
  }

  /** The keys `create_coin_info` has popped after each step, and in the end. */
  const PoppedTags: set<string> := {"tag-names"} + {"tag-groups"}
  const PoppedUrls: set<string> := PoppedTags + {"urls"}
  const PoppedPlatform: set<string> := PoppedUrls + {"platform"}
  const PoppedKeys: set<string> := PoppedPlatform + {"contract_address"}

  function GetOrDefault(m: map<string, Json>, key: string, default: Json): Json {
    if key in m then m[key] else default
  }

  /** `Platform(**p) if p else None`. */
  function OptionalPlatform(p: Json): (r: Result<Option<Platform>, PyError>)
    ensures !Truthy(p) ==> r == Success(None)
    ensures Truthy(p) ==> (r.Success? <==> MakePlatform(p).Success?)
    ensures Truthy(p) && r.Success? ==> r.value.Some? && MakePlatform(p) == Success(r.value.value)
  {
    if !Truthy(p) then Success(None)
    else
      var platform :- MakePlatform(p);
      Success(Some(platform))
  }

  /** `[ContractAddress(**ca) for ca in data.pop('contract_address', [])]`. */
  function ContractAddresses(v: Json): (r: Result<seq<ContractAddress>, PyError>)
    ensures v.JArr? ==> r == MapAll(v.items, MakeContractAddress)
    ensures (v.JNull? || v.JBool? || v.JNum?) ==> r == Failure(TypeError)
  {
    var items :- Iterate(v);
    MapAll(items, MakeContractAddress)
  }

  /** `CoinInfo(tag_names=..., ..., **rest)`: `rest` must hold exactly the other fields. */
  function BuildCoinInfo(rest: map<string, Json>, tagNames: Json, tagGroups: Json, urls: Urls,
                         platform: Option<Platform>, contracts: seq<ContractAddress>): (r: Result<CoinInfo, PyError>)
    ensures r.Success? <==> rest.Keys == PassThroughKeys
    ensures r.Failure? ==> r.error == TypeError
    ensures r.Success? ==>
              && r.value.tagNames == tagNames && r.value.tagGroups == tagGroups
              && r.value.urls == urls && r.value.platform == platform && r.value.contractAddress == contracts
  {
    if rest.Keys == PassThroughKeys then
      Success(CoinInfo(
        rest["id"], rest["name"], rest["symbol"], rest["category"], rest["description"],
        rest["slug"], rest["logo"], rest["subreddit"], rest["notice"], rest["tags"],
        tagNames, tagGroups, urls, platform, rest["date_added"], rest["twitter_username"],
        rest["is_hidden"], rest["date_launched"], contracts, rest["self_reported_circulating_supply"],
        rest["self_reported_tags"], rest["self_reported_market_cap"], rest["infinite_supply"]))
    else Failure(TypeError)
  }

  /** Every key left in the dict becomes the `CoinInfo` field of the same name, value unchanged. */
  lemma RemainingKeysPassThrough(rest: map<string, Json>, tagNames: Json, tagGroups: Json, urls: Urls,
                                 platform: Option<Platform>, contracts: seq<ContractAddress>)
    requires BuildCoinInfo(rest, tagNames, tagGroups, urls, platform, contracts).Success?
    ensures var c := BuildCoinInfo(rest, tagNames, tagGroups, urls, platform, contracts).value;
            && rest["id"] == c.id && rest["name"] == c.name
            && rest["symbol"] == c.symbol && rest["category"] == c.category
            && rest["description"] == c.description && rest["slug"] == c.slug
            && rest["logo"] == c.logo && rest["subreddit"] == c.subreddit
            && rest["notice"] == c.notice && rest["tags"] == c.tags
            && rest["date_added"] == c.dateAdded
            && rest["twitter_username"] == c.twitterUsername
            && rest["is_hidden"] == c.isHidden && rest["date_launched"] == c.dateLaunched
            && rest["self_reported_circulating_supply"] == c.selfReportedCirculatingSupply
            && rest["self_reported_tags"] == c.selfReportedTags
            && rest["self_reported_market_cap"] == c.selfReportedMarketCap
            && rest["infinite_supply"] == c.infiniteSupply
  {
  }

  /**
   * What `create_coin_info` returns or raises for a dict, and what is left of
   * the dict afterwards (the keys popped before the exception stay popped).
   */
  function CoinInfoOutcome(m: map<string, Json>): (r: (Result<CoinInfo, PyError>, map<string, Json>))
    ensures "urls" !in m ==> r == (Failure(KeyError("urls")), m - PoppedTags)
    ensures r.0.Success? ==> r.1 == m - PoppedKeys
    ensures r.1.Keys <= m.Keys
  {
    // Each special key is read from the dict as given: popping the other
    // special keys first does not change its value.
    if "urls" !in m then (Failure(KeyError("urls")), m - PoppedTags)
    else
      match MakeUrls(m["urls"])
      case Failure(e) => (Failure(e), m - PoppedUrls)
      case Success(urls) => AfterUrls(m, urls)
  }

  /** The rest of `create_coin_info` once `urls` has been popped and decoded. */
  function AfterUrls(m: map<string, Json>, urls: Urls): (r: (Result<CoinInfo, PyError>, map<string, Json>))
    ensures r.0.Success? ==> r.1 == m - PoppedKeys
    ensures r.1.Keys <= m.Keys
  {
    match OptionalPlatform(GetOrDefault(m, "platform", JNull))
    case Failure(e) => (Failure(e), m - PoppedPlatform)
    case Success(platform) => AfterPlatform(m, urls, platform)
  }

  /** The rest of `create_coin_info` once `platform` has been popped and decoded. */
  function AfterPlatform(m: map<string, Json>, urls: Urls, platform: Option<Platform>)
    : (r: (Result<CoinInfo, PyError>, map<string, Json>))
    ensures r.1 == m - PoppedKeys
  {
    match ContractAddresses(GetOrDefault(m, "contract_address", JArr([])))
    case Failure(e) => (Failure(e), m - PoppedKeys)
    case Success(contracts) =>
      var tagNames := GetOrDefault(m, "tag-names", JArr([]));
      var tagGroups := GetOrDefault(m, "tag-groups", JArr([]));
      (BuildCoinInfo(m - PoppedKeys, tagNames, tagGroups, urls, platform, contracts), m - PoppedKeys)
  }

  /** The decoded pieces a successful `create_coin_info` is built from. */
  lemma CoinInfoParts(m: map<string, Json>) returns (urls: Urls, platform: Option<Platform>, contracts: seq<ContractAddress>)
    requires CoinInfoOutcome(m).0.Success?
    ensures "urls" in m && MakeUrls(m["urls"]) == Success(urls)
    ensures OptionalPlatform(GetOrDefault(m, "platform", JNull)) == Success(platform)
    ensures ContractAddresses(GetOrDefault(m, "contract_address", JArr([]))) == Success(contracts)
    ensures CoinInfoOutcome(m).0 == BuildCoinInfo(m - PoppedKeys, GetOrDefault(m, "tag-names", JArr([])),
                                                  GetOrDefault(m, "tag-groups", JArr([])), urls, platform, contracts)
  {
    urls := MakeUrls(m["urls"]).value;
    assert CoinInfoOutcome(m) == AfterUrls(m, urls);
    platform := OptionalPlatform(GetOrDefault(m, "platform", JNull)).value;
    assert AfterUrls(m, urls) == AfterPlatform(m, urls, platform);
    contracts := ContractAddresses(GetOrDefault(m, "contract_address", JArr([]))).value;
  }

  /** On success, absent `tag-names`, `tag-groups` and `contract_address` default to empty lists. */
  lemma CoinInfoDefaults(m: map<string, Json>)
    requires CoinInfoOutcome(m).0.Success?
    ensures "tag-names" !in m ==> CoinInfoOutcome(m).0.value.tagNames == JArr([])
    ensures "tag-groups" !in m ==> CoinInfoOutcome(m).0.value.tagGroups == JArr([])
    ensures "contract_address" !in m ==> CoinInfoOutcome(m).0.value.contractAddress == []
  {
    var _, _, contracts := CoinInfoParts(m);
  }

  /** The platform is `None` exactly when the key is absent or its value is falsy. */
  lemma CoinInfoPlatform(m: map<string, Json>)
    requires CoinInfoOutcome(m).0.Success?
    ensures CoinInfoOutcome(m).0.value.platform.None? <==> ("platform" !in m || !Truthy(m["platform"]))
    ensures "platform" in m && Truthy(m["platform"]) ==>
              MakePlatform(m["platform"]) == Success(CoinInfoOutcome(m).0.value.platform.value)
  {
    var _, platform, _ := CoinInfoParts(m);
  }

  /** Each contract-address entry becomes one `ContractAddress`, in order. */
  lemma CoinInfoContractsInOrder(m: map<string, Json>, cas: seq<Json>, i: nat)
    requires CoinInfoOutcome(m).0.Success?
    requires "contract_address" in m && m["contract_address"] == JArr(cas) && i < |cas|
    ensures |CoinInfoOutcome(m).0.value.contractAddress| == |cas|
    ensures MakeContractAddress(cas[i]) == Success(CoinInfoOutcome(m).0.value.contractAddress[i])
  {
    var _, _, contracts := CoinInfoParts(m);
  }

  /**
   * A coin-info dict decodes exactly when its five special keys decode and
   * every other key is one of the remaining `CoinInfo` fields, all present.
   */
  lemma CoinInfoSucceedsIff(m: map<string, Json>)
    ensures CoinInfoOutcome(m).0.Success? <==>
              && "urls" in m && MakeUrls(m["urls"]).Success?
              && OptionalPlatform(GetOrDefault(m, "platform", JNull)).Success?
              && ContractAddresses(GetOrDefault(m, "contract_address", JArr([]))).Success?
              && m.Keys - PoppedKeys == PassThroughKeys
  {
    assert (m - PoppedKeys).Keys == m.Keys - PoppedKeys;
    if "urls" in m && MakeUrls(m["urls"]).Success? {
      var urls := MakeUrls(m["urls"]).value;
      assert CoinInfoOutcome(m) == AfterUrls(m, urls);
      if OptionalPlatform(GetOrDefault(m, "platform", JNull)).Success? {
        var platform := OptionalPlatform(GetOrDefault(m, "platform", JNull)).value;
        assert AfterUrls(m, urls) == AfterPlatform(m, urls, platform);
      }
    }
  }

  /** Each special key is popped once. */
  lemma PopsAreDistinct()
    ensures "tag-groups" !in {"tag-names"}
    ensures "urls" !in PoppedTags && "platform" !in PoppedUrls && "contract_address" !in PoppedPlatform
  {
  }

  /** Popping one more key from a dict that already lost `popped`. */
  lemma PopMore(m: map<string, Json>, popped: set<string>, key: string, default: Json)
    ensures m - popped - {key} == m - (popped + {key})
    ensures key !in popped ==> GetOrDefault(m - popped, key, default) == GetOrDefault(m, key, default)
  {
    assert m - popped - {key} == m - (popped + {key});
  }

  /** `create_coin_info(data)`, popping from the caller's dict as it goes. */
  method CreateCoinInfo(data: PyDict) returns (r: Result<CoinInfo, PyError>)
    modifies data
    ensures (r, data.entries) == CoinInfoOutcome(old(data.entries))
    ensures r.Success? ==> data.entries == old(data.entries) - PoppedKeys
  {
    ghost var m := data.entries;
    PopsAreDistinct();
    var tagNames := data.PopOr("tag-names", JArr([]));
    var tagGroups := data.PopOr("tag-groups", JArr([]));
    PopMore(m, {"tag-names"}, "tag-groups", JArr([]));
    assert tagNames == GetOrDefault(m, "tag-names", JArr([]));
    assert tagGroups == GetOrDefault(m, "tag-groups", JArr([]));
    assert data.entries == m - PoppedTags;
    var urlsData := data.Pop("urls");
    if urlsData.Failure? {
      r := Failure(urlsData.error);
      assert (r, data.entries) == CoinInfoOutcome(m);
      return;
    }
    PopMore(m, PoppedTags, "urls", JNull);
    var urls := MakeUrls(urlsData.value);
    if urls.Failure? {
      r := Failure(urls.error);
      assert (r, data.entries) == CoinInfoOutcome(m);
      return;
    }
    assert CoinInfoOutcome(m) == AfterUrls(m, urls.value);
    assert data.entries == m - PoppedUrls;
    var platformData := data.PopOr("platform", JNull);
    PopMore(m, PoppedUrls, "platform", JNull);
    assert platformData == GetOrDefault(m, "platform", JNull);
    var platform := OptionalPlatform(platformData);
    if platform.Failure? {
      r := Failure(platform.error);
      assert (r, data.entries) == AfterUrls(m, urls.value);
      return;
    }
    assert AfterUrls(m, urls.value) == AfterPlatform(m, urls.value, platform.value);
    assert data.entries == m - PoppedPlatform;
    var contractData := data.PopOr("contract_address", JArr([]));
    PopMore(m, PoppedPlatform, "contract_address", JArr([]));
    assert contractData == GetOrDefault(m, "contract_address", JArr([]));
    var contracts := ContractAddresses(contractData);
    if contracts.Failure? {
      r := Failure(contracts.error);
      assert (r, data.entries) == AfterPlatform(m, urls.value, platform.value);
      return;
    }
    r := BuildCoinInfo(data.entries, tagNames, tagGroups, urls.value, platform.value, contracts.value);
    assert (r, data.entries) == AfterPlatform(m, urls.value, platform.value);
  }
}
