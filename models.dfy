/**
 * The CoinMarketCap quote records (`models.py`). Dataclasses do not convert
 * their arguments, so every scalar field holds the JSON value it was given.
 */
module CmcModels {
  import opened Wrappers
  import opened Json

  datatype Tag = Tag(slug: Json, name: Json, category: Json)

  datatype Platform = Platform(id: Json, name: Json, symbol: Json, slug: Json, tokenAddress: Json)

  datatype QuoteDetail = QuoteDetail(
    price: Json, volume24h: Json, volumeChange24h: Json,
    percentChange1h: Json, percentChange24h: Json, percentChange7d: Json,
    percentChange30d: Json, percentChange60d: Json, percentChange90d: Json,
    marketCap: Json, marketCapDominance: Json, fullyDilutedMarketCap: Json,
    tvl: Json, lastUpdated: Json)

  datatype Quote = Quote(usd: QuoteDetail)

  datatype CryptocurrencyQuote = CryptocurrencyQuote(
    id: Json, name: Json, symbol: Json, slug: Json, numMarketPairs: Json,
    dateAdded: Json, tags: seq<Tag>, maxSupply: Json, circulatingSupply: Json,
    totalSupply: Json, platform: Platform, isActive: Json, infiniteSupply: Json,
    cmcRank: Json, isFiat: Json, selfReportedCirculatingSupply: Json,
    selfReportedMarketCap: Json, tvlRatio: Json, lastUpdated: Json, quote: Quote)

  const TagFields: seq<string> := ["slug", "name", "category"]
  const PlatformFields: seq<string> := ["id", "name", "symbol", "slug", "token_address"]
  const QuoteDetailFields: seq<string> := [
    "price", "volume_24h", "volume_change_24h",
    "percent_change_1h", "percent_change_24h", "percent_change_7d",
    "percent_change_30d", "percent_change_60d", "percent_change_90d",
    "market_cap", "market_cap_dominance", "fully_diluted_market_cap",
    "tvl", "last_updated"]

  /** `Tag(**v)`. */
  function MakeTag(v: Json): (r: Result<Tag, PyError>)
    ensures r.Success? <==> v.JObj? && KeySet(v.fields) == {"slug", "name", "category"}
    ensures r.Failure? ==> r.error == TypeError
    ensures r.Success? ==> Subscript(v, "slug") == Success(r.value.slug)
                           && Subscript(v, "name") == Success(r.value.name)
                           && Subscript(v, "category") == Success(r.value.category)
  {
    match Kwargs(v, TagFields)
    case Failure(e) => Failure(e)
    case Success(x) => Success(Tag(x[0], x[1], x[2]))
  }

  /** `Platform(**v)`. */
  function MakePlatform(v: Json): (r: Result<Platform, PyError>)
    ensures r.Success? <==> v.JObj? && KeySet(v.fields) == set n | n in PlatformFields
    ensures r.Failure? ==> r.error == TypeError
    ensures r.Success? ==> Subscript(v, "id") == Success(r.value.id)
                           && Subscript(v, "name") == Success(r.value.name)
                           && Subscript(v, "symbol") == Success(r.value.symbol)
                           && Subscript(v, "slug") == Success(r.value.slug)
                           && Subscript(v, "token_address") == Success(r.value.tokenAddress)
  {
    match Kwargs(v, PlatformFields)
    case Failure(e) => Failure(e)
    case Success(x) => Success(Platform(x[0], x[1], x[2], x[3], x[4]))
  }

  /** The field of a `QuoteDetail` declared at position `i`. */
  function DetailField(d: QuoteDetail, i: nat): Json
    requires i < |QuoteDetailFields|
  {
    match i
    case 0 => d.price
    case 1 => d.volume24h
    case 2 => d.volumeChange24h
    case 3 => d.percentChange1h
    case 4 => d.percentChange24h
    case 5 => d.percentChange7d
    case 6 => d.percentChange30d
    case 7 => d.percentChange60d
    case 8 => d.percentChange90d
    case 9 => d.marketCap
    case 10 => d.marketCapDominance
    case 11 => d.fullyDilutedMarketCap
    case 12 => d.tvl
    case _ => d.lastUpdated
  }

  /** `QuoteDetail(**v)`: each field holds the dict's value for the key of the same name. */
  function MakeQuoteDetail(v: Json): (r: Result<QuoteDetail, PyError>)
    ensures r.Success? <==> v.JObj? && KeySet(v.fields) == set n | n in QuoteDetailFields
    ensures r.Failure? ==> r.error == TypeError
    ensures r.Success? ==> forall i :: 0 <= i < |QuoteDetailFields| ==>
                             Subscript(v, QuoteDetailFields[i]) == Success(DetailField(r.value, i))
  {
    match Kwargs(v, QuoteDetailFields)
    case Failure(e) => Failure(e)
    case Success(x) =>
      Success(QuoteDetail(x[0], x[1], x[2], x[3], x[4], x[5], x[6],
                          x[7], x[8], x[9], x[10], x[11], x[12], x[13]))
  }
}

/** The CoinMarketCap coin-info records (`models/coin_info.py`). */
module CoinInfoModels {
  import opened Wrappers
  import opened Json

  datatype Platform = Platform(name: Json, id: Json, slug: Json, symbol: Json, tokenAddress: Json)

  /** `platform` stays the raw JSON value: the dataclass does not build a nested `Platform`. */
  datatype ContractAddress = ContractAddress(contractAddress: Json, platform: Json)

  datatype Urls = Urls(
    website: Json, twitter: Json, messageBoard: Json, chat: Json, facebook: Json,
    explorer: Json, reddit: Json, technicalDoc: Json, sourceCode: Json, announcement: Json)

  datatype CoinInfo = CoinInfo(
    id: Json, name: Json, symbol: Json, category: Json, description: Json,
    slug: Json, logo: Json, subreddit: Json, notice: Json, tags: Json,
    tagNames: Json, tagGroups: Json, urls: Urls, platform: Option<Platform>,
    dateAdded: Json, twitterUsername: Json, isHidden: Json, dateLaunched: Json,
    contractAddress: seq<ContractAddress>, selfReportedCirculatingSupply: Json,
    selfReportedTags: Json, selfReportedMarketCap: Json, infiniteSupply: Json)

  const PlatformFields: seq<string> := ["name", "id", "slug", "symbol", "token_address"]
  const ContractAddressFields: seq<string> := ["contract_address", "platform"]
  const UrlsFields: seq<string> := [
    "website", "twitter", "message_board", "chat", "facebook",
    "explorer", "reddit", "technical_doc", "source_code", "announcement"]

  /** The `CoinInfo` fields that `create_coin_info` does not pass by keyword. */
  const PassThroughKeys: set<string> := {
    "id", "name", "symbol", "category", "description", "slug", "logo",
    "subreddit", "notice", "tags", "date_added", "twitter_username",
    "is_hidden", "date_launched", "self_reported_circulating_supply",
    "self_reported_tags", "self_reported_market_cap", "infinite_supply"}

  /** `Platform(**v)`. */
  function MakePlatform(v: Json): (r: Result<Platform, PyError>)
    ensures r.Success? <==> v.JObj? && KeySet(v.fields) == set n | n in PlatformFields
    ensures r.Failure? ==> r.error == TypeError
    ensures r.Success? ==> Subscript(v, "name") == Success(r.value.name)
                           && Subscript(v, "id") == Success(r.value.id)
                           && Subscript(v, "slug") == Success(r.value.slug)
                           && Subscript(v, "symbol") == Success(r.value.symbol)
                           && Subscript(v, "token_address") == Success(r.value.tokenAddress)
  {
    match Kwargs(v, PlatformFields)
    case Failure(e) => Failure(e)
    case Success(x) => Success(Platform(x[0], x[1], x[2], x[3], x[4]))
  }

  /** `ContractAddress(**v)`. */
  function MakeContractAddress(v: Json): (r: Result<ContractAddress, PyError>)
    ensures r.Success? <==> v.JObj? && KeySet(v.fields) == {"contract_address", "platform"}
    ensures r.Failure? ==> r.error == TypeError
    ensures r.Success? ==> Subscript(v, "contract_address") == Success(r.value.contractAddress)
                           && Subscript(v, "platform") == Success(r.value.platform)
  {
    match Kwargs(v, ContractAddressFields)
    case Failure(e) => Failure(e)
    case Success(x) => Success(ContractAddress(x[0], x[1]))
  }

  /** `URLs(**v)`. */
  function MakeUrls(v: Json): (r: Result<Urls, PyError>)
    ensures r.Success? <==> v.JObj? && KeySet(v.fields) == set n | n in UrlsFields
    ensures r.Failure? ==> r.error == TypeError
    ensures r.Success? ==> Subscript(v, "website") == Success(r.value.website)
                           && Subscript(v, "twitter") == Success(r.value.twitter)
                           && Subscript(v, "message_board") == Success(r.value.messageBoard)
                           && Subscript(v, "chat") == Success(r.value.chat)
                           && Subscript(v, "facebook") == Success(r.value.facebook)
                           && Subscript(v, "explorer") == Success(r.value.explorer)
                           && Subscript(v, "reddit") == Success(r.value.reddit)
                           && Subscript(v, "technical_doc") == Success(r.value.technicalDoc)
                           && Subscript(v, "source_code") == Success(r.value.sourceCode)
                           && Subscript(v, "announcement") == Success(r.value.announcement)
  {
    match Kwargs(v, UrlsFields)
    case Failure(e) => Failure(e)
    case Success(x) => Success(Urls(x[0], x[1], x[2], x[3], x[4], x[5], x[6], x[7], x[8], x[9]))
  }
}

/** The DexScreener records (`models/dex_screener_models.py`). */
module DexModels {
  import opened Wrappers
  import opened Json

  datatype Token = Token(address: Json, name: Json, symbol: Json)

  datatype Website = Website(caption: Json, url: Json)

  datatype Social = Social(kind: Json, url: Json)

  datatype Info = Info(imageUrl: Json, websites: seq<Website>, socials: seq<Social>)

  /** Optional fields hold `JNull` (Python `None`) when the key is absent. */
  datatype Pair = Pair(
    chainId: Json, dexId: Json, url: Json, pairAddress: Json,
    baseToken: Token, quoteToken: Token, priceNative: Json, priceUsd: Json,
    txns: Json, volume: Json, priceChange: Json, liquidity: Json, fdv: Json,
    pairCreatedAt: Json, info: Option<Info>)

  datatype PairsResponse = PairsResponse(schemaVersion: Json, pairs: seq<Pair>)

  const TokenFields: seq<string> := ["address", "name", "symbol"]
  const WebsiteFields: seq<string> := ["label", "url"]
  const SocialFields: seq<string> := ["type", "url"]

  /** `Token(**v)`. */
  function MakeToken(v: Json): (r: Result<Token, PyError>)
    ensures r.Success? <==> v.JObj? && KeySet(v.fields) == {"address", "name", "symbol"}
    ensures r.Failure? ==> r.error == TypeError
    ensures r.Success? ==> Subscript(v, "address") == Success(r.value.address)
                           && Subscript(v, "name") == Success(r.value.name)
                           && Subscript(v, "symbol") == Success(r.value.symbol)
  {
    match Kwargs(v, TokenFields)
    case Failure(e) => Failure(e)
    case Success(x) => Success(Token(x[0], x[1], x[2]))
  }

  /** `Website(**v)`. */
  function MakeWebsite(v: Json): (r: Result<Website, PyError>)
    ensures r.Success? <==> v.JObj? && KeySet(v.fields) == {"label", "url"}
    ensures r.Failure? ==> r.error == TypeError
    ensures r.Success? ==> Subscript(v, "label") == Success(r.value.caption)
                           && Subscript(v, "url") == Success(r.value.url)
  {
    match Kwargs(v, WebsiteFields)
    case Failure(e) => Failure(e)
    case Success(x) => Success(Website(x[0], x[1]))
  }

  /** `Social(**v)`. */
  function MakeSocial(v: Json): (r: Result<Social, PyError>)
    ensures r.Success? <==> v.JObj? && KeySet(v.fields) == {"type", "url"}
    ensures r.Failure? ==> r.error == TypeError
    ensures r.Success? ==> Subscript(v, "type") == Success(r.value.kind)
                           && Subscript(v, "url") == Success(r.value.url)
  {
    match Kwargs(v, SocialFields)
    case Failure(e) => Failure(e)
    case Success(x) => Success(Social(x[0], x[1]))
  }
}
