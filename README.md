# gigabot price alerts and market-data decoders in Dafny

This project models the logic core of gigabot, a Discord bot that watches
cryptocurrency prices, and proves properties of that model.

- **The price-change alert monitor** (`gigabot/scripts/alert_handler.py`):
  - `calculate_percentage_change`, with its infinity result for a zero old price (`Pct = Fin(real) | PosInf`).
  - `transform_values`, which parses a comma-separated threshold list.
  - The selection of the highest "greater-than" threshold the change clears and the lowest "less-than" threshold it is at or under.
  - The per-tick state machine over `baseline` and `previous_price`. It appears as a pure `Step`, as a fold `Run` over a finite sequence of fetch results, and as the class `Monitor`. The class has the two fields, a `Tick` method and a `RunTicks` loop, each proved equal to `Step`/`Run`.
- **The DexScreener adapter** (`gigabot/adapters/dex_screener_adapter.py`):
  - `parse_pair` and `parse_info`, which separate required keys from optional ones.
  - The lenient loop shared by `get_pairs`, `get_tokens` and `search_pairs`. It keeps every pair that decodes, in order, and skips the others.
  - The request/response handling around that loop.
- **The CoinMarketCap adapter** (`gigabot/adapters/coinmarketcap_adapter.py`):
  - `map_to_id` and `get_quote`. Each is a first-match linear search with three outcomes: a result, a domain error (`SymbolAddressMismatch`, `QuoteNotFound`), or `None` for a `KeyError` or a non-200 status. Both are modelled as methods with loops, proved against recursive reference functions.
- **The decoders of `gigabot/adapters/utils.py`**:
  - `create_cryptocurrency_quote`.
  - `create_coin_info`, which pops five keys out of the caller's dict in place. The dict is the class `PyDict`; the method's new state is tied to a function of the old one.
- **The dataclasses the decoders build** (`models.py`, `models/coin_info.py`, `models/dex_screener_models.py`), as datatypes with `Cls(**d)` constructors.

Python's semantics are modelled explicitly, because the adapters' outcomes depend on them:
- Decoded JSON is the datatype `Json`.
- `d[k]` raises `KeyError` on a dict without `k` and `TypeError` on anything else.
- `d.get` raises `AttributeError` on a non-dict.
- A `for` loop iterates list items, dict keys or string characters, and raises `TypeError` on null, booleans and numbers.
- `Cls(**d)` raises `TypeError` unless `d` is a dict whose keys are exactly the field names.
- A list comprehension stops at the first exception.
- An HTTP call is an `HttpResponse`: either unreachable, or a status with a body that did or did not decode as JSON.

### Behaviour that follows the code

Where the code's behaviour may surprise a reader, the model follows the code:

- Unchanged-price suppression tests `a_change != 0`. After a previous price of 0 the change is `inf`, so a zero price repeated after a zero price still alerts (`RepeatedZeroPriceIsNotSuppressed`).
- The threshold lists are sorted in place before use. The sort has no effect on any alert: the selections depend only on the set of thresholds (`MatchesIgnoreOrder`).
- There is no re-fire suppression. A threshold that stays cleared alerts on every tick whose price moved (`ThresholdRefires`).
- The baseline is never reset (`BaselineFixed`).
- Malformed data in the CoinMarketCap adapter does not always give `None`. Only a `KeyError` is caught. Several errors escape to the caller:
  - a `TypeError` from a bad `Tag(**...)` (`MalformedTagEscapes`);
  - a null `platform` while scanning;
  - a non-dict `data[...]`;
  - a body that is not JSON, because `response.json()` runs before the status check and outside the `try`.
- In the DexScreener adapter a non-JSON body gives `None`, because `JSONDecodeError` is a `RequestException`.
- In the DexScreener adapter a JSON body that is not an object raises `AttributeError` out of `get_pairs`.

## Model

| member | source | states |
|---|---|---|
| AlertHandler.PercentageChange | gigabot/scripts/alert_handler.py:51-55 | the result is the `inf` sentinel exactly when the old price is 0; otherwise `r * old == (new - old) * 100` |
| AlertHandler.AtLeast | gigabot/scripts/alert_handler.py:93 | `change >= gt_value`, where an infinite change clears every threshold |
| AlertHandler.AtMost | gigabot/scripts/alert_handler.py:97 | `change <= lt_value`, where an infinite change is under no threshold |
| AlertHandler.ZeroChangeIffSamePrice | gigabot/scripts/alert_handler.py:55 | from a non-zero old price, the change is 0 exactly when the price did not move |
| AlertHandler.PercentageChangeExamples | gigabot/scripts/alert_handler.py:51-55 | 100→110 is +10, 100→90 is −10, 0→5 is `inf` |
| AlertHandler.Tokens | gigabot/scripts/alert_handler.py:60 | one stripped token per comma-separated piece, in order |
| AlertHandler.ParseAll | gigabot/scripts/alert_handler.py:60 | succeeds exactly when every token parses; the values are the tokens' values in order; otherwise the error names the first token `float()` rejects |
| AlertHandler.TransformValues | gigabot/scripts/alert_handler.py:58-60 | one number per comma-separated, whitespace-stripped token, in input order; otherwise a `ValueError` naming the first token `float()` rejects |
| AlertHandler.NonNumericTokenRejected | gigabot/scripts/alert_handler.py:60 | a token holding a character that is not a digit, sign or point makes parsing fail |
| AlertHandler.IntTokenParses | gigabot/scripts/alert_handler.py:60 | an integer written out has no comma, is unchanged by `strip`, and parses back to itself |
| AlertHandler.TransformValuesRoundTrip | gigabot/scripts/alert_handler.py:58-60 | parsing a comma-joined list of integers gives back exactly that list |
| AlertHandler.TrailingCommaRejected | gigabot/scripts/alert_handler.py:58-60 | a threshold list ending in a comma raises `ValueError`, because its last token is empty |
| AlertHandler.ParseAllInts | gigabot/scripts/alert_handler.py:60 | the token-by-token half of the round trip |
| AlertHandler.AboveMatch | gigabot/scripts/alert_handler.py:92-95 | `None` exactly when no threshold is ≤ the change; otherwise a listed threshold ≤ the change and ≥ every other such threshold (`inf` clears every bar) |
| AlertHandler.BelowMatch | gigabot/scripts/alert_handler.py:96-99 | `None` exactly when no threshold is ≥ the change; otherwise a listed threshold ≥ the change and ≤ every other such threshold (`inf` is under none) |
| AlertHandler.MatchesIgnoreOrder | gigabot/scripts/alert_handler.py:68-69 | both selections give the same result for any permutation of the thresholds, so sorting is irrelevant |
| AlertHandler.MatchExamples | gigabot/scripts/alert_handler.py:92-99 | [5, 10, 20] at +12% selects 10; [−5, −10] at −7% selects −5 |
| AlertHandler.InfiniteChangeMatches | gigabot/scripts/alert_handler.py:92-99 | an infinite change clears some above-threshold and is under no below-threshold |
| AlertHandler.ParseConfig | gigabot/scripts/alert_handler.py:65-66 | succeeds exactly when both lists parse, and then holds both; a bad above-list is the error reported |
| AlertHandler.Evaluate | gigabot/scripts/alert_handler.py:86-118 | no alert when the change from previous is 0; an alert carries the change from baseline; Above carries the highest cleared threshold; Below only when no above-threshold is cleared, carrying the lowest threshold the change is under; no alert otherwise |
| AlertHandler.Step | gigabot/scripts/alert_handler.py:80-122 | a failed fetch changes nothing and alerts nothing; the first sample sets both values and alerts nothing; after any sample the previous price is that price; once anchored the baseline stays; an anchored sample alerts exactly what `Evaluate` selects for it |
| AlertHandler.UnchangedPriceIsSilent | gigabot/scripts/alert_handler.py:89-101 | a price equal to a non-zero previous price never alerts, whatever the baseline |
| AlertHandler.RepeatedZeroPriceIsNotSuppressed | gigabot/scripts/alert_handler.py:89-101 | a zero price after a zero price alerts when an above-threshold is configured |
| AlertHandler.AboveWinsOverBelow | gigabot/scripts/alert_handler.py:103-118 | when the price moved and an above-threshold is cleared, the single alert is an Above alert |
| AlertHandler.Run | gigabot/scripts/alert_handler.py:76-126 | a run of n fetches yields n per-tick alert slots |
| AlertHandler.RunAppend | gigabot/scripts/alert_handler.py:76-126 | a run over `xs + ys` is the run over `xs` continued from its final state with `ys` |
| AlertHandler.RunSnoc | gigabot/scripts/alert_handler.py:76-126 | one more tick extends a run by one `Step` |
| AlertHandler.FailuresChangeNothing | gigabot/scripts/alert_handler.py:80-83 | a run of failed fetches leaves the state unchanged and alerts nothing |
| AlertHandler.BaselineFixed | gigabot/scripts/alert_handler.py:85-122 | once anchored, no run changes the baseline |
| AlertHandler.RunKeepsConsistent | gigabot/scripts/alert_handler.py:72-122 | a run never leaves one of baseline and previous price set without the other |
| AlertHandler.RunFromInitial | gigabot/scripts/alert_handler.py:72-122 | from the initial state, the baseline is the first successful fetch and the previous price the last one |
| AlertHandler.AlertsNeedAnAnchor | gigabot/scripts/alert_handler.py:80-120 | an alert on tick i needs a successful fetch on tick i and an earlier successful fetch |
| AlertHandler.Scenario | gigabot/scripts/alert_handler.py:63-126 | prices 1.00, 1.00, 1.12, 1.12 with above-threshold 10 give exactly one alert: Above 10 at +12% on the third tick |
| AlertHandler.ThresholdRefires | gigabot/scripts/alert_handler.py:101-118 | prices 1.00, 1.12, 1.13 alert Above 10 on both the second and third ticks |
| AlertHandler.Monitor.constructor | gigabot/scripts/alert_handler.py:72-73 | starts with neither baseline nor previous price |
| AlertHandler.Monitor.Tick | gigabot/scripts/alert_handler.py:77-122 | updates the two fields and returns the alert exactly as `Step` does, keeping the monitor consistent |
| AlertHandler.Monitor.RunTicks | gigabot/scripts/alert_handler.py:76-126 | after the loop, the state and the alerts are those of `Run` over the fetches |
| PyText.Split | gigabot/scripts/alert_handler.py:60 | `split(",")` gives at least one piece and no piece holds the separator |
| PyText.JoinSplit | gigabot/scripts/alert_handler.py:60 | joining the pieces of a split with the separator gives back the text |
| PyText.SplitJoin | gigabot/scripts/alert_handler.py:60 | splitting a join of separator-free pieces gives back the pieces |
| PyText.Strip | gigabot/scripts/alert_handler.py:60 | `strip()` is a slice with only whitespace outside it, and it neither starts nor ends with whitespace |
| PyText.StripBounds | gigabot/scripts/alert_handler.py:60 | where the stripped text starts and ends |
| PyText.StripNoSpace | gigabot/scripts/alert_handler.py:60 | `strip()` leaves text without outer whitespace unchanged |
| PyText.ParseUnsigned | gigabot/scripts/alert_handler.py:60 | an unsigned decimal literal parses to a non-negative value |
| PyText.ParseFloat | gigabot/scripts/alert_handler.py:60 | `float()` on a decimal literal; it succeeds only on digits, signs and points |
| PyText.ParseFloatIntToString | gigabot/scripts/alert_handler.py:60 | `float(str(i)) == i` for every integer |
| PyText.ParseUnsignedDecimal | gigabot/scripts/alert_handler.py:60 | `float("w.f")` with at least one digit is the integer spelled by the digits of `w` and `f`, over ten to the number of digits of `f` |
| PyText.ParseUnsignedDigits | gigabot/scripts/alert_handler.py:60 | `float("w")` of a non-empty digit run is the integer it spells |
| PyText.ParseFloatSigned | gigabot/scripts/alert_handler.py:60 | a leading `-` negates and a leading `+` keeps the value of any unsigned literal |
| PyText.DigitsValueConcat | gigabot/scripts/alert_handler.py:60 | appending digits `f` to `w` multiplies `w`'s value by ten per digit of `f` and adds `f`'s value |
| PyText.DecimalRescaled | gigabot/scripts/alert_handler.py:60 | the value of `w.f` equals the value of the digits `w + f` over a power of ten |
| PyText.ParseFloatNegativeExample | gigabot/scripts/alert_handler.py:60 | `float("-2.5") == -2.5` |
| PyText.ParseFloatFractionExample | gigabot/scripts/alert_handler.py:60 | `float(".05") == 0.05` |
| PyText.ParseUnsignedSucceedsIff | gigabot/scripts/alert_handler.py:60 | an unsigned literal parses exactly when it is a non-empty digit run, or two digit runs around one point with at least one digit |
| PyText.ParseFloatSucceedsIff | gigabot/scripts/alert_handler.py:60 | `float()` succeeds exactly on such a literal, with at most one leading sign |
| PyText.ParseFloatRejectsEmpty | gigabot/scripts/alert_handler.py:60 | `float("")`, `float(".")` and `float("-")` raise `ValueError` |
| PyText.ParseFloatRejectsMisplacedSign | gigabot/scripts/alert_handler.py:60 | `float("1-2")` and `float("+-1")` raise `ValueError` |
| PyText.ParseFloatRejectsTwoPoints | gigabot/scripts/alert_handler.py:60 | `float("1.2.3")` raises `ValueError` |
| PyText.SplitTrailingSeparator | gigabot/scripts/alert_handler.py:60 | `(s + sep).split(sep)` is `s.split(sep)` with one more, empty, piece |
| Json.Subscript | gigabot/adapters/dex_screener_adapter.py:99-105 | `d[k]` succeeds exactly on a dict holding `k`; otherwise `KeyError(k)` on a dict, `TypeError` on anything else |
| Json.Truthy | gigabot/adapters/dex_screener_adapter.py:120 | falsy exactly for `None`, `False`, `0`, `""`, `[]` and `{}` |
| Http.IsHttpError | gigabot/adapters/dex_screener_adapter.py:35 | `raise_for_status()` raises for a 4xx or 5xx status |
| Json.GetOr | gigabot/adapters/dex_screener_adapter.py:38 | `d.get(k, default)` is the default for an absent key and `d[k]` for a present one; `AttributeError` on a non-dict |
| Json.DictGet | gigabot/adapters/dex_screener_adapter.py:106-113 | `d.get(k)` on a dict: the default when `k` is absent, `d[k]` otherwise |
| Json.Iterate | gigabot/adapters/coinmarketcap_adapter.py:63 | `for` visits list items, dict keys and string characters; it raises `TypeError` exactly on null, booleans and numbers |
| Json.Kwargs | gigabot/adapters/dex_screener_adapter.py:103-104 | `Cls(**d)` succeeds exactly when `d` is a dict with exactly the field names; each field then holds `d[name]`; otherwise `TypeError` |
| Json.MapAll | gigabot/adapters/dex_screener_adapter.py:124-125 | a comprehension succeeds exactly when every element converts, keeping length and order; otherwise the error is the first failing element's |
| CmcModels.MakeTag | gigabot/adapters/models.py:4-8 | `Tag(**d)` succeeds exactly on a dict with keys slug, name, category, and copies each value; any other value raises `TypeError` |
| CmcModels.MakePlatform | gigabot/adapters/models.py:10-16 | `Platform(**d)` succeeds exactly on a dict with its five field names, and copies each value; any other value raises `TypeError` |
| CmcModels.MakeQuoteDetail | gigabot/adapters/models.py:18-33 | `QuoteDetail(**d)` succeeds exactly on a dict with its fourteen field names, and each field holds the value of its key; any other value raises `TypeError` |
| CoinInfoModels.MakePlatform | gigabot/adapters/models/coin_info.py:13-19 | `Platform(**d)` succeeds exactly on a dict with its five field names, and copies each value; any other value raises `TypeError` |
| CoinInfoModels.MakeContractAddress | gigabot/adapters/models/coin_info.py:33-36 | `ContractAddress(**d)` succeeds exactly on a dict with keys contract_address, platform, and copies both; any other value raises `TypeError` |
| CoinInfoModels.MakeUrls | gigabot/adapters/models/coin_info.py:38-49 | `URLs(**d)` succeeds exactly on a dict with its ten field names, and copies each value; any other value raises `TypeError` |
| DexModels.MakeToken | gigabot/adapters/models/dex_screener_models.py:6-10 | `Token(**d)` succeeds exactly on a dict with keys address, name, symbol, and copies each value; any other value raises `TypeError` |
| DexModels.MakeWebsite | gigabot/adapters/models/dex_screener_models.py:12-15 | `Website(**d)` succeeds exactly on a dict with keys label, url, and copies both; any other value raises `TypeError` |
| DexModels.MakeSocial | gigabot/adapters/models/dex_screener_models.py:17-20 | `Social(**d)` succeeds exactly on a dict with keys type, url, and copies both; any other value raises `TypeError` |
| DexScreener.InfoList | gigabot/adapters/dex_screener_adapter.py:124-125 | an absent websites/socials key gives an empty list; a present list is converted entry by entry |
| DexScreener.ParseInfo | gigabot/adapters/dex_screener_adapter.py:116-126 | a falsy info value gives `None`; otherwise `imageUrl` is required (its error propagates), an error decoding `websites` or then `socials` propagates, and when all three decode the info is present with the lists of `InfoList` |
| DexScreener.Optional | gigabot/adapters/dex_screener_adapter.py:106-113 | `d.get(key)`: the key's value, or `None` when the key is absent |
| DexScreener.WebsitesKeepOrder | gigabot/adapters/dex_screener_adapter.py:124 | the websites list has one `Website` per input entry, in order |
| DexScreener.InfoListsDefaultEmpty | gigabot/adapters/dex_screener_adapter.py:124-125 | absent websites and socials give empty lists |
| DexScreener.ParsePair | gigabot/adapters/dex_screener_adapter.py:94-114 | succeeds exactly when the ten required keys are present, both tokens and the info decode; required fields are copied, tokens decoded, and `priceUsd`, `liquidity`, `fdv`, `pairCreatedAt` are `None` when absent |
| DexScreener.MissingRequiredKeyFails | gigabot/adapters/dex_screener_adapter.py:98-109 | a pair missing any of chainId, dexId, url, pairAddress, baseToken, quoteToken, priceNative, txns, volume, priceChange fails |
| DexScreener.KeepParsed | gigabot/adapters/dex_screener_adapter.py:37-42 | the loop keeps at most as many pairs as it is given |
| DexScreener.ParsedIndices | gigabot/adapters/dex_screener_adapter.py:37-42 | the reference definition: the ascending positions of exactly the entries that decode |
| DexScreener.KeepParsedIsParsedEntries | gigabot/adapters/dex_screener_adapter.py:37-42 | the k-th kept pair is the decoding of the k-th well-formed entry, and nothing else is kept |
| DexScreener.KeepParsedAppend | gigabot/adapters/dex_screener_adapter.py:38-42 | entries are handled independently: the result over a concatenation is the concatenation of the results |
| DexScreener.MalformedEntrySkipped | gigabot/adapters/dex_screener_adapter.py:39-42 | a malformed entry is skipped and does not abort the entries after it |
| DexScreener.AllWellFormedAllKept | gigabot/adapters/dex_screener_adapter.py:37-42 | when every entry decodes, every entry is kept, in order |
| DexScreener.CollectPairs | gigabot/adapters/dex_screener_adapter.py:37-42 | the loop with its per-entry `try` returns exactly `KeepParsed` of the entries |
| DexScreener.PairsOutcome | gigabot/adapters/dex_screener_adapter.py:28-48 | an unreachable host, an HTTP error status or a non-JSON body gives `None`; a non-object body raises `AttributeError` |
| DexScreener.PairsDefaults | gigabot/adapters/dex_screener_adapter.py:38-44 | a missing `pairs` gives an empty list; a missing `schemaVersion` gives "unknown" |
| DexScreener.PairsListIsKeptParsed | gigabot/adapters/dex_screener_adapter.py:36-45 | a `pairs` list becomes exactly the well-formed pairs, in order |
| DexScreener.UniterablePairsRaise | gigabot/adapters/dex_screener_adapter.py:38 | a null, numeric or boolean `pairs` raises `TypeError` out of the call |
| DexScreener.FetchPairs | gigabot/adapters/dex_screener_adapter.py:33-48 | the shared endpoint body returns exactly `PairsOutcome` |
| AdapterUtils.QuoteTags | gigabot/adapters/utils.py:7 | the tags are `data['tags']` converted entry by entry; a missing key raises its `KeyError`, and an uniterable list or an entry that is not a tag dict raises `TypeError` |
| AdapterUtils.QuoteUsd | gigabot/adapters/utils.py:9-10 | `quote.USD` is `QuoteDetail(**data['quote']['USD'])`; a missing `quote` or `USD` raises its `KeyError`, and a detail that is not a dict with exactly the detail keys raises `TypeError` |
| AdapterUtils.SubscriptAll | gigabot/adapters/utils.py:13-31 | succeeds exactly when every key is present, giving `data[k]` for each key; otherwise `KeyError` of a missing key, or `TypeError` on a non-dict |
| AdapterUtils.BuildQuote | gigabot/adapters/utils.py:12-33 | every scalar field holds its value; tags, platform and USD detail are the decoded ones |
| AdapterUtils.CreateCryptocurrencyQuote | gigabot/adapters/utils.py:5-33 | tags one per input tag, platform and `quote.USD` decoded, all seventeen scalar fields copied unchanged from their keys; the parts are decoded in source order and the first failure is raised: the tags' error, then `KeyError`/`TypeError` from `data['platform']`, `TypeError` from `Platform(**...)`, the USD detail's error, and last a `KeyError` for a missing scalar key |
| AdapterUtils.QuoteTagsInOrder | gigabot/adapters/utils.py:7 | the quote has one `Tag` per input tag, in order |
| AdapterUtils.PyDict.constructor | gigabot/adapters/utils.py:35 | the dict holds the caller's entries |
| AdapterUtils.PyDict.PopOr | gigabot/adapters/utils.py:37-38 | `pop(k, default)` returns the value or the default and removes `k` |
| AdapterUtils.GetOrDefault | gigabot/adapters/utils.py:37-38 | the value `pop(k, default)` returns: the entry for `k`, or the default when `k` is absent |
| AdapterUtils.PyDict.Pop | gigabot/adapters/utils.py:41 | `pop(k)` returns and removes the value, or raises `KeyError(k)` leaving the dict unchanged |
| AdapterUtils.OptionalPlatform | gigabot/adapters/utils.py:44-45 | a falsy platform gives `None`; otherwise `Platform(**p)`, with its error |
| AdapterUtils.ContractAddresses | gigabot/adapters/utils.py:48-49 | a list is converted entry by entry; null, a number or a boolean raises `TypeError` |
| AdapterUtils.BuildCoinInfo | gigabot/adapters/utils.py:52-59 | succeeds exactly when the remaining keys are the other eighteen fields, else `TypeError`; the keyword fields are the decoded ones |
| AdapterUtils.RemainingKeysPassThrough | gigabot/adapters/utils.py:52-58 | every remaining key's value becomes the field of that name unchanged |
| AdapterUtils.CoinInfoOutcome | gigabot/adapters/utils.py:35-59 | a missing `urls` raises `KeyError` after the tag keys are popped; on success the caller's dict has lost exactly the five special keys; the dict never gains keys |
| AdapterUtils.AfterUrls | gigabot/adapters/utils.py:43-59 | the rest of the decoding after `urls`: success leaves the dict without the five keys |
| AdapterUtils.AfterPlatform | gigabot/adapters/utils.py:47-59 | the rest of the decoding after `platform`: the dict has lost the five keys |
| AdapterUtils.CoinInfoParts | gigabot/adapters/utils.py:41-58 | a decoded coin info is built from the decoded urls, platform and contract list and the remaining keys |
| AdapterUtils.CoinInfoDefaults | gigabot/adapters/utils.py:37-49 | absent tag-names, tag-groups and contract_address default to empty lists |
| AdapterUtils.CoinInfoPlatform | gigabot/adapters/utils.py:44-45 | the platform is `None` exactly when the key is absent or falsy, and otherwise the decoded platform |
| AdapterUtils.CoinInfoContractsInOrder | gigabot/adapters/utils.py:48-49 | one `ContractAddress` per input entry, in order |
| AdapterUtils.CoinInfoSucceedsIff | gigabot/adapters/utils.py:35-59 | decoding succeeds exactly when urls, platform and contracts decode and the other keys are exactly the remaining eighteen fields |
| AdapterUtils.CreateCoinInfo | gigabot/adapters/utils.py:35-59 | the result and the caller's dict afterwards are those of `CoinInfoOutcome`; on success the dict has lost exactly the five special keys |
| CoinMarketCap.CatchKeyError | gigabot/adapters/coinmarketcap_adapter.py:68-70 | only a `KeyError` becomes `None`; any other error escapes |
| CoinMarketCap.NonOkOutcome | gigabot/adapters/coinmarketcap_adapter.py:71-73 | a non-200 response gives `None` when the error-message lookup works, and raises `AttributeError` when `status` is not a dict |
| CoinMarketCap.FirstMatch | gigabot/adapters/coinmarketcap_adapter.py:63-67 | the first entry whose test is true, with all earlier tests false; `None` exactly when every test is false; an error from the first test that is not false |
| CoinMarketCap.FirstMatchAt | gigabot/adapters/coinmarketcap_adapter.py:63-65 | the search stops at the first entry whose test is not false, whatever follows |
| CoinMarketCap.AddressProbe | gigabot/adapters/coinmarketcap_adapter.py:64 | the test succeeds exactly when `platform.token_address` exists, and is true exactly when it equals the address |
| CoinMarketCap.AddressProbes | gigabot/adapters/coinmarketcap_adapter.py:63-64 | one test per token, in order |
| CoinMarketCap.MapToIdOutcome | gigabot/adapters/coinmarketcap_adapter.py:33-73 | a failed request or non-JSON body raises; a non-200 status gives the non-OK outcome; it never raises `QuoteNotFound` |
| CoinMarketCap.MapToIdIn | gigabot/adapters/coinmarketcap_adapter.py:62-70 | the `try` block with its `KeyError` handler: no `KeyError` escapes, only `SymbolAddressMismatch` and other errors |
| CoinMarketCap.MapToIdReturnsFirstMatch | gigabot/adapters/coinmarketcap_adapter.py:61-65 | a returned id is that of the first token whose platform address matches |
| CoinMarketCap.FirstMatchIdReturned | gigabot/adapters/coinmarketcap_adapter.py:61-65 | conversely, when a token's address matches, every earlier token's is a clean mismatch and the token has an `id`, that id is returned |
| CoinMarketCap.MismatchIffNoAddressMatches | gigabot/adapters/coinmarketcap_adapter.py:63-68 | `SymbolAddressMismatch` escapes exactly when every token has an address and none matches |
| CoinMarketCap.MissingKeyBeforeMatchGivesNone | gigabot/adapters/coinmarketcap_adapter.py:62-70 | a missing key ahead of the match gives `None`, even if a later token would match |
| CoinMarketCap.NullPlatformRaisesTypeError | gigabot/adapters/coinmarketcap_adapter.py:64-68 | a null platform ahead of the match raises `TypeError` past the `KeyError` handler |
| CoinMarketCap.MapToIdWithoutDataKey | gigabot/adapters/coinmarketcap_adapter.py:63-70 | a body without `data` gives `None` |
| CoinMarketCap.MapToId | gigabot/adapters/coinmarketcap_adapter.py:33-73 | the loop with early return and raise gives exactly `MapToIdOutcome` |
| CoinMarketCap.IdProbe | gigabot/adapters/coinmarketcap_adapter.py:102 | the test succeeds exactly when `id` exists, and is true exactly when it equals the integer id |
| CoinMarketCap.EqualsInt | gigabot/adapters/coinmarketcap_adapter.py:102 | Python's `token['id'] == id`: a number equal to `id`, or a bool whose integer value is `id` |
| CoinMarketCap.EqualsIntExamples | gigabot/adapters/coinmarketcap_adapter.py:102 | `1.0 == 1` and `True == 1` hold; `1.5 == 1`, `"1" == 1` and `None == 0` do not |
| CoinMarketCap.IdProbes | gigabot/adapters/coinmarketcap_adapter.py:101-102 | one test per token, in order |
| CoinMarketCap.GetQuoteOutcome | gigabot/adapters/coinmarketcap_adapter.py:75-111 | a failed request or non-JSON body raises; a non-200 status gives the non-OK outcome; it never raises `SymbolAddressMismatch` |
| CoinMarketCap.GetQuoteIn | gigabot/adapters/coinmarketcap_adapter.py:98-108 | the `try` block with its `KeyError` handler: no `KeyError` escapes, only `QuoteNotFound` and other errors |
| CoinMarketCap.GetQuoteDecodesFirstMatch | gigabot/adapters/coinmarketcap_adapter.py:99-103 | a returned quote is decoded from the first token under the symbol whose id equals the requested id |
| CoinMarketCap.FirstMatchQuoteReturned | gigabot/adapters/coinmarketcap_adapter.py:99-103 | conversely, the first token under the symbol with the requested id, when it decodes, is the quote returned |
| CoinMarketCap.GetQuotePicks | gigabot/adapters/coinmarketcap_adapter.py:99-108 | when the `k`-th token is the first with the requested id, the outcome is that token's decoding with the `KeyError` handler |
| CoinMarketCap.DecodeMatch | gigabot/adapters/coinmarketcap_adapter.py:103-108 | a decoded token is returned; a `KeyError` while decoding gives `None`; any other error escapes |
| CoinMarketCap.QuoteNotFoundIffNoIdMatches | gigabot/adapters/coinmarketcap_adapter.py:101-105 | `QuoteNotFound` escapes exactly when every token has an id and none equals the requested one |
| CoinMarketCap.UndecodableQuote | gigabot/adapters/coinmarketcap_adapter.py:103-108 | if the matched token fails to decode, a `KeyError` gives `None` and any other error escapes |
| CoinMarketCap.GetQuoteFound | gigabot/adapters/coinmarketcap_adapter.py:99-103 | a returned quote means some token's id matched, and the outcome is the decoding of the first such token |
| CoinMarketCap.MalformedTagEscapes | gigabot/adapters/coinmarketcap_adapter.py:101-108 | a matched token with a tag that is not a tag dict makes `get_quote` raise `TypeError` instead of returning `None` |
| CoinMarketCap.UnknownSymbolGivesNone | gigabot/adapters/coinmarketcap_adapter.py:99-108 | a symbol absent from `data` gives `None` |
| CoinMarketCap.GetQuote | gigabot/adapters/coinmarketcap_adapter.py:75-111 | the loop with early return and raise gives exactly `GetQuoteOutcome` |

## Left out

- `send_alert` and all Discord embed and webhook rendering are not modelled. This is output formatting and network I/O; the model keeps only the alert record (direction, threshold, change from baseline).
- The infinite `while True`, `asyncio.sleep(1)`/`sleep(60)`, the aiohttp session and all logging and `print` calls are left out. They are timing and output, not logic. The model runs one tick, or a finite sequence of ticks.
- The log line at `alert_handler.py:123-125` recomputes the change for logging only, and `logging.info(..., gt_values.sort())` logs `None`. Neither affects behaviour.
- The price fetch (`price_service.fetch_dex_screener_data`) is not part of this model. Each tick receives its result as an `Option<real>` (`None` is a failed fetch). `float(current_price.priceUsd)` on a missing or malformed `priceUsd` is not modelled.
- Prices and percentages are reals, not IEEE floats. Rounding, NaN and `-inf` are not modelled; the only infinity is the `inf` of a zero old price.
- PyText.ParseFloat: accepts only decimal literals with an optional sign (`12`, `-3.5`, `.5`, `7.`). It rejects exponents, `inf`/`nan`, underscores and non-ASCII digits, which Python's `float()` accepts.
- The threshold sort (`alert_handler.py:68-69`) is not performed. `MatchesIgnoreOrder` proves that it cannot change any alert.
- The configuration (`ALERT_GREATER_THAN`, `ALERT_LESS_THAN`, `SYMBOL`, webhook) is not read from the environment. The threshold texts are parameters of `ParseConfig`.
- `requests.get`, URL, header and query-parameter construction, timeouts and the adapters' `__init__` are not modelled. An HTTP call is an `HttpResponse` input: unreachable, or a status and a body that did or did not decode as JSON.
- The model assumes that `response.json()` failing raises a `RequestException`, which holds for requests 2.27 and later.
- Each adapter is modelled as a function of the response. The `self` fields set in `__init__` (api key, base URL, headers) only shape the request.
- `gigabot/adapters/kubernetes_adapter.py`, the bot commands, `bot_setup.py`, `send_price.py` and `price_service.py` are not part of this model. They are client glue around the adapters.
- `gigabot/adapters/models/crypto_quote.py`, which `utils.py` imports, is not part of this model. `create_cryptocurrency_quote` is modelled with the classes of `gigabot/adapters/models.py`, which have the same names. `utils.py` also builds the platform of `create_coin_info` with the `Platform` it imports from `models/crypto_quote.py` (line 2); the model uses `CoinInfoModels.Platform` there, which has the same five field names, so `Platform(**d)` accepts and rejects the same dicts.
- JSON objects with repeated keys are not modelled: a lookup takes the first entry.
- Dataclass fields are not type-checked at run time, so each field holds whatever JSON value it was given. The model does the same.
- `PyDict` is a map, so the insertion order of the caller's dict is not modelled. `CoinInfo(**data)` does not depend on it.
- The unused dataclasses `Status`, `Coin`, `CoinPlatform` (`models/coin_info.py`) and `TokensResponse`, `SearchResponse` (`models/dex_screener_models.py`) are not modelled.
- DexScreener.KeepParsed: its own contract states only a length bound. What it keeps is stated against the reference `ParsedIndices` by `KeepParsedIsParsedEntries`, `KeepParsedAppend` and `AllWellFormedAllKept`.
- AlertHandler.Run: its own contract states only the number of alert slots. The run properties are the lemmas beside it.
