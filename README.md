# Forex API client and report renderer, modelled in Dafny

This project models the core of a small Python tool. The tool fetches live
USD exchange rates from the Currency Layer API and renders them as an HTML
report. Two parts are modelled:

- `ForexAPIClient` (src/api/forex_client.py) holds an API key, a base URL
  and a fixed list of eight supported currency pairs.
  - `get_rates` normalises the requested pairs. It rejects unsupported pairs
    before any request is made, then issues one request with the source
    fixed to USD.
  - It then turns the provider's USD-based quotes into per-pair rates. A
    direct pair (`USDJPY`) keeps its quote. Any other pair (`EURUSD`) gets
    the reciprocal of the quote for `USD` + its first three letters.
  - `get_supported_pairs` returns a copy of the list.
- `HTMLGenerator.generate_forex_report` (src/utils/html_generator.py) turns
  the result dictionary into one HTML document:
  - a metadata block in which a missing key shows its default;
  - a "Filtered Rates" section and an "All Quotes" section. Each is a
    table sorted by pair, or a placeholder paragraph when its dictionary
    is empty.

Files:

- `wrappers.dfy`: `Option` and `Result`.
- `lex_order.dfy`: Python's string ordering and the sorted key sequence of a
  set. `sorted(d.items())` is built from these.
- `forex_client.dfy`: the client class and the request/response pipeline.
  - The network is a `Provider` object. It answers each request with the
    parsed JSON body, or `None` when the body is not JSON.
  - The provider keeps a ghost log of the requests it received, so the
    contract of `GetRates` states what was sent.
- `html_generator.dfy`: the renderer, in three layers:
  - `Layout` says what the report shows.
  - `Text` says how a report is spelled as HTML.
  - `GenerateForexReport` builds the string piece by piece, as the source
    does, and is proved equal to `Text(Layout(...))`.
- `report_properties.dfy`: what the rendered document promises. The
  doctype comes first and `</html>` last, and the sections appear in order.
  The metadata fields are shown as they are, with their defaults. The
  placeholders hold no table, and each table lists each entry once, in
  ascending pair order. It also covers the report of a successful fetch.

The wall clock, `:.6f` formatting and `strftime` are parameters:
- `now` is the current epoch time;
- `generatedAt` is the formatted current time;
- `fixed6` formats a rate with six decimals;
- `dateTime` formats an epoch timestamp.

## Model

| member | source | states |
|---|---|---|
| LexOrder.Less | src/utils/html_generator.py:93 | Python's `<` on strings: code-point comparison at the first difference, and a proper prefix is smaller (definition; its laws are the lemmas below) |
| LexOrder.LessTotal | src/utils/html_generator.py:93 | Two different strings are always ordered one way or the other, so `sorted` over distinct dictionary keys is well defined |
| LexOrder.LessTransitive | src/utils/html_generator.py:93 | Python's string order is transitive |
| LexOrder.LeastExists | src/utils/html_generator.py:93 | Every non-empty set of keys has a least element |
| LexOrder.SortedKeys | src/utils/html_generator.py:93 | The sorted keys of a set hold every key exactly once, in strictly ascending order |
| LexOrder.Sorted | src/utils/html_generator.py:114 | The selection loop that produces `sorted(d)` yields exactly `SortedKeys` of the key set |
| ForexClient.ForexApiClient.constructor | src/api/forex_client.py:11-27 | A client with a non-empty key holds that key and base URL, and the eight supported pairs in their listed order |
| ForexClient.ForexApiClient.Create | src/api/forex_client.py:11-20 | Construction fails exactly when API_KEY is missing or empty; otherwise BASE_URL is used, defaulting to http://apilayer.net/api/live |
| ForexClient.Requested | src/api/forex_client.py:30-33 | The requested pairs: the supported list for None, `[p]` for one string, the list itself otherwise (definition; see `NormalisedRequests`) |
| ForexClient.NormalisedRequests | src/api/forex_client.py:30-33 | No argument requests every supported pair and always passes validation; a single string is a one-element request, rejected exactly when unsupported; a list is taken as it is |
| ForexClient.OnlySupportedIsValid | src/api/forex_client.py:36 | A request made only of supported pairs has no invalid pair |
| ForexClient.InvalidPairs | src/api/forex_client.py:36 | A pair is reported invalid if and only if it was requested and is not supported |
| ForexClient.InvalidPairsAppend | src/api/forex_client.py:36 | The invalid-pair filter keeps request order: filtering a concatenation concatenates the filtered parts |
| ForexClient.Provider.constructor | src/api/forex_client.py:47 | A provider starts with an empty request log and answers with the given reply function |
| ForexClient.Provider.Get | src/api/forex_client.py:47-56 | A request is appended to the provider's log, and the provider's reply to it is returned |
| ForexClient.ForexApiClient.GetRates | src/api/forex_client.py:29-98 | With any unsupported pair the call fails with exactly those pairs and the provider's log is unchanged. Otherwise the log grows by exactly one request (base URL, key, source USD, format 1), and the result is `Outcome` of the provider's reply to it |
| ForexClient.QuoteKey | src/api/forex_client.py:67-79 | Every quote key starts with "USD" |
| ForexClient.DirectKeyIsPair | src/api/forex_client.py:67-70 | A pair that starts with "USD" is its own quote key |
| ForexClient.SupportedPairsAreUsdPairs | src/api/forex_client.py:23-27 | Every supported pair has six letters and is direct, or ends in "USD" and is looked up under "USD" + its first three letters |
| ForexClient.RatesOf | src/api/forex_client.py:65-84 | The `rates` dictionary: an entry for each requested pair whose quote key was quoted, holding `Rate` of that quote and the shared timestamp (definition; see `RatesAreQuotedRequests`) |
| ForexClient.Rate | src/api/forex_client.py:72-84 | A direct pair's rate is its quote; any other rate times its quote is 1 |
| ForexClient.DeriveRates | src/api/forex_client.py:65-84 | The rate loop fails on a zero quote for an inverse pair, and otherwise produces exactly the rate map `RatesOf` |
| ForexClient.Outcome | src/api/forex_client.py:52-97 | Everything after the request: a body that is not JSON, a provider failure, a zero divisor, or the result dictionary (definition; its lemmas follow) |
| ForexClient.OutcomeFailures | src/api/forex_client.py:52-59 | The reply is rejected when it is not JSON, or when success is not true (carrying `error.info`, or "Unknown error"). Otherwise it fails only on a zero divisor for a requested pair |
| ForexClient.DirectRate | src/api/forex_client.py:67-75 | A requested, quoted direct pair carries its quote unchanged |
| ForexClient.InverseRate | src/api/forex_client.py:76-84 | A requested inverse pair whose USD key is quoted carries 1 / quote, and that quote is non-zero |
| ForexClient.RatesAreQuotedRequests | src/api/forex_client.py:65-84 | The rates are exactly the requested pairs whose quote key was quoted; nothing unrequested appears |
| ForexClient.SharedTimestamp | src/api/forex_client.py:61 | The result timestamp is the provider's, or the current time when absent, and every rate carries it |
| ForexClient.ResultFields | src/api/forex_client.py:89-97 | success is true; all_quotes is the provider's quotes unchanged, or empty; terms/privacy default to "N/A" and source to "USD" |
| ForexClient.ForexApiClient.GetSupportedPairs | src/api/forex_client.py:100-102 | Returns a fresh array holding the eight supported pairs |
| ForexClient.EditingCopyKeepsSupportedPairs | src/api/forex_client.py:100-102 | After any element `i` of the returned copy is overwritten with any `v`, the copy is the supported list with that one change, and the client's own list is unchanged |
| HtmlGenerator.ShowSuccess | src/utils/html_generator.py:78 | Python's `str` of the success flag: "True" exactly for true, "False" exactly for false, "N/A" exactly when the key is missing |
| HtmlGenerator.RateValues | src/utils/html_generator.py:97 | The value shown for each filtered pair is its entry's `rate`, with the same keys |
| HtmlGenerator.TableRows | src/utils/html_generator.py:93-98 | One row per dictionary entry, in strictly ascending pair order, each showing `fixed6` of the entry's value |
| HtmlGenerator.TableRowsCoverEntries | src/utils/html_generator.py:114-119 | Every dictionary entry has a row |
| HtmlGenerator.AppendTable | src/utils/html_generator.py:86-100 | The table branch appends the header, one row per sorted entry and the closing tag, i.e. the text of `TableRows` |
| HtmlGenerator.AppendSection | src/utils/html_generator.py:107-123 | A section appends the table of a non-empty dictionary, or the placeholder paragraph for an empty one |
| HtmlGenerator.Layout | src/utils/html_generator.py:13-25 | What the report shows: the metadata with their defaults, and per dictionary either the placeholder or its table (definition; see `SectionShape` and `ReportMetadataLines`) |
| HtmlGenerator.Text | src/utils/html_generator.py:28-128 | The HTML spelling of a report: the template, the metadata paragraphs, both sections and the closing tags (definition) |
| HtmlGenerator.GenerateForexReport | src/utils/html_generator.py:8-130 | The returned HTML is exactly `Text(Layout(input, ...))` |
| ReportProperties.DocumentStart | src/utils/html_generator.py:28 | The report starts with `<!DOCTYPE html>` |
| ReportProperties.DocumentEnd | src/utils/html_generator.py:125-128 | The report ends with `</html>` |
| ReportProperties.SectionOrder | src/utils/html_generator.py:84-123 | The Filtered Rates heading and its section occur before the All Quotes heading and its section, without overlapping |
| ReportProperties.MetadataShown | src/utils/html_generator.py:77-82 | Every metadata line occurs in the report |
| ReportProperties.FieldsOfLines | src/utils/html_generator.py:77-82 | The lines hold the generation time, success, terms and privacy links, source and timestamp, each inserted as it is |
| ReportProperties.ReportFieldsShown | src/utils/html_generator.py:77-82 | Every metadata paragraph of a report occurs in its text |
| ReportProperties.LayoutFields | src/utils/html_generator.py:13-25 | The report's metadata paragraphs are built from the input's fields, with "N/A" or "USD" for a missing key |
| ReportProperties.ReportShowsFields | src/utils/html_generator.py:13-25 | The rendered document contains each metadata paragraph built from the input: the generation time, success, the terms and privacy links, source and timestamp, each inserted unescaped, or its default when the key is missing |
| ReportProperties.ReportMetadataLines | src/utils/html_generator.py:13-25 | The metadata lines show the result's fields, or "N/A" (success, terms, privacy, timestamp) and "USD" (source) when a key is missing; a present timestamp is shown through `dateTime` |
| ReportProperties.TableRowsShowEntries | src/utils/html_generator.py:114-119 | A table shows each entry exactly once, in ascending pair order, with its formatted value |
| ReportProperties.PlaceholderHasNoTable | src/utils/html_generator.py:102 | A placeholder paragraph whose message has no '<' contains no `<table>` |
| ReportProperties.SectionShape | src/utils/html_generator.py:86-102 | A section is the placeholder exactly when its dictionary is empty; otherwise it is a table showing the dictionary |
| ReportProperties.FilteredRatesSection | src/utils/html_generator.py:86-102 | With no rates (key missing or empty) the section is `<p>No filtered rates available.</p>` and has no table; otherwise it is the table of the rates |
| ReportProperties.AllQuotesSection | src/utils/html_generator.py:107-123 | With no quotes the section is `<p>No quotes available.</p>` and has no table; otherwise it is the table of all quotes |
| ReportProperties.NoRatesWhenNothingQuoted | src/api/forex_client.py:86 | A fetch's rates are empty exactly when no requested pair was quoted |
| ReportProperties.ResultReport | src/utils/html_generator.py:13-25 | The report of a successful fetch shows "True" and the fetch's timestamp. Its filtered table lists only requested pairs, and it shows the placeholder exactly when no requested pair was quoted |
| ReportProperties.FetchReport | src/api/forex_client.py:86-98 | The same holds for the report of any `get_rates` result that succeeds |

## Left out

- HTTP and JSON: `requests.get` and `response.json()` are the `Provider` object's `Get`. Network exceptions from `requests` and HTTP status codes are not modelled, and neither does the source check them.
- Environment: `load_dotenv` and `os.getenv` are the two optional arguments of `Create`.
- Debug output: the `print` calls in `get_rates` (raw response, parsed JSON, the "no rates" warning) produce no result and are not modelled.
- Error messages: only the data each error carries is modelled (the invalid pairs, the provider's `info`), not the message text.
- Clock and formatting: `datetime.now`, `datetime.fromtimestamp(...).strftime` and `:.6f` are parameters, as described above.
- Floating point: quotes and rates are `real`. `Rate`'s `rate * quote == 1.0` holds for reals, and IEEE rounding of `1 / quote` is not modelled.
- ForexClient.OutcomeFailures: the provider's `success` field is a JSON boolean or absent. Python's truthiness of other values (a non-empty string, a non-zero number) is not modelled.
- HtmlGenerator.GenerateForexReport: the input's `success` is a boolean or absent, and `timestamp` is an integer or absent. Other Python values, which the source would print or pass to `fromtimestamp`, are not modelled.
- Escaping: the code inserts `terms`, `privacy` and `source` unescaped (src/utils/html_generator.py:79-81). The model does the same, and the lemmas state the verbatim insertion.
- The two duplicated table loops of the renderer are one method, `AppendTable`, called for each section.
- `HTMLGenerator.save_report`, `main.py` and the remaining modules are not part of this model.
