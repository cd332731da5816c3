# Alert-to-order translation of the algotrade webhook

The service receives a trading alert as a JSON body on `POST /webhook` and
turns it into an order for the DhanHQ brokerage API. This project models the
decision logic of `trade.py`:

- `get_security_id`: filter the instrument list on underlying symbol, expiry
  date, option type and strike, and answer the SECURITY_ID of the first
  matching row, or `None` (module `Instruments`).
- the translation step of `webhook`: upper-case the action, fill the defaults
  of the optional fields, read the option type and the strike off the
  `security_id` symbol, look the instrument up under `NIFTY` and the expiry
  `2024-10-31`, and either refuse the alert or build the order payload
  (module `Webhook`, function `Translate`).

The alert is a map from field names to JSON scalars (`PyValues.Value`:
text, integer, finite float, boolean or `null`), so that an absent field and
a field holding `null` stay different, as they are for `dict.get` with a
default, and an integer `5` stays different from a float `5.0`. Python's
`str.upper`, `s[-5:]`, and `int(...)` / `float(...)` of integers, floats and
booleans are written out in `PyValues`, including the `OverflowError` of
`float(...)` on an integer beyond the range of a double; the parsing of TEXT
by `int` and `float` is a parameter (`PyValues.Conversions`). Each exception
the model covers (a missing or non-text action or symbol, a failing
conversion of quantity, price or strike) becomes `Err(Exception(fault))`,
answered with 500; a falsy id (`None` or `0`) becomes
`Err(InvalidSecurityId)`, answered with 400; otherwise `Ok(payload)` is the
payload handed to `dhan.place_order`.

`Webhook.Accepts` is an independent, declarative reading of the handler (the
first matching row by position, the alert's own fields) and
`Webhook.TranslateOkIff` proves that `Translate` hands on exactly the payloads
it accepts.

Two consequences of the code as written are shown as worked alerts in
`WebhookScenarios`: a put whose symbol spells the month `OCT` is ordered as
the call, because the option type is `CE` whenever a `C` occurs anywhere in
the symbol; and a symbol that ends in its option type (`...22000CE`) gives a
500, because its last five characters are not a number.

What `trade.py` does not do, and the model therefore does not do either: the
action is not checked against BUY/SELL, the quantity defaults to 0 and is not
checked for positivity, the exchange segment, order type and product type
are not checked against any vocabulary, the `security_id` field is always
parsed as a symbol (never trusted as an identifier), and there is no
display-name catalog and no option-chain fallback.

## Model

| member | source | states |
|---|---|---|
| PyValues.Upper | trade.py:44 | the upper-cased action has the same length and each character is the upper-case form of the original one |
| PyValues.UpperIdempotent | trade.py:44 | upper-casing an already upper-cased action changes nothing |
| PyValues.UpperHasNoLower | trade.py:44 | the transaction type built from the action holds no lower-case letter |
| PyValues.LastFive | trade.py:55 | the strike text is a suffix of the symbol, five characters long or the whole symbol when it is shorter |
| PyValues.Truncate | trade.py:46 | `int()` of a float rounds toward zero: the result lies within one of the number, on the same side of zero |
| PyValues.TruncateWhole | trade.py:46 | a float quantity holding a whole number is kept unchanged |
| PyValues.IntOfThroughFloat | trade.py:46-50 | for a JSON number or boolean, `int()` gives what `int(float())` gives, and raises only where `float()` raises too |
| Instruments.Where | trade.py:27-32 | a boolean mask keeps only rows it accepts, all of them, and no more rows than the table has |
| Instruments.WhereStartsAtFirstKept | trade.py:32-36 | the first row of a masked frame is the first row of the table the mask accepts |
| Instruments.WhereNarrows | trade.py:27-30 | masking with a narrower mask after a wider one keeps the same rows as the narrower mask alone |
| Instruments.Filter | trade.py:27-30 | the filtered frame holds only rows matching all four keys, and every matching row of the table |
| Instruments.GetSecurityId | trade.py:24-36 | the lookup gives `None` exactly when no row matches underlying, expiry, option type and strike; otherwise the id of the first row whose four key fields equal the arguments |
| Instruments.FirstMatchUnique | trade.py:36 | there is only one first matching row |
| Instruments.GetSecurityIdIsFirstMatch | trade.py:36 | when a row matches, the lookup answers the SECURITY_ID of the first matching row in table order |
| Instruments.Series | trade.py:27-28 | the rows of one underlying and expiry, all of them and only them |
| Instruments.GetSecurityIdOnlyReadsSeries | trade.py:27-28 | rows of another underlying or expiry never change the lookup's answer |
| Webhook.OptionTypeOf | trade.py:54 | the option type is always CE or PE, and CE exactly when the symbol contains `C` anywhere |
| Webhook.Wanted | trade.py:53-58 | the lookup is asked for underlying NIFTY, expiry 2024-10-31, the converted strike, and option type CE exactly when the symbol contains `C`, PE otherwise |
| Webhook.Translate | trade.py:44-71 | an exception is raised exactly when a conversion of the alert fails, and a payload handed on is one the declarative reading `Accepts` admits |
| Webhook.TranslateWellTyped | trade.py:53-71 | once every conversion succeeds, the outcome is the 400 refusal when the lookup's answer is falsy and otherwise the payload holding that id |
| Webhook.TranslateOkIff | trade.py:44-71 | a payload is handed on exactly when the alert converts without error, the first matching instrument row has a non-zero id, and the payload holds that id with the alert's fields |
| Webhook.TranslateStatus | trade.py:44-80 | the handler answers 500 exactly when a conversion of the alert raises, 200 exactly when some payload is accepted, and 400 exactly when the alert converts but no payload is accepted |
| Webhook.MissingActionIsServerError | trade.py:44-80 | an alert without an action fails on `.upper()` whatever else it holds, and is answered 500 |
| Webhook.TranslateInvalidIdIff | trade.py:58-60 | a well-typed alert is refused with 400 exactly when no row matches or the first match has id 0, and no payload is produced |
| Webhook.TranslateDefaults | trade.py:46-50 | absent fields take quantity 0, exchange NSE_FNO, order type MARKET, product INTRA and price 0 |
| Webhook.TranslateCarriesFields | trade.py:44-71 | the transaction type is the upper-cased action; supplied exchange, order and product values are carried unchanged; quantity and price are the `int()`/`float()` conversions of the supplied values, whatever their JSON type |
| Webhook.TranslateNamesInstrument | trade.py:53-71 | a handed-on payload has a non-zero id taken from the first NIFTY row of the fixed expiry whose option type and strike are the ones read off the symbol |
| Webhook.TranslateOnlyReadsNiftySeries | trade.py:53-58 | the outcome depends only on the NIFTY rows with expiry 2024-10-31 |
| WebhookScenarios.OctoberPutOrdersTheCall | trade.py:54-71 | the alert for the October 22000 put is sent as an order for the October 22000 call |
| WebhookScenarios.TrailingOptionTypeIsServerError | trade.py:30 | a symbol ending in its option type fails the strike conversion and gives a 500 |
| WebhookScenarios.HugePriceIsServerError | trade.py:50 | an integer price beyond the double range makes `float()` raise, giving a 500 |

## Left out

- Flask setup, routing, decoding of the request body and JSON encoding of the responses: HTTP plumbing. A body that is not a JSON object is not modelled.
- Logging: no behaviour to state.
- Loading the instrument CSV with pandas: file I/O; the table is a given sequence of rows, only ever read (the lookup is a pure function of it).
- DhanHQ client construction and `dhan.place_order`: a foreign network call. `Ok(payload)` stands for the payload handed on; a failure raised by `place_order` (also a 500) and the broker's response body are not modelled.
- Parsing of text by Python's `int()` and `float()`: taken as the parameter `Conversions`, not modelled; floating-point rounding is not modelled either (prices and strikes are exact reals, and `float()` of an integer within range gives that integer exactly).
- Exceptions other than those of the conversions listed above (for instance from pandas itself): not modelled.
- Non-finite floats (`inf`, `nan`, which Python's JSON decoder can produce) and pandas missing values (NaN cells in the instrument list): not modelled; the `OverflowError` and `ValueError` of `int()` on such floats are therefore not modelled either.
- JSON arrays and objects as field values (for which `"C" in symbol` would test membership): only JSON scalars are modelled.
- PyValues.Upper: models `str.upper` on ASCII letters only; other Unicode case mappings are not modelled.
