/** The decision part of the `/webhook` handler: from the decoded alert to
    either the order payload handed to the broker or the reason the alert is
    turned away (a 400 for an unknown instrument, a 500 for any exception the
    handler catches). */
module Webhook {
  import opened Wrappers
  import opened PyValues
  import opened Instruments

  /** The decoded JSON body: field name to value. An absent field and a
      field present with `null` are different for `dict.get` with a default. */
  type Alert = map<string, Value>

  /** The lookup always asks for this underlying and this expiry. */
  const Underlying: string := "NIFTY"
  const Expiry: string := "2024-10-31"

  /** The defaults `dict.get` supplies for absent optional fields. */
  const DefaultQuantity: Value := Int(0)
  const DefaultExchangeSegment: Value := Str("NSE_FNO")
  const DefaultOrderType: Value := Str("MARKET")
  const DefaultProductType: Value := Str("INTRA")
  const DefaultPrice: Value := Int(0)

  /** The `order_payload` dictionary. The three categorical fields are passed
      on as supplied, whatever JSON value they hold. */
  datatype Payload = Payload(
    transactionType: string,
    securityId: int,
    quantity: int,
    exchangeSegment: Value,
    orderType: Value,
    productType: Value,
    price: real)

  /** The Python exceptions the handler can raise before placing an order. */
  datatype Fault =
    | ActionNotText     // `.upper()` on a missing or non-string action
    | QuantityNotInt    // `int(...)` on the quantity raises
    | PriceNotFloat     // `float(...)` on the price raises (also on overflow)
    | SymbolNotText     // `"C" in symbol` on a missing or non-string symbol
    | StrikeNotFloat    // `float(strike_price)` inside the lookup raises

  datatype Failure =
    | InvalidSecurityId  // the lookup gave a falsy id
    | Exception(fault: Fault)

  /** `data.get(key, default)`. */
  function GetOr(alert: Alert, key: string, default: Value): Value {
    if key in alert then alert[key] else default
  }

  /** The option type read off the symbol: a call whenever the letter `C`
      occurs anywhere in it, a put otherwise. */
  function OptionTypeOf(symbol: string): (t: string)
    ensures t == "CE" || t == "PE"
    ensures t == "CE" <==> exists i | 0 <= i < |symbol| :: symbol[i] == 'C'
  {
    if 'C' in symbol then "CE" else "PE"
  }

  /** Python's truth test on the lookup's answer: `None` and `0` are falsy,
      every other id is truthy. */
  predicate IsFalsy(id: Option<int>)
  {
    id.None? || id.value == 0
  }

  /** The instrument the handler asks for, given the symbol and its converted
      strike: always NIFTY with the fixed expiry, and a call or a put. */
  function Wanted(symbol: string, strike: real): (key: Key)
    ensures key.underlying == "NIFTY" && key.expiry == "2024-10-31"
    ensures key.optionType == "CE" || key.optionType == "PE"
    ensures key.optionType == "CE" <==> 'C' in symbol
    ensures key.strike == strike
  {
    Key(Underlying, Expiry, OptionTypeOf(symbol), strike)
  }

  /** The `order_payload` literal: the upper-cased action, the id, and the
      alert's optional fields with their defaults. */
  function Order(alert: Alert, action: string, id: int, quantity: int, price: real): Payload
  {
    Payload(
      Upper(action), id, quantity,
      GetOr(alert, "exchange_segment", DefaultExchangeSegment),
      GetOr(alert, "order_type", DefaultOrderType),
      GetOr(alert, "product_type", DefaultProductType),
      price)
  }

  // ---------------------------------------------------------------------
  // A declarative reading of the handler, independent of its evaluation
  // order.
  // ---------------------------------------------------------------------

  /** Every conversion the handler performs succeeds: nothing raises. */
  predicate WellTyped(alert: Alert, conv: Conversions) {
    && "action" in alert && alert["action"].Str?
    && IntOf(GetOr(alert, "quantity", DefaultQuantity), conv).Some?
    && FloatOf(GetOr(alert, "price", DefaultPrice), conv).Some?
    && "security_id" in alert && alert["security_id"].Str?
    && conv.parseFloat(LastFive(alert["security_id"].s)).Some?
  }

  /** The instrument a well-typed alert names. */
  function AlertKey(alert: Alert, conv: Conversions): Key
    requires WellTyped(alert, conv)
  {
    var symbol := alert["security_id"].s;
    Wanted(symbol, conv.parseFloat(LastFive(symbol)).value)
  }

  /** The payload a well-typed alert asks for, given the instrument's id. */
  function Requested(alert: Alert, conv: Conversions, id: int): Payload
    requires WellTyped(alert, conv)
  {
    Order(alert, alert["action"].s, id,
          IntOf(GetOr(alert, "quantity", DefaultQuantity), conv).value,
          FloatOf(GetOr(alert, "price", DefaultPrice), conv).value)
  }

  /** `p` is what the handler should hand on: the alert is well typed, the
      first instrument row matching what it names has a non-zero id, and `p`
      carries that id together with the alert's own fields. */
  ghost predicate Accepts(alert: Alert, table: Table, conv: Conversions, p: Payload) {
    && WellTyped(alert, conv)
    && exists i :: IsFirstMatch(table, i, AlertKey(alert, conv))
                   && table[i].securityId != 0
                   && p == Requested(alert, conv, table[i].securityId)
  }

  // ---------------------------------------------------------------------
  // The handler.
  // ---------------------------------------------------------------------

  /** The translation step of `webhook`, in the order the handler evaluates
      it: the first exception raised decides the 500; a falsy id gives the
      400; otherwise the payload is handed on. An exception is raised exactly
      when some conversion of the alert fails, and a payload handed on is one
      the declarative reading accepts. */
  function Translate(alert: Alert, table: Table, conv: Conversions): (r: Result<Payload, Failure>)
    ensures (r.Err? && r.error.Exception?) <==> !WellTyped(alert, conv)
    ensures r.Ok? ==> Accepts(alert, table, conv, r.value)
  {
    var action := GetOr(alert, "action", Null);
    if !action.Str? then Err(Exception(ActionNotText))
    else
      var symbol := GetOr(alert, "security_id", Null);
      var quantity := IntOf(GetOr(alert, "quantity", DefaultQuantity), conv);
      if quantity.None? then Err(Exception(QuantityNotInt))
      else
        var price := FloatOf(GetOr(alert, "price", DefaultPrice), conv);
        if price.None? then Err(Exception(PriceNotFloat))
        else if !symbol.Str? then Err(Exception(SymbolNotText))
        else
          var strike := conv.parseFloat(LastFive(symbol.s));
          if strike.None? then Err(Exception(StrikeNotFloat))
          else
            var id := GetSecurityId(table, Wanted(symbol.s, strike.value));
            if IsFalsy(id) then Err(InvalidSecurityId)
            else Ok(Order(alert, action.s, id.value, quantity.value, price.value))
  }

  /** The HTTP status the handler answers with for a translation outcome;
      a translated order is submitted and its response returned with 200. */
  function StatusCode(r: Result<Payload, Failure>): int
  {
    match r
    case Ok(_) => 200
    case Err(InvalidSecurityId) => 400
    case Err(Exception(_)) => 500
  }

  /** For a well-typed alert only the lookup's answer decides the outcome. */
  lemma TranslateWellTyped(alert: Alert, table: Table, conv: Conversions)
    requires WellTyped(alert, conv)
    ensures var id := GetSecurityId(table, AlertKey(alert, conv));
            Translate(alert, table, conv)
            == if IsFalsy(id) then Err(InvalidSecurityId) else Ok(Requested(alert, conv, id.value))
  {
  }

  /** The handler hands on exactly the payloads the declarative reading
      accepts. */
  lemma TranslateOkIff(alert: Alert, table: Table, conv: Conversions, p: Payload)
    ensures Translate(alert, table, conv) == Ok(p) <==> Accepts(alert, table, conv, p)
  {
    if Accepts(alert, table, conv, p) {
      TranslateWellTyped(alert, table, conv);
      var i :| IsFirstMatch(table, i, AlertKey(alert, conv)) && table[i].securityId != 0
               && p == Requested(alert, conv, table[i].securityId);
      GetSecurityIdIsFirstMatch(table, AlertKey(alert, conv), i);
    }
  }

  /** End to end: the handler answers 500 exactly when some conversion of
      the alert raises, 200 exactly when there is a payload the declarative
      reading accepts, and 400 otherwise. */
  lemma TranslateStatus(alert: Alert, table: Table, conv: Conversions)
    ensures StatusCode(Translate(alert, table, conv)) == 500 <==> !WellTyped(alert, conv)
    ensures StatusCode(Translate(alert, table, conv)) == 200 <==> exists p :: Accepts(alert, table, conv, p)
    ensures StatusCode(Translate(alert, table, conv)) == 400
            <==> WellTyped(alert, conv) && !exists p :: Accepts(alert, table, conv, p)
  {
    var r := Translate(alert, table, conv);
    if r.Ok? {
      TranslateOkIff(alert, table, conv, r.value);
    }
    forall p | Accepts(alert, table, conv, p)
      ensures r == Ok(p)
    {
      TranslateOkIff(alert, table, conv, p);
    }
  }

  /** A missing action is an exception whatever else the alert holds, and
      the handler answers 500. */
  lemma MissingActionIsServerError(alert: Alert, table: Table, conv: Conversions)
    requires "action" !in alert
    ensures Translate(alert, table, conv) == Err(Exception(ActionNotText))
    ensures StatusCode(Translate(alert, table, conv)) == 500
  {
  }

  /** A well-typed alert is refused with 400 "Invalid security_id" exactly
      when no instrument row matches what it names, or the first one that
      does has id 0; no payload is produced then. */
  lemma TranslateInvalidIdIff(alert: Alert, table: Table, conv: Conversions)
    requires WellTyped(alert, conv)
    ensures Translate(alert, table, conv) == Err(InvalidSecurityId)
            <==> (|| (forall i | 0 <= i < |table| :: !Matches(table[i], AlertKey(alert, conv)))
                  || (exists i :: IsFirstMatch(table, i, AlertKey(alert, conv)) && table[i].securityId == 0))
    ensures Translate(alert, table, conv) == Err(InvalidSecurityId) ==> StatusCode(Translate(alert, table, conv)) == 400
  {
    var key := AlertKey(alert, conv);
    TranslateWellTyped(alert, table, conv);
    if exists i :: IsFirstMatch(table, i, key) && table[i].securityId == 0 {
      var i :| IsFirstMatch(table, i, key) && table[i].securityId == 0;
      GetSecurityIdIsFirstMatch(table, key, i);
    }
  }

  /** Absent optional fields take their defaults: quantity 0, exchange
      segment NSE_FNO, order type MARKET, product type INTRA, price 0. */
  lemma TranslateDefaults(alert: Alert, table: Table, conv: Conversions, p: Payload)
    requires Translate(alert, table, conv) == Ok(p)
    ensures "quantity" !in alert ==> p.quantity == 0
    ensures "exchange_segment" !in alert ==> p.exchangeSegment == Str("NSE_FNO")
    ensures "order_type" !in alert ==> p.orderType == Str("MARKET")
    ensures "product_type" !in alert ==> p.productType == Str("INTRA")
    ensures "price" !in alert ==> p.price == 0.0
  {
  }

  /** Supplied values are carried into the payload unchanged (the quantity
      and price through `int(...)` and `float(...)`), and the transaction
      type is the upper-cased action. */
  lemma TranslateCarriesFields(alert: Alert, table: Table, conv: Conversions, p: Payload)
    requires Translate(alert, table, conv) == Ok(p)
    ensures "action" in alert && alert["action"].Str? && p.transactionType == Upper(alert["action"].s)
    ensures HasNoLowerAscii(p.transactionType)
    ensures "exchange_segment" in alert ==> p.exchangeSegment == alert["exchange_segment"]
    ensures "order_type" in alert ==> p.orderType == alert["order_type"]
    ensures "product_type" in alert ==> p.productType == alert["product_type"]
    ensures "quantity" in alert ==> IntOf(alert["quantity"], conv) == Some(p.quantity)
    ensures "price" in alert ==> FloatOf(alert["price"], conv) == Some(p.price)
  {
    UpperHasNoLower(alert["action"].s);
  }

  /** A handed-on payload names a real instrument: the first NIFTY row with
      the fixed expiry whose option type is the one read off the symbol and
      whose strike is the symbol's last five characters, and its id is not
      falsy. */
  lemma TranslateNamesInstrument(alert: Alert, table: Table, conv: Conversions, p: Payload)
    requires Translate(alert, table, conv) == Ok(p)
    ensures p.securityId != 0
    ensures exists i :: && IsFirstMatch(table, i, AlertKey(alert, conv))
                         && table[i].securityId == p.securityId
                         && table[i].underlying == "NIFTY"
                         && table[i].expiry == "2024-10-31"
                         && (table[i].optionType == "CE" <==> 'C' in alert["security_id"].s)
                         && Some(table[i].strike) == conv.parseFloat(LastFive(alert["security_id"].s))
  {
  }

  /** Only the NIFTY rows with the fixed expiry influence the outcome. */
  lemma {:induction false} TranslateOnlyReadsNiftySeries(alert: Alert, table: Table, conv: Conversions)
    ensures Translate(alert, table, conv) == Translate(alert, Series(table, "NIFTY", "2024-10-31"), conv)
  {
    if WellTyped(alert, conv) {
      GetSecurityIdOnlyReadsSeries(table, AlertKey(alert, conv));
    }
  }
}

/** Worked alerts for quirks of the handler as written. */
module WebhookScenarios {
  import opened Wrappers
  import opened PyValues
  import opened Instruments
  import opened Webhook

  /** Python's `float` on the texts these scenarios use. */
  const SampleConversions: Conversions :=
    Conversions((s: string) => None, (s: string) => if s == "22000" then Some(22000.0) else None)

  /** One put and one call at strike 22000 of the October series. */
  const OctoberRows: Table := [
    Instrument("NIFTY", "2024-10-31", "PE", 22000.0, 35001),
    Instrument("NIFTY", "2024-10-31", "CE", 22000.0, 35002)
  ]

  /** A put alert whose symbol spells the month OCT. */
  const OctoberPutAlert: Alert := map["action" := Str("buy"), "security_id" := Str("NIFTY24OCTPE22000")]

  /** The `C` of the month makes the handler order the call. */
  lemma OctoberPutOrdersTheCall()
    ensures Translate(OctoberPutAlert, OctoberRows, SampleConversions)
            == Ok(Payload("BUY", 35002, 0, Str("NSE_FNO"), Str("MARKET"), Str("INTRA"), 0.0))
  {
    OctoberPutAlertFields();
    OctoberPutSymbolReadsAsCall();
    OctoberCallLookup();
    UpperBuy();
  }

  /** What `dict.get` reads from the October put alert. */
  lemma OctoberPutAlertFields()
    ensures GetOr(OctoberPutAlert, "action", Null) == Str("buy")
    ensures GetOr(OctoberPutAlert, "security_id", Null) == Str("NIFTY24OCTPE22000")
    ensures GetOr(OctoberPutAlert, "quantity", DefaultQuantity) == Int(0)
    ensures GetOr(OctoberPutAlert, "price", DefaultPrice) == Int(0)
    ensures GetOr(OctoberPutAlert, "exchange_segment", DefaultExchangeSegment) == Str("NSE_FNO")
    ensures GetOr(OctoberPutAlert, "order_type", DefaultOrderType) == Str("MARKET")
    ensures GetOr(OctoberPutAlert, "product_type", DefaultProductType) == Str("INTRA")
  {
  }

  /** The symbol of the October 22000 put is read as the call at 22000. */
  lemma OctoberPutSymbolReadsAsCall()
    ensures OptionTypeOf("NIFTY24OCTPE22000") == "CE"
    ensures LastFive("NIFTY24OCTPE22000") == "22000"
  {
  }

  /** The lookup for the October 22000 call skips the put row before it. */
  lemma OctoberCallLookup()
    ensures GetSecurityId(OctoberRows, Key("NIFTY", "2024-10-31", "CE", 22000.0)) == Some(35002)
  {
  }

  /** The action `buy` becomes the transaction type `BUY`. */
  lemma UpperBuy()
    ensures Upper("buy") == "BUY"
  {
  }

  /** A symbol ending in the option type, as brokers usually write it: its
      last five characters are not a number, so the handler answers 500. */
  lemma TrailingOptionTypeIsServerError()
    ensures Translate(map["action" := Str("BUY"), "security_id" := Str("NIFTY24OCT22000CE")], OctoberRows, SampleConversions)
            == Err(Exception(StrikeNotFloat))
  {
  }

  /** A price given as an integer beyond the range of a double: `float(...)`
      raises `OverflowError`, so the handler answers 500. */
  lemma HugePriceIsServerError()
    ensures Translate(OctoberPutAlert["price" := Int(FloatOverflowBound)], OctoberRows, SampleConversions)
            == Err(Exception(PriceNotFloat))
  {
    assert OctoberPutAlert["price" := Int(FloatOverflowBound)]["action"] == Str("buy");
  }
}
