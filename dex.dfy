/**
 * The dex component: it decodes the two circuit-breaker events of the dex
 * and records every change of a circuit breaker's balance as one signed row
 * of the table `dex_value_circuit_breaker_change`.
 *
 * The protobuf and event-attribute decoders, and the conversions from wire
 * values to domain values, belong to other crates; they are passed in as the
 * functions of a `Decoders` value.
 */
module Dex {
  import opened Wrappers
  import opened Ints
  import opened Sql

  const CREDIT_KIND: string := "penumbra.core.component.dex.v1.EventValueCircuitBreakerCredit"
  const DEBIT_KIND: string := "penumbra.core.component.dex.v1.EventValueCircuitBreakerDebit"

  /** `Event::NAMES`: the event kinds this component handles. */
  const NAMES: seq<string> := [CREDIT_KIND, DEBIT_KIND]

  /** The events this component handles; every field is always present. */
  datatype Event =
    | CircuitBreakerCredit(assetId: AssetId, previousBalance: Amount, newBalance: Amount)
    | CircuitBreakerDebit(assetId: AssetId, previousBalance: Amount, newBalance: Amount)

  // ---------------------------------------------------------------------
  // The wire side
  // ---------------------------------------------------------------------

  datatype ProtoAssetId = ProtoAssetId(inner: seq<Byte>)
  datatype ProtoAmount = ProtoAmount(lo: nat, hi: nat)

  /** The message either circuit-breaker event carries; protobuf leaves each field optional. */
  datatype CircuitBreakerMessage = CircuitBreakerMessage(
    assetId: Option<ProtoAssetId>,
    previousBalance: Option<ProtoAmount>,
    newBalance: Option<ProtoAmount>)

  datatype Attribute = Attribute(key: string, value: string)

  /** An event as the indexer hands it over: its kind and its attributes. */
  datatype ContextualizedEvent = ContextualizedEvent(kind: string, attributes: seq<Attribute>)

  /**
   * The foreign calls of the decoder: `from_event` for each message type,
   * `AssetId::try_from` and `Amount::try_from`. Each returns its own error text.
   */
  datatype Decoders = Decoders(
    creditFromEvent: seq<Attribute> -> Result<CircuitBreakerMessage, string>,
    debitFromEvent: seq<Attribute> -> Result<CircuitBreakerMessage, string>,
    assetId: ProtoAssetId -> Result<AssetId, string>,
    amount: ProtoAmount -> Result<Amount, string>)

  datatype DexError =
    | UnrecognizedKind(kind: string)
    | Malformed(reason: string)
    | MissingField(field: string)
    | ConversionFailed(reason: string)
    | BalanceDecreased(previous: Amount, current: Amount)
    | BalanceIncreased(previous: Amount, current: Amount)

  /** The decimal digits of `n`, as `Display` prints an amount. */
  function DecimalString(n: nat): string {
    var digit := ['0', '1', '2', '3', '4', '5', '6', '7', '8', '9'][n % 10];
    if n < 10 then [digit] else DecimalString(n / 10) + [digit]
  }

  /** The text of each error. The debit's error, too, says "after dex credit". */
  function Message(e: DexError): string {
    match e
    case UnrecognizedKind(kind) => "unrecognized event kind: " + kind
    case Malformed(reason) => reason
    case MissingField(field) => "event missing " + field
    case ConversionFailed(reason) => reason
    case BalanceDecreased(p, c) =>
      "balance decreased after dex credit: previous: " + DecimalString(p) + ", new: " + DecimalString(c)
    case BalanceIncreased(p, c) =>
      "balance increased after dex credit: previous: " + DecimalString(p) + ", new: " + DecimalString(c)
  }

  // ---------------------------------------------------------------------
  // Decoding
  // ---------------------------------------------------------------------

  /** `field.ok_or(anyhow!("event missing <name>"))`. */
  function Present<T>(field: Option<T>, name: string): (r: Result<T, DexError>)
    ensures field.Some? ==> r == Ok(field.value)
    ensures field.None? ==> r == Err(MissingField(name))
  {
    match field
    case Some(v) => Ok(v)
    case None => Err(MissingField(name))
  }

  function Converted<T>(conversion: Result<T, string>): (r: Result<T, DexError>)
    ensures conversion.Ok? ==> r == Ok(conversion.value)
    ensures conversion.Err? ==> r == Err(ConversionFailed(conversion.error))
  {
    match conversion
    case Ok(v) => Ok(v)
    case Err(reason) => Err(ConversionFailed(reason))
  }

  /** True when every field of the message is present and converts. */
  predicate Complete(pe: CircuitBreakerMessage, dec: Decoders) {
    && pe.assetId.Some? && dec.assetId(pe.assetId.value).Ok?
    && pe.previousBalance.Some? && dec.amount(pe.previousBalance.value).Ok?
    && pe.newBalance.Some? && dec.amount(pe.newBalance.value).Ok?
  }

  /**
   * The field checks shared by both kinds: asset_id, then previous_balance,
   * then new_balance, each checked for presence and then converted.
   */
  function Fields(pe: CircuitBreakerMessage, dec: Decoders): (r: Result<(AssetId, Amount, Amount), DexError>)
    ensures r.Ok? <==> Complete(pe, dec)
    ensures r.Ok? ==> r.value == (dec.assetId(pe.assetId.value).value,
                                  dec.amount(pe.previousBalance.value).value,
                                  dec.amount(pe.newBalance.value).value)
    ensures pe.assetId.None? ==> r == Err(MissingField("asset_id"))
    ensures r == Err(MissingField("previous_balance")) <==>
              pe.assetId.Some? && dec.assetId(pe.assetId.value).Ok? && pe.previousBalance.None?
    ensures pe.assetId.Some? && dec.assetId(pe.assetId.value).Err? ==>
              r == Err(ConversionFailed(dec.assetId(pe.assetId.value).error))
    ensures pe.assetId.Some? && dec.assetId(pe.assetId.value).Ok?
            && pe.previousBalance.Some? && dec.amount(pe.previousBalance.value).Err? ==>
              r == Err(ConversionFailed(dec.amount(pe.previousBalance.value).error))
    ensures pe.assetId.Some? && dec.assetId(pe.assetId.value).Ok?
            && pe.previousBalance.Some? && dec.amount(pe.previousBalance.value).Ok?
            && pe.newBalance.None? ==>
              r == Err(MissingField("new_balance"))
    ensures pe.assetId.Some? && dec.assetId(pe.assetId.value).Ok?
            && pe.previousBalance.Some? && dec.amount(pe.previousBalance.value).Ok?
            && pe.newBalance.Some? && dec.amount(pe.newBalance.value).Err? ==>
              r == Err(ConversionFailed(dec.amount(pe.newBalance.value).error))
    ensures r.Err? ==> r.error.MissingField? || r.error.ConversionFailed?
  {
    var rawId :- Present(pe.assetId, "asset_id");
    var assetId :- Converted(dec.assetId(rawId));
    var rawPrevious :- Present(pe.previousBalance, "previous_balance");
    var previous :- Converted(dec.amount(rawPrevious));
    var rawNew :- Present(pe.newBalance, "new_balance");
    var current :- Converted(dec.amount(rawNew));
    Ok((assetId, previous, current))
  }

  /** The message decoder the kind selects; `None` for a kind outside `NAMES`. */
  function MessageFor(ev: ContextualizedEvent, dec: Decoders): Option<Result<CircuitBreakerMessage, string>> {
    if ev.kind == NAMES[0] then Some(dec.creditFromEvent(ev.attributes))
    else if ev.kind == NAMES[1] then Some(dec.debitFromEvent(ev.attributes))
    else None
  }

  /** `TryFrom<&ContextualizedEvent> for Event`. */
  function TryFrom(ev: ContextualizedEvent, dec: Decoders): (r: Result<Event, DexError>)
    ensures ev.kind !in NAMES ==> r == Err(UnrecognizedKind(ev.kind))
    ensures r.Ok? ==> ev.kind in NAMES
    ensures r.Ok? ==> (r.value.CircuitBreakerCredit? <==> ev.kind == CREDIT_KIND)
    ensures ev.kind in NAMES ==>
              var m := MessageFor(ev, dec).value;
              && (m.Err? ==> r == Err(Malformed(m.error)))
              && (m.Ok? ==> (r.Ok? <==> Complete(m.value, dec)))
              && (m.Ok? && r.Err? ==> r.error == Fields(m.value, dec).error)
              && (r.Ok? ==> Fields(m.value, dec) ==
                              Ok((r.value.assetId, r.value.previousBalance, r.value.newBalance)))
  {
    if ev.kind == NAMES[0] then
      var pe :- FromEvent(dec.creditFromEvent(ev.attributes));
      var f :- Fields(pe, dec);
      Ok(CircuitBreakerCredit(f.0, f.1, f.2))
    else if ev.kind == NAMES[1] then
      var pe :- FromEvent(dec.debitFromEvent(ev.attributes));
      var f :- Fields(pe, dec);
      Ok(CircuitBreakerDebit(f.0, f.1, f.2))
    else
      Err(UnrecognizedKind(ev.kind))
  }

  function FromEvent(parsed: Result<CircuitBreakerMessage, string>): (r: Result<CircuitBreakerMessage, DexError>)
    ensures parsed.Ok? ==> r == Ok(parsed.value)
    ensures parsed.Err? ==> r == Err(Malformed(parsed.error))
  {
    match parsed
    case Ok(pe) => Ok(pe)
    case Err(reason) => Err(Malformed(reason))
  }

  /** A missing field makes decoding fail with the error that names it. */
  lemma MissingFieldNamed(ev: ContextualizedEvent, dec: Decoders)
    requires ev.kind in NAMES && MessageFor(ev, dec).value.Ok?
    ensures var pe := MessageFor(ev, dec).value.value;
            && (pe.assetId.None? ==> TryFrom(ev, dec) == Err(MissingField("asset_id")))
            && (pe.assetId.Some? && dec.assetId(pe.assetId.value).Ok? && pe.previousBalance.None? ==>
                  TryFrom(ev, dec) == Err(MissingField("previous_balance")))
            && (pe.assetId.Some? && dec.assetId(pe.assetId.value).Ok?
                && pe.previousBalance.Some? && dec.amount(pe.previousBalance.value).Ok?
                && pe.newBalance.None? ==>
                  TryFrom(ev, dec) == Err(MissingField("new_balance")))
  {
  }

  // ---------------------------------------------------------------------
  // Relevance
  // ---------------------------------------------------------------------

  /** The dex component; it keeps the set of kinds it handles. */
  class Component {
    const eventStrings: set<string>

    ghost predicate Valid() {
      eventStrings == set k | k in NAMES
    }

    /** `Component::new`. */
    constructor()
      ensures Valid()
    {
      eventStrings := set k | k in NAMES;
    }

    /** `is_relevant`: membership in the kinds of `NAMES`. */
    predicate IsRelevant(typeStr: string)
      ensures Valid() ==> (IsRelevant(typeStr) <==> typeStr == CREDIT_KIND || typeStr == DEBIT_KIND)
    {
      typeStr in eventStrings
    }
  }

  /** A kind is relevant exactly when the decoder does not reject it as unrecognized. */
  lemma RelevanceAgreesWithDecoder(c: Component, ev: ContextualizedEvent, dec: Decoders)
    requires c.Valid()
    ensures c.IsRelevant(ev.kind) <==> TryFrom(ev, dec) != Err(UnrecognizedKind(ev.kind))
  {
  }


  // ---------------------------------------------------------------------
  // Projection
  // ---------------------------------------------------------------------

  /** `u128::checked_sub`. */
  function CheckedSub(a: Amount, b: Amount): (r: Option<Amount>)
    ensures r.Some? <==> b <= a
    ensures r.Some? ==> b + r.value == a
  {
    if b <= a then Some(a - b) else None
  }

  /** The direction each kind allows: a credit may not decrease the balance, a debit may not increase it. */
  predicate Permitted(e: Event) {
    match e
    case CircuitBreakerCredit(_, previous, current) => previous <= current
    case CircuitBreakerDebit(_, previous, current) => current <= previous
  }

  /** The sign a kind gives to its unsigned change. */
  function Signed(e: Event, change: Amount): int {
    if e.CircuitBreakerCredit? then change else -(change as int)
  }

  /** The checked unsigned change an event records. */
  function Change(e: Event): (r: Result<Amount, DexError>)
    ensures r.Ok? <==> Permitted(e)
    ensures r.Ok? ==> e.previousBalance + Signed(e, r.value) == e.newBalance
    ensures r.Err? && e.CircuitBreakerCredit? ==> r.error == BalanceDecreased(e.previousBalance, e.newBalance)
    ensures r.Err? && e.CircuitBreakerDebit? ==> r.error == BalanceIncreased(e.previousBalance, e.newBalance)
  {
    match e
    case CircuitBreakerCredit(_, previous, current) =>
      (match CheckedSub(current, previous)
       case Some(amount) => Ok(amount)
       case None => Err(BalanceDecreased(previous, current)))
    case CircuitBreakerDebit(_, previous, current) =>
      (match CheckedSub(previous, current)
       case Some(amount) => Ok(amount)
       case None => Err(BalanceIncreased(previous, current)))
  }

  /** A credit records a non-negative change, a debit a non-positive one; an unchanged balance records zero. */
  lemma ChangeSign(e: Event)
    requires Change(e).Ok?
    ensures e.CircuitBreakerCredit? ==> Signed(e, Change(e).value) >= 0
    ensures e.CircuitBreakerDebit? ==> Signed(e, Change(e).value) <= 0
    ensures e.previousBalance == e.newBalance ==> Change(e) == Ok(0)
  {
  }

  /** A row of `dex_value_circuit_breaker_change`: an asset and a signed change. */
  datatype Row = Row(assetId: AssetId, amount: int)

  /** The write transaction, by the rows it has appended to `dex_value_circuit_breaker_change`. */
  class Transaction {
    var circuitBreakerChanges: seq<Row>

    constructor(rows: seq<Row>)
      ensures circuitBreakerChanges == rows
    {
      circuitBreakerChanges := rows;
    }

    /** `INSERT INTO dex_value_circuit_breaker_change VALUES ($1, $2)`. */
    method Insert(row: Row)
      modifies this
      ensures circuitBreakerChanges == old(circuitBreakerChanges) + [row]
    {
      circuitBreakerChanges := circuitBreakerChanges + [row];
    }
  }

  /**
   * `Event::index`: the checked change is encoded as a NUMERIC; a credit
   * inserts it as it is, a debit inserts its negation.
   */
  method Index(e: Event, dbtx: Transaction) returns (r: Result<(), DexError>)
    modifies dbtx
    ensures r.Ok? <==> Permitted(e)
    ensures r.Err? ==> r == Err(Change(e).error)
    ensures r.Err? ==> dbtx.circuitBreakerChanges == old(dbtx.circuitBreakerChanges)
    ensures r.Ok? ==> dbtx.circuitBreakerChanges ==
                        old(dbtx.circuitBreakerChanges) + [Row(e.assetId, e.newBalance - e.previousBalance)]
  {
    var amount :- Change(e);
    var column := Encode(amount);
    dbtx.Insert(Row(e.assetId, Signed(e, column.unscaled)));
    r := Ok(());
  }

  /** `index_event`: decode, then index; a failure at either step writes nothing. */
  method IndexEvent(ev: ContextualizedEvent, dec: Decoders, dbtx: Transaction) returns (r: Result<(), DexError>)
    modifies dbtx
    ensures TryFrom(ev, dec).Err? ==> r == Err(TryFrom(ev, dec).error)
    ensures TryFrom(ev, dec).Ok? && !Permitted(TryFrom(ev, dec).value) ==>
              r == Err(Change(TryFrom(ev, dec).value).error)
    ensures r.Ok? <==> TryFrom(ev, dec).Ok? && Permitted(TryFrom(ev, dec).value)
    ensures r.Err? ==> dbtx.circuitBreakerChanges == old(dbtx.circuitBreakerChanges)
    ensures r.Ok? ==>
              var e := TryFrom(ev, dec).value;
              dbtx.circuitBreakerChanges ==
                old(dbtx.circuitBreakerChanges) + [Row(e.assetId, e.newBalance - e.previousBalance)]
  {
    var e :- TryFrom(ev, dec);
    r := Index(e, dbtx);
  }

  /** Credit 10→15 and 15→10, debit 15→10 and 10→15. */
  lemma BalanceTransitionExamples(id: AssetId)
    ensures Change(CircuitBreakerCredit(id, 10, 15)) == Ok(5)
    ensures Change(CircuitBreakerCredit(id, 15, 10)) == Err(BalanceDecreased(15, 10))
    ensures Change(CircuitBreakerDebit(id, 15, 10)) == Ok(5) && Signed(CircuitBreakerDebit(id, 15, 10), 5) == -5
    ensures Change(CircuitBreakerDebit(id, 10, 15)) == Err(BalanceIncreased(10, 15))
  {
  }

  /** The debit's error text reuses the words "after dex credit". */
  lemma DebitMessage()
    ensures Message(BalanceIncreased(10, 15)) ==
              "balance increased after dex credit: previous: 10, new: 15"
  {
  }
}
