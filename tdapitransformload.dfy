/**
 * The transform-and-load stage of the ETL pipeline (etl/tdapitransformload.go).
 *
 * TransformLoad takes the result of a successful API call, decodes it by work
 * kind, upserts one document into the collection of that kind, and then
 * removes the work item from the queue.  For Macros, market cap is rounded
 * first; below 500 only the market cap is stored, otherwise 32 further
 * fundamental fields are rounded and the whole instrument is stored.  The
 * price-history kinds store the aggregated candles keyed by their own symbol.
 *
 * Rounding, JSON decoding and candle aggregation are supplied as functions
 * (Collaborators); whether a store write succeeds is given as a flag.  A nil
 * dereference in the source aborts the process: it is the Panicked outcome,
 * and happens before anything is written.
 */
module TdApiTransformLoad {
  import opened EtlTypes
  import opened TdApiCaller

  /** The float64 fields of Fundamental. */
  datatype FloatField =
    | High52 | Low52 | DividendAmount | DividendYield
    | PeRatio | PegRatio | PbRatio | PrRatio | PcfRatio
    | GrossMarginTTM | GrossMarginMRQ | NetProfitMarginTTM | NetProfitMarginMRQ
    | OperatingMarginTTM | OperatingMarginMRQ
    | ReturnOnEquity | ReturnOnAssets | ReturnOnInvestment
    | QuickRatio | CurrentRatio | InterestCoverage
    | TotalDebtToCapital | LtDebtToEquity | TotalDebtToEquity
    | EpsTTM | EpsChangePercentTTM | EpsChangeYear | RevChangeTTM
    | SharesOutstanding | MarketCapFloat | MarketCap | BookValuePerShare
    | DividendPayAmount | Beta | Vol1DayAvg | Vol10DayAvg | Vol3MonthAvg

  /** The int fields of Fundamental. */
  datatype IntField =
    | EpsChange | RevChangeYear | RevChangeIn
    | ShortIntToFloat | ShortIntDayToCover | DivGrowthRate3Year

  /** The 32 fields rounded on the full Macros path (market cap is rounded before the gate). */
  const RoundedFields: set<FloatField> := {
    High52, Low52, DividendAmount, DividendYield,
    PeRatio, PegRatio, PbRatio, PrRatio, PcfRatio,
    GrossMarginTTM, GrossMarginMRQ, NetProfitMarginTTM, NetProfitMarginMRQ,
    OperatingMarginTTM, OperatingMarginMRQ,
    ReturnOnEquity, ReturnOnAssets, ReturnOnInvestment,
    QuickRatio, CurrentRatio, InterestCoverage,
    TotalDebtToCapital, LtDebtToEquity, TotalDebtToEquity,
    EpsTTM, EpsChangePercentTTM, EpsChangeYear, RevChangeTTM,
    MarketCapFloat, BookValuePerShare, DividendPayAmount, Beta
  }

  /** The market-cap threshold of the early exit. */
  const MarketCapThreshold: real := 500.0

  /** Fundamental: every field is a pointer; a field is present when its key is in the map. */
  datatype Fundamental = Fundamental(
    symbol: Option<string>,
    dividendDate: Option<string>,
    dividendPayDate: Option<string>,
    floats: map<FloatField, real>,
    ints: map<IntField, int>)

  datatype Instrument = Instrument(
    id: Option<string>,
    fundamental: Fundamental,
    cusip: Option<string>,
    symbol: Option<string>,
    description: Option<string>,
    exchange: Option<string>,
    assetType: Option<string>)

  /** One OHLCV bar. */
  datatype Candle = Candle(open: real, high: real, low: real, close: real, volume: int, datetime: int)

  /** PriceHistory: the candles of one symbol. */
  datatype PriceHistory = PriceHistory(symbol: string, candles: seq<Candle>)

  /** A field value of a stored document. */
  datatype Value = Null | Num(x: real) | Str(s: string) | Fund(f: Fundamental) | Bars(candles: seq<Candle>)

  /** A stored document: its top-level fields. */
  type Document = map<string, Value>

  /** A collection of documents keyed by their symbol. */
  type Collection = map<string, Document>

  /** What TransformLoad relies on but does not define. */
  datatype Collaborators = Collaborators(
    round: real -> real,                                   // Round
    decodeInstrument: Json -> Instrument,                  // json.Marshal then json.Unmarshal into Instrument
    decodePriceHistory: map<string, Json> -> PriceHistory, // json.Marshal then json.Unmarshal into PriceHistory
    calculatePriceHistory: PriceHistory -> Option<PriceHistory>) // calculatePriceHistory; None for an error

  datatype LoadOutcome =
    | Loaded        // stored and removed from the queue: nil
    | Panicked      // nil pointer dereference before any write
    | UpsertFailed  // the error of UpdateOne
    | RemoveFailed  // the error of ApiQueue.Remove

  /** The collections and the queue. */
  datatype Store = Store(
    macros: Collection,
    medium: Collection,
    short: Collection,
    signals: Collection,
    queue: set<EtlConfig>)

  /** One upsert: into the collection of target, filter {symbol: key}, $set fields. */
  datatype Write = Write(target: WorkKind, key: string, fields: Document)

  // ---------------------------------------------------------------------------
  // Specification

  function OptString(o: Option<string>): Value {
    match o
    case None => Null
    case Some(s) => Str(s)
  }

  /** The top-level fields of an Instrument as $set writes them: _id and
      assetType are omitted when nil, the other nil fields are written as null. */
  function InstrumentFields(i: Instrument): Document {
    var fields := map[
      "fundamental" := Fund(i.fundamental),
      "cusip" := OptString(i.cusip),
      "symbol" := OptString(i.symbol),
      "description" := OptString(i.description),
      "exchange" := OptString(i.exchange)];
    var fields := if i.id.Some? then fields["_id" := Str(i.id.value)] else fields;
    if i.assetType.Some? then fields["assetType" := Str(i.assetType.value)] else fields
  }

  /** The top-level fields of a PriceHistory as $set writes them. */
  function PriceHistoryFields(ph: PriceHistory): Document {
    map["symbol" := Str(ph.symbol), "candles" := Bars(ph.candles)]
  }

  /** The document an upsert starts from: the stored one, or a new one holding the filter's symbol. */
  function Existing(c: Collection, key: string): Document {
    if key in c then c[key] else map["symbol" := Str(key)]
  }

  /** UpdateOne with $set and upsert: the fields are set on the document with that symbol. */
  function Upsert(c: Collection, key: string, fields: Document): Collection {
    c[key := Existing(c, key) + fields]
  }

  /** The fundamental with its market cap rounded. */
  function WithRoundedMarketCap(f: Fundamental, round: real -> real): Fundamental
    requires MarketCap in f.floats
  {
    f.(floats := f.floats[MarketCap := round(f.floats[MarketCap])])
  }

  /** The fundamental with the 32 listed fields rounded. */
  function RoundedFundamental(f: Fundamental, round: real -> real): Fundamental {
    f.(floats := map k | k in f.floats :: if k in RoundedFields then round(f.floats[k]) else f.floats[k])
  }

  /** respBodyToPriceHistory: decode, then aggregate; None when aggregation fails. */
  function RespBodyToPriceHistory(body: map<string, Json>, env: Collaborators): Option<PriceHistory> {
    env.calculatePriceHistory(env.decodePriceHistory(body))
  }

  /** The zero Instrument: every pointer nil. */
  const ZeroInstrument: Instrument :=
    Instrument(None, Fundamental(None, None, None, map[], map[]), None, None, None, None, None)

  /** The instrument decoded from the body entry of the configured symbol.  A
      missing entry marshals to null, and unmarshalling null leaves the zero value. */
  function DecodedInstrument(resp: ApiCallSuccess, env: Collaborators): Instrument {
    var sym := resp.config.symbol;
    if sym in resp.body && resp.body[sym] != JNull then env.decodeInstrument(resp.body[sym])
    else ZeroInstrument
  }

  /** The upsert TransformLoad makes for a response, or None when it panics first. */
  function PlannedWrite(resp: ApiCallSuccess, env: Collaborators): Option<Write> {
    match resp.config.work
    case Macros =>
      var inst := DecodedInstrument(resp, env);
      var f := inst.fundamental;
      if MarketCap !in f.floats then None
      else
        var f := WithRoundedMarketCap(f, env.round);
        if f.floats[MarketCap] < MarketCapThreshold then
          Some(Write(Macros, resp.config.symbol, map["marketCap" := Num(f.floats[MarketCap])]))
        else if !(RoundedFields <= f.floats.Keys) then None
        else
          Some(Write(Macros, resp.config.symbol,
            InstrumentFields(inst.(fundamental := RoundedFundamental(f, env.round)))))
    case Medium | Short | Signals =>
      match RespBodyToPriceHistory(resp.body, env)
      case None => None
      case Some(candles) => Some(Write(resp.config.work, candles.symbol, PriceHistoryFields(candles)))
  }

  function CollectionOf(s: Store, kind: WorkKind): Collection {
    match kind
    case Macros => s.macros
    case Medium => s.medium
    case Short => s.short
    case Signals => s.signals
  }

  /** The store after one successful upsert. */
  function ApplyWrite(s: Store, w: Write): Store {
    var c := Upsert(CollectionOf(s, w.target), w.key, w.fields);
    match w.target
    case Macros => s.(macros := c)
    case Medium => s.(medium := c)
    case Short => s.(short := c)
    case Signals => s.(signals := c)
  }

  /** TransformLoad on values: the new store and the outcome. */
  function Load(s: Store, resp: ApiCallSuccess, env: Collaborators, upsertOk: bool, removeOk: bool): (Store, LoadOutcome) {
    match PlannedWrite(resp, env)
    case None => (s, Panicked)
    case Some(w) =>
      if !upsertOk then (s, UpsertFailed)
      else
        var s1 := ApplyWrite(s, w);
        if !removeOk then (s1, RemoveFailed)
        else (s1.(queue := s1.queue - {resp.config}), Loaded)
  }

  // ---------------------------------------------------------------------------
  // Properties

  /** Every float field is rounded on the full path except market cap (rounded
      before the gate), shares outstanding and the three volume averages. */
  lemma RoundedFieldsAreAllButFive(k: FloatField)
    ensures k in RoundedFields <==> k !in {SharesOutstanding, MarketCap, Vol1DayAvg, Vol10DayAvg, Vol3MonthAvg}
  {
  }

  /** Each kind writes into its own collection and no other. */
  lemma WritesOnlyOwnCollection(s: Store, resp: ApiCallSuccess, env: Collaborators, upsertOk: bool, removeOk: bool, other: WorkKind)
    requires other != resp.config.work
    ensures CollectionOf(Load(s, resp, env, upsertOk, removeOk).0, other) == CollectionOf(s, other)
  {
  }

  /** $set with upsert: fields written are set, other fields and other documents kept. */
  lemma UpsertSetsFields(c: Collection, key: string, fields: Document)
    ensures var r := Upsert(c, key, fields);
      && r.Keys == c.Keys + {key}
      && (forall k :: k in c && k != key ==> r[k] == c[k])
      && (forall f :: f in fields ==> f in r[key] && r[key][f] == fields[f])
      && (forall f :: f in Existing(c, key) && f !in fields ==> f in r[key] && r[key][f] == Existing(c, key)[f])
      && r[key].Keys == Existing(c, key).Keys + fields.Keys
  {
  }

  /** Market cap is rounded before the gate; below 500 only marketCap is set on
      the Macros document of the configured symbol, and the item is still removed. */
  lemma MarketCapGate(s: Store, resp: ApiCallSuccess, env: Collaborators, removeOk: bool)
    requires resp.config.work == Macros
    requires MarketCap in DecodedInstrument(resp, env).fundamental.floats
    requires env.round(DecodedInstrument(resp, env).fundamental.floats[MarketCap]) < MarketCapThreshold
    ensures var (s1, outcome) := Load(s, resp, env, true, removeOk);
      var cap := env.round(DecodedInstrument(resp, env).fundamental.floats[MarketCap]);
      && s1.macros == Upsert(s.macros, resp.config.symbol, map["marketCap" := Num(cap)])
      && s1.macros[resp.config.symbol].Keys == Existing(s.macros, resp.config.symbol).Keys + {"marketCap"}
      && outcome == (if removeOk then Loaded else RemoveFailed)
      && (removeOk ==> s1.queue == s.queue - {resp.config})
  {
  }

  /** At or above 500, the Macros upsert sets the instrument fields, keyed by the
      configured symbol, with market cap and the 32 listed fields rounded. */
  lemma FullInstrumentWrite(resp: ApiCallSuccess, env: Collaborators)
    requires resp.config.work == Macros
    requires var f := DecodedInstrument(resp, env).fundamental;
      && MarketCap in f.floats
      && env.round(f.floats[MarketCap]) >= MarketCapThreshold
      && RoundedFields <= f.floats.Keys
    ensures var inst := DecodedInstrument(resp, env);
      var g := RoundedFundamental(WithRoundedMarketCap(inst.fundamental, env.round), env.round);
      PlannedWrite(resp, env) == Some(Write(Macros, resp.config.symbol, InstrumentFields(inst.(fundamental := g))))
  {
    var f := DecodedInstrument(resp, env).fundamental;
    assert WithRoundedMarketCap(f, env.round).floats.Keys == f.floats.Keys;
  }

  /** Rounding on the full path: market cap and exactly the 32 listed fields are
      replaced by their rounded values; every other field is kept as decoded. */
  lemma FullPathRounding(f: Fundamental, round: real -> real)
    requires MarketCap in f.floats
    ensures var g := RoundedFundamental(WithRoundedMarketCap(f, round), round);
      && g.floats.Keys == f.floats.Keys
      && (forall k :: k in g.floats ==>
            g.floats[k] == if k in RoundedFields || k == MarketCap then round(f.floats[k]) else f.floats[k])
      && g.ints == f.ints
      && g.symbol == f.symbol
      && g.dividendDate == f.dividendDate
      && g.dividendPayDate == f.dividendPayDate
  {
    assert MarketCap !in RoundedFields;
  }

  /** Once the upsert is known, Load stores it and then dequeues the item. */
  lemma LoadOfPlannedWrite(s: Store, resp: ApiCallSuccess, env: Collaborators, removeOk: bool, w: Write)
    requires PlannedWrite(resp, env) == Some(w)
    ensures Load(s, resp, env, true, removeOk) ==
      if removeOk then (ApplyWrite(s, w).(queue := s.queue - {resp.config}), Loaded)
      else (ApplyWrite(s, w), RemoveFailed)
  {
  }

  /** At or above 500, the whole instrument is set on the Macros document of the
      configured symbol and the item is then removed. */
  lemma FullInstrumentStored(s: Store, resp: ApiCallSuccess, env: Collaborators, removeOk: bool)
    requires resp.config.work == Macros
    requires var f := DecodedInstrument(resp, env).fundamental;
      && MarketCap in f.floats
      && env.round(f.floats[MarketCap]) >= MarketCapThreshold
      && RoundedFields <= f.floats.Keys
    ensures var inst := DecodedInstrument(resp, env);
      var g := RoundedFundamental(WithRoundedMarketCap(inst.fundamental, env.round), env.round);
      var fields := InstrumentFields(inst.(fundamental := g));
      && Load(s, resp, env, true, removeOk).0.macros == Upsert(s.macros, resp.config.symbol, fields)
      && Load(s, resp, env, true, removeOk).1 == (if removeOk then Loaded else RemoveFailed)
      && fields["fundamental"] == Fund(g)
  {
    FullInstrumentWrite(resp, env);
    var inst := DecodedInstrument(resp, env);
    var g := RoundedFundamental(WithRoundedMarketCap(inst.fundamental, env.round), env.round);
    LoadOfPlannedWrite(s, resp, env, removeOk, Write(Macros, resp.config.symbol, InstrumentFields(inst.(fundamental := g))));
  }

  /** The price-history kinds key their document by the symbol of the aggregated
      candles, not by the configured symbol, in the collection of their kind. */
  lemma PriceHistoryKeyedByCandles(s: Store, resp: ApiCallSuccess, env: Collaborators, removeOk: bool)
    requires resp.config.work != Macros
    requires RespBodyToPriceHistory(resp.body, env).Some?
    ensures var candles := RespBodyToPriceHistory(resp.body, env).value;
      var s1 := Load(s, resp, env, true, removeOk).0;
      CollectionOf(s1, resp.config.work) == Upsert(CollectionOf(s, resp.config.work), candles.symbol, PriceHistoryFields(candles))
  {
  }

  /** A Macros response without an entry for the configured symbol, or with null
      there, decodes to the zero instrument, whose nil market cap is dereferenced
      before anything is written. */
  lemma MissingInstrumentPanics(s: Store, resp: ApiCallSuccess, env: Collaborators, upsertOk: bool, removeOk: bool)
    requires resp.config.work == Macros
    requires resp.config.symbol !in resp.body || resp.body[resp.config.symbol] == JNull
    ensures Load(s, resp, env, upsertOk, removeOk) == (s, Panicked)
  {
  }

  /** When aggregation fails the candles are nil and TransformLoad panics before writing. */
  lemma FailedAggregationPanics(s: Store, resp: ApiCallSuccess, env: Collaborators, upsertOk: bool, removeOk: bool)
    requires resp.config.work != Macros
    requires RespBodyToPriceHistory(resp.body, env).None?
    ensures Load(s, resp, env, upsertOk, removeOk) == (s, Panicked)
  {
  }

  /** Any failure before the store leaves everything as it was; a failed removal
      keeps the stored document and the queued item; only a full success removes it. */
  lemma FailureKeepsItemQueued(s: Store, resp: ApiCallSuccess, env: Collaborators, upsertOk: bool, removeOk: bool)
    ensures var (s1, outcome) := Load(s, resp, env, upsertOk, removeOk);
      && (outcome == Panicked || outcome == UpsertFailed ==> s1 == s)
      && (outcome != Loaded ==> s1.queue == s.queue)
      && (outcome == Loaded ==> s1.queue == s.queue - {resp.config})
      && (outcome == Loaded <==> PlannedWrite(resp, env).Some? && upsertOk && removeOk)
      && (outcome == UpsertFailed <==> PlannedWrite(resp, env).Some? && !upsertOk)
  {
  }

  /** Storing is by $set with upsert: a second identical load changes nothing more. */
  lemma LoadIdempotent(s: Store, resp: ApiCallSuccess, env: Collaborators, upsertOk: bool, removeOk: bool)
    ensures var s1 := Load(s, resp, env, upsertOk, removeOk).0;
      Load(s1, resp, env, upsertOk, removeOk).0 == s1
  {
    match PlannedWrite(resp, env)
    case None =>
    case Some(w) =>
      if upsertOk {
        var s1 := ApplyWrite(s, w);
        UpsertIdempotent(CollectionOf(s, w.target), w.key, w.fields);
        assert ApplyWrite(s1, w) == s1;
        assert ApplyWrite(s1.(queue := s1.queue - {resp.config}), w) == s1.(queue := s1.queue - {resp.config});
      }
  }

  /** Setting the same fields twice is setting them once. */
  lemma UpsertIdempotent(c: Collection, key: string, fields: Document)
    ensures Upsert(Upsert(c, key, fields), key, fields) == Upsert(c, key, fields)
  {
    var d := Existing(c, key) + fields;
    assert d + fields == d;
  }

  /** Two items loaded one after the other both leave the queue. */
  lemma QueueDrains(s: Store, r1: ApiCallSuccess, r2: ApiCallSuccess, env: Collaborators)
    requires PlannedWrite(r1, env).Some? && PlannedWrite(r2, env).Some?
    ensures var s1 := Load(s, r1, env, true, true).0;
      var s2 := Load(s1, r2, env, true, true).0;
      s2.queue == s.queue - {r1.config, r2.config}
  {
    FailureKeepsItemQueued(s, r1, env, true, true);
    var s1 := Load(s, r1, env, true, true).0;
    FailureKeepsItemQueued(s1, r2, env, true, true);
  }

  // ---------------------------------------------------------------------------
  // Imperative model

  /** MongoController: the four data collections and the work queue. */
  class MongoController {
    var macros: Collection
    var medium: Collection
    var short: Collection
    var signals: Collection
    var apiQueue: set<EtlConfig>

    constructor (queue: set<EtlConfig>)
      ensures State() == Store(map[], map[], map[], map[], queue)
    {
      macros, medium, short, signals := map[], map[], map[], map[];
      apiQueue := queue;
    }

    function State(): Store
      reads this
    {
      Store(macros, medium, short, signals, apiQueue)
    }

    /** UpdateOne with $set and upsert on the collection of kind target;
        ok says whether the database accepted it. */
    method UpdateOne(target: WorkKind, key: string, fields: Document, ok: bool) returns (stored: bool)
      modifies this
      ensures stored == ok
      ensures State() == if ok then ApplyWrite(old(State()), Write(target, key, fields)) else old(State())
    {
      stored := ok;
      if ok {
        match target {
          case Macros => macros := Upsert(macros, key, fields);
          case Medium => medium := Upsert(medium, key, fields);
          case Short => short := Upsert(short, key, fields);
          case Signals => signals := Upsert(signals, key, fields);
        }
      }
    }

    /** ApiQueue.Remove: delete the item by key; removing an absent key is no error. */
    method Remove(config: EtlConfig, ok: bool) returns (removed: bool)
      modifies this
      ensures removed == ok
      ensures State() == if ok then old(State()).(queue := old(State()).queue - {config}) else old(State())
    {
      removed := ok;
      if ok {
        apiQueue := apiQueue - {config};
      }
    }
  }

  /** TransformLoad: store the response in the collection of its kind, then
      dequeue the work item.  Store outcomes are given by upsertOk and removeOk. */
  method TransformLoad(mongo: MongoController, resp: ApiCallSuccess, env: Collaborators, upsertOk: bool, removeOk: bool)
    returns (outcome: LoadOutcome)
    modifies mongo
    ensures (mongo.State(), outcome) == Load(old(mongo.State()), resp, env, upsertOk, removeOk)
  {
    match resp.config.work {
      case Macros =>
        var instrument := DecodedInstrument(resp, env);
        var fundamental := instrument.fundamental;
        if MarketCap !in fundamental.floats {
          return Panicked;
        }
        fundamental := WithRoundedMarketCap(fundamental, env.round);

        if fundamental.floats[MarketCap] < MarketCapThreshold {
          var ok := mongo.UpdateOne(Macros, resp.config.symbol, map["marketCap" := Num(fundamental.floats[MarketCap])], upsertOk);
          if !ok {
            return UpsertFailed;
          }
        } else {
          if !(RoundedFields <= fundamental.floats.Keys) {
            return Panicked;
          }
          fundamental := RoundedFundamental(fundamental, env.round);
          instrument := instrument.(fundamental := fundamental);
          var ok := mongo.UpdateOne(Macros, resp.config.symbol, InstrumentFields(instrument), upsertOk);
          if !ok {
            return UpsertFailed;
          }
        }
      case Medium | Short | Signals =>
        var candles := RespBodyToPriceHistory(resp.body, env);
        if candles.None? {
          return Panicked;
        }
        var ok := mongo.UpdateOne(resp.config.work, candles.value.symbol, PriceHistoryFields(candles.value), upsertOk);
        if !ok {
          return UpsertFailed;
        }
    }

    var removed := mongo.Remove(resp.config, removeOk);
    if !removed {
      return RemoveFailed;
    }
    return Loaded;
  }
}
