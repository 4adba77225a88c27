/** The backtest question generator of app/routers/backtesting.py
    (`gen_question` and its nested `normalize_prices`).

    Records are Python dictionaries: a sequence of fields in insertion
    order, each a key and a value.  The random draws from the signal pool
    are a given sequence of pool positions, and the two price fetchers are
    parameters. */
module Backtesting {
  import opened Results
  import opened Selection

  /** At most this many draws before giving up. */
  const RetryLimit: nat := 10

  /** A question needs at least this many previous candlesticks. */
  const MinHistory: nat := 140

  /** The character whose presence in the trade signal means "buy". */
  const BuyMarker: char := '買'

  /** The record keys never turned into explanations. */
  const Excluded: seq<string> := ["Sell_Signals", "Buy_Signals", "Signal_Strength", "Trade_Signal",
                                  "close_price", "symbol", "datetime", "id"]

  /** A field value as it comes out of the database: None, a string
      (timestamps included, as their text), or a number. */
  datatype Value = Null | Text(s: string) | Number(x: real)

  /** Python's built-in conversions between numbers and text: `str` of a
      number and `float` of a string (None when it raises ValueError). */
  datatype Coercions = Coercions(floatText: real -> string, parseFloat: string -> Option<real>)

  /** Python truthiness: None, the empty string and zero are false. */
  predicate Truthy(v: Value)
  {
    match v
    case Null => false
    case Text(s) => s != ""
    case Number(x) => x != 0.0
  }

  /** Python's `str(v)`. */
  function Str(v: Value, co: Coercions): string
  {
    match v
    case Null => "None"
    case Text(s) => s
    case Number(x) => co.floatText(x)
  }

  /** Python's `float(v)`; None where it raises. */
  function Float(v: Value, co: Coercions): Option<real>
  {
    match v
    case Null => None
    case Text(s) => co.parseFloat(s)
    case Number(x) => Some(x)
  }

  datatype Field = Field(key: string, value: Value)

  type Record = seq<Field>

  /** `record.get(key)`: the value under `key`, None when the key is absent. */
  function Get(rec: Record, key: string): Value
  {
    if rec == [] then Null
    else if rec[0].key == key then rec[0].value
    else Get(rec[1..], key)
  }

  // ---------------------------------------------------------------------
  // normalize_prices
  // ---------------------------------------------------------------------

  /** `record.get(primary) or record.get(alias)`: the primary value when it
      is truthy, the alias value otherwise, so the result is truthy exactly
      when one of the two is. */
  function Resolve(rec: Record, primary: string, alias: string): (v: Value)
    ensures Truthy(v) <==> Truthy(Get(rec, primary)) || Truthy(Get(rec, alias))
    ensures Truthy(Get(rec, primary)) ==> v == Get(rec, primary)
    ensures !Truthy(Get(rec, primary)) ==> v == Get(rec, alias)
  {
    var first := Get(rec, primary);
    if Truthy(first) then first else Get(rec, alias)
  }

  /** The six values a candlestick is built from, before any conversion. */
  datatype Resolved = Resolved(date: Value, open: Value, high: Value, low: Value, close: Value, volume: Value)

  function ResolveFields(rec: Record): Resolved
  {
    Resolved(Resolve(rec, "datetime", "date"),
             Resolve(rec, "open", "open_price"),
             Resolve(rec, "high", "high_price"),
             Resolve(rec, "low", "low_price"),
             Resolve(rec, "close", "close_price"),
             Get(rec, "volume"))
  }

  /** The survival test: date, open, high, low and close all truthy (so a
      zero price drops the record too).  Volume plays no part. */
  predicate Survives(rec: Record)
  {
    var f := ResolveFields(rec);
    Truthy(f.date) && Truthy(f.open) && Truthy(f.high) && Truthy(f.low) && Truthy(f.close)
  }

  /** `str(date).replace(" ", "T")`. */
  function ReplaceSpaces(s: string): (r: string)
    ensures |r| == |s|
    ensures forall i :: 0 <= i < |s| ==> r[i] == if s[i] == ' ' then 'T' else s[i]
  {
    seq(|s|, i requires 0 <= i < |s| => if s[i] == ' ' then 'T' else s[i])
  }

  /** `float(volume) if volume is not None else 0.0`. */
  function Volume(v: Value, co: Coercions): Option<real>
  {
    if v == Null then Some(0.0) else Float(v, co)
  }

  /** Every `float(...)` the record's candlestick needs succeeds. */
  predicate Convertible(f: Resolved, co: Coercions)
  {
    Float(f.open, co).Some? && Float(f.high, co).Some? && Float(f.low, co).Some? &&
    Float(f.close, co).Some? && Volume(f.volume, co).Some?
  }

  /** A canonical price bar. */
  datatype Candle = Candle(date: string, open: real, high: real, low: real, close: real, volume: real)

  /** What one pass of the normaliser's loop does with one record: skip
      it, raise (a `float` that fails), or append a candlestick. */
  datatype RecordOutcome = Dropped | Unconvertible | Appended(candle: Candle)

  /** One record through the normaliser.  It is dropped exactly when a
      required value is falsy; volume never causes a drop and defaults to
      0.0; the date loses every space. */
  function NormalizeRecord(rec: Record, co: Coercions): (o: RecordOutcome)
    ensures o.Dropped? <==> !Survives(rec)
    ensures o.Unconvertible? <==> Survives(rec) && !Convertible(ResolveFields(rec), co)
    ensures o.Appended? ==>
      var f := ResolveFields(rec);
      o.candle.date == ReplaceSpaces(Str(f.date, co)) && ' ' !in o.candle.date &&
      Float(f.open, co) == Some(o.candle.open) && Float(f.high, co) == Some(o.candle.high) &&
      Float(f.low, co) == Some(o.candle.low) && Float(f.close, co) == Some(o.candle.close) &&
      (f.volume == Null ==> o.candle.volume == 0.0) &&
      (f.volume != Null ==> Float(f.volume, co) == Some(o.candle.volume))
  {
    var f := ResolveFields(rec);
    if !Survives(rec) then Dropped
    else
      match (Float(f.open, co), Float(f.high, co), Float(f.low, co), Float(f.close, co), Volume(f.volume, co))
      case (Some(open), Some(high), Some(low), Some(close), Some(volume)) =>
        Appended(Candle(ReplaceSpaces(Str(f.date, co)), open, high, low, close, volume))
      case _ => Unconvertible
  }

  /** The errors `gen_question` ends with. */
  datatype GenError = EmptyPool | RetryBudgetExceeded | ConversionFailed

  /** What `normalize_prices` returns for `records`: the candlesticks of the
      records processed so far, or the error the first failing `float`
      raises. */
  function Normalized(records: seq<Record>, co: Coercions): (r: Result<seq<Candle>, GenError>)
    ensures r.Err? ==> r.error == ConversionFailed
    decreases |records|
  {
    if records == [] then Ok([])
    else
      match Normalized(records[..|records| - 1], co)
      case Err(_) => Err(ConversionFailed)
      case Ok(cs) =>
        match NormalizeRecord(records[|records| - 1], co)
        case Dropped => Ok(cs)
        case Unconvertible => Err(ConversionFailed)
        case Appended(c) => Ok(cs + [c])
  }

  /** Once a prefix of the records has raised, the whole run has raised. */
  lemma {:induction false} NormalizedErrorPersists(records: seq<Record>, i: nat, co: Coercions)
    requires i <= |records| && Normalized(records[..i], co).Err?
    ensures Normalized(records, co) == Err(ConversionFailed)
    decreases |records|
  {
    if i == |records| {
      assert records[..i] == records;
    } else {
      var front := records[..|records| - 1];
      assert front[..i] == records[..i];
      NormalizedErrorPersists(front, i, co);
    }
  }

  /** The normaliser raises exactly when some record survives the falsy
      test but has a value `float` cannot convert. */
  lemma {:induction false} NormalizedFailsIff(records: seq<Record>, co: Coercions)
    ensures Normalized(records, co).Err? <==>
      exists i :: 0 <= i < |records| && NormalizeRecord(records[i], co).Unconvertible?
    decreases |records|
  {
    if records != [] {
      var front := records[..|records| - 1];
      NormalizedFailsIff(front, co);
      assert forall i :: 0 <= i < |front| ==> front[i] == records[i];
      if Normalized(records, co).Err? && !Normalized(front, co).Err? {
        assert NormalizeRecord(records[|records| - 1], co).Unconvertible?;
      }
    }
  }

  /** When it does not raise, the normaliser returns one candlestick per
      surviving record, built from that record, with survivors in input
      order; so never more candlesticks than records. */
  lemma {:induction false} NormalizedKeepsSurvivors(records: seq<Record>, co: Coercions, cs: seq<Candle>)
    requires Normalized(records, co) == Ok(cs)
    ensures var ix := Kept(records, Survives);
      |cs| == |ix| && |cs| <= |records| &&
      forall j :: 0 <= j < |ix| ==> NormalizeRecord(records[ix[j]], co) == Appended(cs[j])
    decreases |records|
  {
    if records != [] {
      var n := |records| - 1;
      var front, last := records[..n], records[n];
      assert Normalized(front, co).Ok?;
      var cs' := Normalized(front, co).value;
      NormalizedKeepsSurvivors(front, co, cs');
      var ix' := Kept(front, Survives);
      var ix := Kept(records, Survives);
      assert ix == if Survives(last) then ix' + [n] else ix';
      assert cs == if Survives(last) then cs' + [NormalizeRecord(last, co).candle] else cs';
      forall j | 0 <= j < |ix| ensures NormalizeRecord(records[ix[j]], co) == Appended(cs[j]) {
        if j < |ix'| {
          assert ix[j] == ix'[j] && cs[j] == cs'[j];
          assert records[ix'[j]] == front[ix'[j]];
        }
      }
    }
  }

  /** `normalize_prices`: one pass over the records, skipping those with a
      falsy required value and appending a candlestick for each other. */
  method NormalizePrices(records: seq<Record>, co: Coercions) returns (r: Result<seq<Candle>, GenError>)
    ensures r == Normalized(records, co)
  {
    var result: seq<Candle> := [];
    var i := 0;
    while i < |records|
      invariant 0 <= i <= |records|
      invariant Normalized(records[..i], co) == Ok(result)
    {
      assert records[..i + 1][..i] == records[..i];
      match NormalizeRecord(records[i], co) {
        case Dropped =>
        case Unconvertible =>
          NormalizedErrorPersists(records, i + 1, co);
          return Err(ConversionFailed);
        case Appended(candle) =>
          result := result + [candle];
      }
      i := i + 1;
    }
    assert records[..i] == records;
    return Ok(result);
  }

  // ---------------------------------------------------------------------
  // The answer and the explanations
  // ---------------------------------------------------------------------

  datatype Answer = Buy | Sell

  /** `"buy" if "買" in str(signal) else "sell"`: a substring test, so the
      marker anywhere in the text makes the answer "buy". */
  function CorrectAnswer(signal: Value, co: Coercions): (a: Answer)
    ensures a == Buy <==> BuyMarker in Str(signal, co)
    ensures a == Sell <==> BuyMarker !in Str(signal, co)
  {
    if BuyMarker in Str(signal, co) then Buy else Sell
  }

  /** The answers for the two usual signal texts, "買進" (buy in) and
      "賣出" (sell out); a missing signal reads as "None" and is a sell. */
  lemma SignalExamples(co: Coercions)
    ensures CorrectAnswer(Text("買進"), co) == Buy
    ensures CorrectAnswer(Text("強烈買進"), co) == Buy
    ensures CorrectAnswer(Text("賣出"), co) == Sell
    ensures CorrectAnswer(Null, co) == Sell
  {
    assert "買進"[0] == BuyMarker;
    assert "強烈買進"[2] == BuyMarker;
  }

  /** A field becomes an explanation unless its key is excluded or its
      value is the empty string. */
  predicate Shown(f: Field)
  {
    f.key !in Excluded && f.value != Text("")
  }

  /** `f"指標{k}: {v}"`. */
  function Explain(f: Field, co: Coercions): string
  {
    "指標" + f.key + ": " + Str(f.value, co)
  }

  /** The explanation list, built field by field: at most one line per
      field. */
  function Explanations(rec: Record, co: Coercions): (e: seq<string>)
    ensures |e| <= |rec|
    decreases |rec|
  {
    if rec == [] then []
    else
      var last := rec[|rec| - 1];
      Explanations(rec[..|rec| - 1], co) + if Shown(last) then [Explain(last, co)] else []
  }

  /** The explanation list holds one line per shown field, in the record's
      field order, and nothing else. */
  lemma {:induction false} ExplanationsListShownFields(rec: Record, co: Coercions)
    ensures var ix := Kept(rec, Shown);
      |Explanations(rec, co)| == |ix| &&
      forall j :: 0 <= j < |ix| ==> Explanations(rec, co)[j] == Explain(rec[ix[j]], co)
    decreases |rec|
  {
    if rec != [] {
      var n := |rec| - 1;
      var front, last := rec[..n], rec[n];
      ExplanationsListShownFields(front, co);
      var ix' := Kept(front, Shown);
      var e' := Explanations(front, co);
      var ix, e := Kept(rec, Shown), Explanations(rec, co);
      assert ix == if Shown(last) then ix' + [n] else ix';
      assert e == e' + if Shown(last) then [Explain(last, co)] else [];
      forall j | 0 <= j < |ix| ensures e[j] == Explain(rec[ix[j]], co) {
        if j < |ix'| {
          assert ix[j] == ix'[j] && e[j] == e'[j];
          assert rec[ix'[j]] == front[ix'[j]];
        }
      }
    }
  }

  // ---------------------------------------------------------------------
  // gen_question
  // ---------------------------------------------------------------------

  /** Technical indicators: name to the list of its values. */
  type Indicators = map<string, seq<Value>>

  /** What a fetcher hands back: a dictionary (a missing key read with its
      default, `[]` or `{}`) or something that is not a dictionary. */
  datatype Payload = NotMapping | Mapping(candlesticks: seq<Record>, indicators: Indicators)

  /** A fetcher, called with the drawn record's symbol and date. */
  type Fetcher = (Value, Value) -> Payload

  /** Everything `gen_question` consults besides the pool and the draws. */
  datatype Collaborators = Collaborators(fetchBefore: Fetcher, fetchAfter: Fetcher, co: Coercions)

  /** The `isinstance(..., dict)` guard: a non-dictionary becomes the empty
      default; a dictionary passes through. */
  function OrEmpty(p: Payload): (q: Payload)
    ensures q.Mapping?
    ensures p.Mapping? ==> q == p
    ensures p.NotMapping? ==> q.candlesticks == [] && q.indicators == map[]
  {
    if p.NotMapping? then Mapping([], map[]) else p
  }

  datatype Question = Question(symbol: Value, previousPrices: seq<Candle>, afterPrices: seq<Candle>,
                               previousIndicators: Indicators, correctAns: Answer, explanations: seq<string>)

  /** How one draw ends: a question, a rejection by the history gate (with
      the number of previous bars), or a raised conversion error. */
  datatype AttemptOutcome = Accepted(question: Question) | TooShort(bars: nat) | Failed

  /** The previous-price fetch for the drawn record, after the dictionary
      guard. */
  function Before(rec: Record, env: Collaborators): Payload
  {
    OrEmpty(env.fetchBefore(Get(rec, "symbol"), Get(rec, "datetime")))
  }

  /** The after-price fetch for the drawn record, after the dictionary
      guard. */
  function After(rec: Record, env: Collaborators): Payload
  {
    OrEmpty(env.fetchAfter(Get(rec, "symbol"), Get(rec, "datetime")))
  }

  /** One pass of the retry loop on the drawn record.  The draw raises
      exactly when normalising either fetch raises; otherwise it is accepted
      exactly when the previous prices give at least MinHistory candlesticks,
      and the question carries both normalised price lists, the previous
      indicators, and the record's symbol, label and explanations. */
  function Attempt(rec: Record, env: Collaborators): (o: AttemptOutcome)
    ensures o.Failed? <==>
      Normalized(Before(rec, env).candlesticks, env.co).Err? ||
      Normalized(After(rec, env).candlesticks, env.co).Err?
    ensures o.Accepted? <==>
      Normalized(Before(rec, env).candlesticks, env.co).Ok? &&
      Normalized(After(rec, env).candlesticks, env.co).Ok? &&
      |Normalized(Before(rec, env).candlesticks, env.co).value| >= MinHistory
    ensures o.TooShort? ==>
      Normalized(Before(rec, env).candlesticks, env.co).Ok? &&
      o.bars == |Normalized(Before(rec, env).candlesticks, env.co).value| < MinHistory
    ensures o.Accepted? ==>
      o.question.previousPrices == Normalized(Before(rec, env).candlesticks, env.co).value &&
      o.question.afterPrices == Normalized(After(rec, env).candlesticks, env.co).value &&
      o.question.previousIndicators == Before(rec, env).indicators
    ensures o.Accepted? ==>
      o.question.symbol == Get(rec, "symbol") &&
      o.question.correctAns == CorrectAnswer(Get(rec, "Trade_Signal"), env.co) &&
      o.question.explanations == Explanations(rec, env.co)
  {
    var symbol := Get(rec, "symbol");
    var prev := Before(rec, env);
    var after := After(rec, env);
    match Normalized(prev.candlesticks, env.co)
    case Err(_) => Failed
    case Ok(previousPrices) =>
      match Normalized(after.candlesticks, env.co)
      case Err(_) => Failed
      case Ok(afterPrices) =>
        if |previousPrices| < MinHistory then TooShort(|previousPrices|)
        else
          Accepted(Question(symbol, previousPrices, afterPrices, prev.indicators,
                            CorrectAnswer(Get(rec, "Trade_Signal"), env.co), Explanations(rec, env.co)))
  }

  /** A draw whose previous-price fetch is not a dictionary has no previous
      bars, so unless the after-prices raise it is rejected by the gate. */
  lemma NonMappingIsRejected(rec: Record, env: Collaborators)
    requires env.fetchBefore(Get(rec, "symbol"), Get(rec, "datetime")).NotMapping?
    ensures Attempt(rec, env) == TooShort(0) || Attempt(rec, env) == Failed
  {
  }

  /** The body of the retry loop for the drawn record: label it, fetch and
      normalise its surrounding prices, and apply the 140-bar gate. */
  method DrawAttempt(rec: Record, env: Collaborators) returns (o: AttemptOutcome)
    ensures o == Attempt(rec, env)
  {
    var symbol := Get(rec, "symbol");
    var targetDate := Get(rec, "datetime");
    var correctAns := CorrectAnswer(Get(rec, "Trade_Signal"), env.co);
    var explanations := Explanations(rec, env.co);
    var prevData := OrEmpty(env.fetchBefore(symbol, targetDate));
    var afterData := OrEmpty(env.fetchAfter(symbol, targetDate));
    var previousPrices := NormalizePrices(prevData.candlesticks, env.co);
    if previousPrices.Err? {
      return Failed;
    }
    var afterPrices := NormalizePrices(afterData.candlesticks, env.co);
    if afterPrices.Err? {
      return Failed;
    }
    if |previousPrices.value| < MinHistory {
      return TooShort(|previousPrices.value|);
    }
    return Accepted(Question(symbol, previousPrices.value, afterPrices.value, prevData.indicators,
                             correctAns, explanations));
  }

  /** The draws cover the whole retry budget and all point into the pool. */
  predicate ValidDraws(pool: seq<Record>, draws: seq<nat>)
  {
    |draws| >= RetryLimit && forall i :: 0 <= i < RetryLimit ==> draws[i] < |pool|
  }

  /** `gen_question`.  An empty pool raises before any draw.  Otherwise the
      draws are tried in turn: every draw before the deciding one was
      rejected by the 140-bar gate, and the deciding draw either yields the
      question (returned at once), raises, or is the tenth rejection, after
      which the budget is exhausted.  `attempts` is the number of draws
      made. */
  method GenQuestion(pool: seq<Record>, draws: seq<nat>, env: Collaborators)
    returns (r: Result<Question, GenError>, ghost attempts: nat)
    requires |pool| > 0 ==> ValidDraws(pool, draws)
    ensures r == Err(EmptyPool) <==> |pool| == 0
    ensures |pool| == 0 ==> attempts == 0
    ensures |pool| > 0 ==>
      1 <= attempts <= RetryLimit &&
      (forall j :: 0 <= j < attempts - 1 ==> Attempt(pool[draws[j]], env).TooShort?) &&
      match Attempt(pool[draws[attempts - 1]], env)
      case Accepted(q) => r == Ok(q)
      case Failed => r == Err(ConversionFailed)
      case TooShort(_) => attempts == RetryLimit && r == Err(RetryBudgetExceeded)
    ensures r.Ok? ==> |r.value.previousPrices| >= MinHistory
  {
    if |pool| == 0 {
      return Err(EmptyPool), 0;
    }
    for attempt := 0 to RetryLimit
      invariant forall j :: 0 <= j < attempt ==> Attempt(pool[draws[j]], env).TooShort?
    {
      var outcome := DrawAttempt(pool[draws[attempt]], env);
      match outcome {
        case Accepted(question) =>
          return Ok(question), attempt + 1;
        case Failed =>
          return Err(ConversionFailed), attempt + 1;
        case TooShort(_) =>
      }
    }
    return Err(RetryBudgetExceeded), RetryLimit;
  }
}
