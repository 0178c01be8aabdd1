/**
 * `SalesForecastView.get` (sales_analysis/views.py): daily sales history, the
 * 30-row guard, the date features, and the 30-day horizon whose points are the
 * regression's prediction adjusted for weekends, jittered and floored. The
 * regression fit is a parameter (`fit`): what it computes is not modelled, only
 * what it is given and where its predictions go. The random draws are a
 * parameter too.
 */
module SalesForecast {
  import opened Ledger
  import opened Grouping
  import opened Percent
  import opened Calendar

  /** The fewest daily rows the forecast accepts. */
  const MinHistory: nat := 30

  /** The number of days forecast. */
  const Horizon: nat := 30

  // ---------------------------------------------------------------------------
  // Daily sales history.
  // ---------------------------------------------------------------------------

  /** `order_by('order_date')`. */
  predicate DateAsc(a: Bucket<Timestamp>, b: Bucket<Timestamp>)
  {
    TimestampLe(a.key, b.key)
  }

  /** Each order contributes its `total_amount` under its `order_date` (a timestamp, not a calendar day). */
  function DailyRows(orders: seq<SalesOrder>): seq<Row<Timestamp>>
  {
    seq(|orders|, i requires 0 <= i < |orders| => Row(orders[i].orderDate, orders[i].totalAmount))
  }

  /**
   * `SalesOrder.objects.values('order_date').annotate(daily_sales=Sum('total_amount'))
   * .order_by('order_date')`: one row per distinct timestamp, strictly increasing.
   */
  function DailySalesQuery(orders: seq<SalesOrder>): (q: seq<Bucket<Timestamp>>)
    ensures IsGrouping(q, DailyRows(orders))
    ensures Totals(q) == SumAll(DailyRows(orders))
    ensures forall i, j :: 0 <= i < j < |q| ==> TimestampLe(q[i].key, q[j].key) && q[i].key != q[j].key
  {
    GroupedQuery(DailyRows(orders), DateAsc)
  }

  /** `df['daily_sales'].mean()`. */
  function MeanDailySales(q: seq<Bucket<Timestamp>>): (m: real)
    requires |q| > 0
    ensures m * |q| as real == Totals(q)
  {
    Totals(q) / |q| as real
  }

  // ---------------------------------------------------------------------------
  // Features and the per-point adjustment.
  // ---------------------------------------------------------------------------

  /** The feature vector `[day_of_week, month, year, day]` of one date. */
  datatype Features = Features(dayOfWeek: int, month: int, year: int, day: int)

  /** `dt.dayofweek`, `dt.month`, `dt.year` and `dt.day` of a timestamp. */
  function FeaturesOf(t: Timestamp): (f: Features)
    ensures 0 <= f.dayOfWeek < 7 && 1 <= f.month <= 12 && 1 <= f.day <= 31
    ensures DaysFromCivil(Date(f.year, f.month, f.day)) == t.day
    ensures f.dayOfWeek == DayOfWeek(t.day)
    ensures f.day <= DaysInMonth(f.year, f.month)
  {
    CivilInRange(t.day);
    CivilRoundTrip(t.day);
    CivilValid(t.day);
    var d := CivilFromDays(t.day);
    Features(DayOfWeek(t.day), d.month, d.year, d.day)
  }

  /** One row of the training set: the features of a history row and its daily sales. */
  datatype TrainingRow = TrainingRow(features: Features, dailySales: real)

  /** The training set `X`, `y` built from the daily rows, in date order. */
  function TrainingSet(q: seq<Bucket<Timestamp>>): (t: seq<TrainingRow>)
    ensures |t| == |q|
    ensures forall i :: 0 <= i < |q| ==> t[i] == TrainingRow(FeaturesOf(q[i].key), q[i].total)
  {
    seq(|q|, i requires 0 <= i < |q| => TrainingRow(FeaturesOf(q[i].key), q[i].total))
  }

  /** The weekend uplift: 1.2 on Saturday and Sunday (weekday 5 and 6), 1.0 otherwise. */
  function WeekdayEffect(dayOfWeek: int): (w: real)
    ensures w == 1.0 || w == 1.2
    ensures w == 1.2 <==> 5 <= dayOfWeek
  {
    if dayOfWeek >= 5 then 1.2 else 1.0
  }

  /** `0.85 + random.random() * 0.3` for a draw `u` of `random.random()`. */
  function RandomFactor(u: real): (r: real)
    requires 0.0 <= u < 1.0
    ensures 0.85 <= r < 1.15
  {
    0.85 + u * 0.3
  }

  /**
   * One forecast point: the base prediction times the weekday effect and the
   * random factor, or half the historical mean where that product is negative.
   */
  function Adjust(base: real, dayOfWeek: int, u: real, avgSales: real): (r: real)
    requires 0.0 <= u < 1.0
    ensures base < 0.0 ==> r == avgSales * 0.5
    ensures 0.0 <= base ==>
      base * WeekdayEffect(dayOfWeek) * 0.85 <= r <= base * WeekdayEffect(dayOfWeek) * 1.15
    ensures 0.0 <= avgSales ==> 0.0 <= r
  {
    var w := WeekdayEffect(dayOfWeek);
    var prediction := base * w * RandomFactor(u);
    ScaledBounds(base, w, RandomFactor(u), prediction);
    if prediction < 0.0 then avgSales * 0.5 else prediction
  }

  /** A base scaled by a positive effect and a factor in [0.85, 1.15) keeps its sign and stays within the factor's bounds. */
  lemma ScaledBounds(base: real, w: real, f: real, p: real)
    requires 0.0 < w && 0.85 <= f < 1.15 && p == base * w * f
    ensures base < 0.0 ==> p < 0.0
    ensures 0.0 <= base ==> 0.0 <= base * w * 0.85 <= p <= base * w * 1.15
  {
    if base < 0.0 {
      NegativeTimesPositive(base, w * f);
      assert base * w * f == base * (w * f);
    } else {
      ProductNonNegative(base, w);
      ProductNonNegative(base * w, 0.85);
      ProductNonNegative(base * w, f - 0.85);
      ProductNonNegative(base * w, 1.15 - f);
      assert base * w * f - base * w * 0.85 == (base * w) * (f - 0.85);
      assert base * w * 1.15 - base * w * f == (base * w) * (1.15 - f);
    }
  }

  /** A point of the response: the formatted date and the forecast rounded to cents. */
  datatype ForecastPoint = ForecastPoint(date: Date, forecastedSales: real)

  /** The view's response: the `400` error when the history is too short, or the training set and the 30 points. */
  datatype ForecastOutcome =
    | InsufficientHistory
    | Forecast(training: seq<TrainingRow>, points: seq<ForecastPoint>)

  /** The `i`-th day after the last history row (1-based), as `last_date + timedelta(days=i)`. */
  function FutureDate(last: Timestamp, i: int): Timestamp
  {
    AddDays(last, i)
  }

  /** The value the view reports for horizon day `i` (1..30). */
  function PointAt(q: seq<Bucket<Timestamp>>, model: Features -> real, draws: seq<real>, i: int): (p: ForecastPoint)
    requires |q| > 0 && 1 <= i <= |draws|
    requires forall k :: 0 <= k < |draws| ==> 0.0 <= draws[k] < 1.0
    ensures ValidDate(p.date) && DaysFromCivil(p.date) == q[|q| - 1].key.day + i
    ensures var date := FutureDate(q[|q| - 1].key, i);
      var prediction := Adjust(model(FeaturesOf(date)), DayOfWeek(date.day), draws[i - 1], MeanDailySales(q));
      -0.005 <= p.forecastedSales - prediction <= 0.005
    ensures MeanDailySales(q) >= 0.0 ==> p.forecastedSales >= 0.0
  {
    var date := FutureDate(q[|q| - 1].key, i);
    CivilValid(date.day);
    CivilRoundTrip(date.day);
    ForecastPoint(CivilFromDays(date.day),
                  Round2(Adjust(model(FeaturesOf(date)), DayOfWeek(date.day), draws[i - 1], MeanDailySales(q))))
  }

  /**
   * `SalesForecastView.get`. `fit` stands for scaling the training set and
   * fitting the linear regression; the function it returns is the predictor
   * applied to one feature vector. `draws` are the 30 values of
   * `random.random()`, one per horizon day.
   */
  method SalesForecastView(orders: seq<SalesOrder>, fit: seq<TrainingRow> -> (Features -> real), draws: seq<real>)
    returns (outcome: ForecastOutcome)
    requires |draws| == Horizon
    requires forall k :: 0 <= k < |draws| ==> 0.0 <= draws[k] < 1.0
    ensures var q := DailySalesQuery(orders);
      && (outcome.InsufficientHistory? <==> |q| < MinHistory)
      && (outcome.Forecast? ==>
            && outcome.training == TrainingSet(q)
            && |outcome.points| == Horizon
            && forall i :: 0 <= i < Horizon ==> outcome.points[i] == PointAt(q, fit(TrainingSet(q)), draws, i + 1))
  {
    var salesData := DailySalesQuery(orders);
    if |salesData| < MinHistory {
      return InsufficientHistory;
    }
    var training := TrainingSet(salesData);
    var model := fit(training);
    var result := ForecastHorizon(salesData, model, draws);
    outcome := Forecast(training, result);
  }

  /** The two loops of the view past the fit: the 30 dated predictions, then the response rows. */
  method ForecastHorizon(salesData: seq<Bucket<Timestamp>>, model: Features -> real, draws: seq<real>)
    returns (result: seq<ForecastPoint>)
    requires |salesData| > 0 && |draws| == Horizon
    requires forall k :: 0 <= k < |draws| ==> 0.0 <= draws[k] < 1.0
    ensures |result| == Horizon
    ensures forall i :: 0 <= i < Horizon ==> result[i] == PointAt(salesData, model, draws, i + 1)
  {
    var lastDate := salesData[|salesData| - 1].key;
    var avgSales := MeanDailySales(salesData);
    var futureDates, futurePredictions := Predict(lastDate, model, draws, avgSales);
    result := FormatForecast(futureDates, futurePredictions);
  }

  /** The first loop: the dates `last_date + 1 .. last_date + 30` and the adjusted prediction for each. */
  method Predict(lastDate: Timestamp, model: Features -> real, draws: seq<real>, avgSales: real)
    returns (futureDates: seq<Timestamp>, futurePredictions: seq<real>)
    requires |draws| == Horizon
    requires forall k :: 0 <= k < |draws| ==> 0.0 <= draws[k] < 1.0
    ensures |futureDates| == |futurePredictions| == Horizon
    ensures forall k :: 0 <= k < Horizon ==> futureDates[k] == FutureDate(lastDate, k + 1)
    ensures forall k :: 0 <= k < Horizon ==>
      futurePredictions[k] == Adjust(model(FeaturesOf(futureDates[k])), DayOfWeek(futureDates[k].day), draws[k], avgSales)
  {
    futureDates := [];
    futurePredictions := [];
    for i := 1 to Horizon + 1
      invariant |futureDates| == i - 1
      invariant forall k :: 0 <= k < i - 1 ==> futureDates[k] == FutureDate(lastDate, k + 1)
      invariant Predicted(futureDates, futurePredictions, model, draws, avgSales)
    {
      var futureDate := AddDays(lastDate, i);
      var features := FeaturesOf(futureDate);
      var basePrediction := model(features);
      var prediction := Adjust(basePrediction, DayOfWeek(futureDate.day), draws[i - 1], avgSales);
      PredictedSnoc(futureDates, futurePredictions, model, draws, avgSales, futureDate);
      futureDates := futureDates + [futureDate];
      futurePredictions := futurePredictions + [prediction];
    }
  }

  /** Each prediction so far is the adjusted model output for its date and its draw. */
  ghost predicate Predicted(dates: seq<Timestamp>, preds: seq<real>, model: Features -> real, draws: seq<real>, avgSales: real)
  {
    && |dates| == |preds| <= |draws|
    && (forall k :: 0 <= k < |draws| ==> 0.0 <= draws[k] < 1.0)
    && forall k :: 0 <= k < |preds| ==>
         preds[k] == Adjust(model(FeaturesOf(dates[k])), DayOfWeek(dates[k].day), draws[k], avgSales)
  }

  lemma PredictedSnoc(dates: seq<Timestamp>, preds: seq<real>, model: Features -> real, draws: seq<real>, avgSales: real,
                      d: Timestamp)
    requires Predicted(dates, preds, model, draws, avgSales) && |preds| < |draws|
    ensures Predicted(dates + [d], preds + [Adjust(model(FeaturesOf(d)), DayOfWeek(d.day), draws[|preds|], avgSales)],
                      model, draws, avgSales)
  {
    var p := Adjust(model(FeaturesOf(d)), DayOfWeek(d.day), draws[|preds|], avgSales);
    var dates', preds' := dates + [d], preds + [p];
    forall k | 0 <= k < |preds'|
      ensures preds'[k] == Adjust(model(FeaturesOf(dates'[k])), DayOfWeek(dates'[k].day), draws[k], avgSales)
    {
      if k < |preds| {
        assert preds'[k] == preds[k] && dates'[k] == dates[k];
      }
    }
  }

  /** The second loop: each date formatted as a calendar date, each prediction rounded to cents. */
  method FormatForecast(futureDates: seq<Timestamp>, futurePredictions: seq<real>) returns (result: seq<ForecastPoint>)
    requires |futureDates| == |futurePredictions|
    ensures |result| == |futureDates|
    ensures forall k :: 0 <= k < |result| ==>
      result[k] == ForecastPoint(CivilFromDays(futureDates[k].day), Round2(futurePredictions[k]))
  {
    result := [];
    for n := 0 to |futureDates|
      invariant |result| == n
      invariant forall k :: 0 <= k < n ==>
        result[k] == ForecastPoint(CivilFromDays(futureDates[k].day), Round2(futurePredictions[k]))
    {
      result := result + [ForecastPoint(CivilFromDays(futureDates[n].day), Round2(futurePredictions[n]))];
    }
  }

  // ---------------------------------------------------------------------------
  // Properties of the forecast.
  // ---------------------------------------------------------------------------

  /** The last daily row holds the latest `order_date` of all orders (`df['order_date'].max()`). */
  lemma LastRowIsLatest(orders: seq<SalesOrder>)
    requires |DailySalesQuery(orders)| > 0
    ensures var q := DailySalesQuery(orders);
      forall k :: 0 <= k < |orders| ==> TimestampLe(orders[k].orderDate, q[|q| - 1].key)
  {
    var q := DailySalesQuery(orders);
    forall k | 0 <= k < |orders| ensures TimestampLe(orders[k].orderDate, q[|q| - 1].key) {
      assert DailyRows(orders)[k].key == orders[k].orderDate;
      var i :| 0 <= i < |q| && q[i].key == DailyRows(orders)[k].key;
      if i < |q| - 1 {
        assert TimestampLe(q[i].key, q[|q| - 1].key);
      }
    }
  }

  /** The horizon is 30 consecutive calendar days: each point is dated the day after the one before it. */
  lemma HorizonIsConsecutive(q: seq<Bucket<Timestamp>>, model: Features -> real, draws: seq<real>, i: int)
    requires |q| > 0 && |draws| == Horizon && 1 <= i < Horizon
    requires forall k :: 0 <= k < |draws| ==> 0.0 <= draws[k] < 1.0
    ensures PointAt(q, model, draws, i + 1).date == NextDate(PointAt(q, model, draws, i).date)
  {
    var z := q[|q| - 1].key.day + i;
    var p, p' := PointAt(q, model, draws, i), PointAt(q, model, draws, i + 1);
    DaysCivilRoundTrip(p.date);
    DaysCivilRoundTrip(p'.date);
    assert CivilFromDays(z) == p.date && CivilFromDays(z + 1) == p'.date;
    NextDay(z);
  }

  /** Saturday 1 June 2024 (day 19875) and the Sunday after it get the weekend uplift; the Friday before and the Monday after do not. */
  lemma WeekendExamples()
    ensures DaysFromCivil(Date(2024, 6, 1)) == 19875
    ensures WeekdayEffect(DayOfWeek(19875)) == 1.2 && WeekdayEffect(DayOfWeek(19876)) == 1.2
    ensures WeekdayEffect(DayOfWeek(19874)) == 1.0 && WeekdayEffect(DayOfWeek(19877)) == 1.0
  {
  }

  lemma ProductNonNegative(x: real, y: real)
    requires 0.0 <= x && 0.0 <= y
    ensures 0.0 <= x * y
  {
  }

  lemma NegativeTimesPositive(x: real, y: real)
    requires x < 0.0 < y
    ensures x * y < 0.0
  {
  }

  /** The mean of daily sales is non-negative when no order total is negative. */
  lemma MeanNonNegative(orders: seq<SalesOrder>)
    requires forall k :: 0 <= k < |orders| ==> orders[k].totalAmount >= 0.0
    requires |DailySalesQuery(orders)| > 0
    ensures MeanDailySales(DailySalesQuery(orders)) >= 0.0
  {
    var q := DailySalesQuery(orders);
    SumAllNonNegative(DailyRows(orders));
    QuotientNonNegative(Totals(q), |q| as real);
  }

  lemma QuotientNonNegative(t: real, n: real)
    requires 0.0 <= t && 0.0 < n
    ensures 0.0 <= t / n
  {
  }

  lemma {:induction false} SumAllNonNegative<L>(rows: seq<Row<L>>)
    requires forall k :: 0 <= k < |rows| ==> rows[k].value >= 0.0
    ensures SumAll(rows) >= 0.0
  {
    if rows != [] {
      SumAllNonNegative(rows[..|rows| - 1]);
    }
  }

  /** Every reported point is non-negative when no order total is negative. */
  lemma ForecastNonNegative(orders: seq<SalesOrder>, model: Features -> real, draws: seq<real>, i: int)
    requires forall k :: 0 <= k < |orders| ==> orders[k].totalAmount >= 0.0
    requires |DailySalesQuery(orders)| > 0 && 1 <= i <= |draws|
    requires forall k :: 0 <= k < |draws| ==> 0.0 <= draws[k] < 1.0
    ensures PointAt(DailySalesQuery(orders), model, draws, i).forecastedSales >= 0.0
  {
    MeanNonNegative(orders);
  }

  /** A Saturday base of 100 with the middle draw gives 120; a negative base with mean 200 gives 100. */
  lemma AdjustExamples()
    ensures Adjust(100.0, 5, 0.5, 0.0) == 120.0
    ensures Adjust(100.0, 2, 0.5, 0.0) == 100.0
    ensures Adjust(-10.0, 0, 0.25, 200.0) == 100.0
  {
  }
}
