/**
 * The scoring, ranking and recommendation logic of the yield dashboard
 * (app/pages/yield.tsx). Every strategy row gets three integer percentages;
 * the best row is the first one of a stable sort, on a copy of the rows, by
 * (opportunity - risk) descending and then confidence descending; the
 * recommendation and the risk tone are derived from that best row.
 *
 * Scores are exact reals here. `Math.log10` is the parameter `log10`, and
 * the conversion of strings to numbers is the parameter `parse`.
 */
module YieldScoring {
  import opened Wrappers
  import opened JsValues
  import Numerals

  datatype StrategyRow = StrategyRow(id: int, apy: real, tvl: real, utilization: real, volatilityBps: real, rowLabel: string)

  /** The three scores, each a whole percentage. */
  datatype Scores = Scores(opportunityScore: int, riskScoreB: int, confidenceScore: int)

  /** `{ ...s, ...scoreStrategy(s) }`: a row together with its scores. */
  datatype ScoredRow = ScoredRow(row: StrategyRow, scores: Scores)

  function Max(x: real, y: real): (m: real) { if x >= y then x else y }
  function Min(x: real, y: real): (m: real) { if x <= y then x else y }

  /** `Math.max(0, Math.min(1, x))`. */
  function Clamp01(x: real): (r: real)
    ensures 0.0 <= r <= 1.0
    ensures 0.0 <= x <= 1.0 ==> r == x
    ensures x < 0.0 ==> r == 0.0
    ensures x > 1.0 ==> r == 1.0
  {
    Max(0.0, Min(1.0, x))
  }

  lemma Clamp01Monotone(x: real, y: real)
    requires x <= y
    ensures Clamp01(x) <= Clamp01(y)
  {
  }

  /** `Math.round`: the nearest integer, with halves rounded up. */
  function Round(x: real): (r: int)
    ensures x - 0.5 < r as real <= x + 0.5
  {
    (x + 0.5).Floor
  }

  lemma RoundMonotone(x: real, y: real)
    requires x <= y
    ensures Round(x) <= Round(y)
  {
  }

  /** `Math.round(x * 100)` for a score in [0, 1]. */
  function Percent(x: real): (p: int)
    requires 0.0 <= x <= 1.0
    ensures 0 <= p <= 100
  {
    Round(x * 100.0)
  }

  /** The normalised size of the pool: log10 of the TVL (at least 1) over 8, clamped. */
  function TvlNorm(tvl: real, log10: real -> real): (norm: real)
  {
    Clamp01(log10(Max(1.0, tvl)) / 8.0)
  }

  function OpportunityOf(s: StrategyRow, tvlN: real): (opportunity: real)
  {
    Clamp01(0.58 * Clamp01(s.apy / 25.0) + 0.28 * Clamp01(s.utilization / 100.0) + 0.14 * tvlN)
  }

  function RiskOf(s: StrategyRow, tvlN: real): (risk: real)
  {
    Clamp01(0.62 * Clamp01(s.volatilityBps / 2000.0) + 0.30 * Clamp01(s.utilization / 100.0) + 0.08 * (1.0 - tvlN))
  }

  function ConfidenceOf(opportunity: real, risk: real): (confidence: real)
  {
    Clamp01(opportunity * 0.65 + (1.0 - risk) * 0.35)
  }

  /** scoreStrategy: three whole percentages, each in [0, 100]. */
  function ScoreStrategy(s: StrategyRow, log10: real -> real): (r: Scores)
    ensures 0 <= r.opportunityScore <= 100
    ensures 0 <= r.riskScoreB <= 100
    ensures 0 <= r.confidenceScore <= 100
  {
    var tvlN := TvlNorm(s.tvl, log10);
    var opportunity := OpportunityOf(s, tvlN);
    var risk := RiskOf(s, tvlN);
    Scores(Percent(opportunity), Percent(risk), Percent(ConfidenceOf(opportunity, risk)))
  }

  /** More volatility, everything else fixed, never lowers the risk score. */
  lemma RiskMonotoneInVolatility(s: StrategyRow, volatilityBps: real, log10: real -> real)
    requires volatilityBps >= s.volatilityBps
    ensures ScoreStrategy(s.(volatilityBps := volatilityBps), log10).riskScoreB >= ScoreStrategy(s, log10).riskScoreB
  {
    var t := s.(volatilityBps := volatilityBps);
    var tvlN := TvlNorm(s.tvl, log10);
    Clamp01Monotone(s.volatilityBps / 2000.0, volatilityBps / 2000.0);
    Clamp01Monotone(
      0.62 * Clamp01(s.volatilityBps / 2000.0) + 0.30 * Clamp01(s.utilization / 100.0) + 0.08 * (1.0 - tvlN),
      0.62 * Clamp01(volatilityBps / 2000.0) + 0.30 * Clamp01(s.utilization / 100.0) + 0.08 * (1.0 - tvlN));
    RoundMonotone(RiskOf(s, tvlN) * 100.0, RiskOf(t, tvlN) * 100.0);
  }

  /** Higher utilization, everything else fixed, never lowers the risk score. */
  lemma RiskMonotoneInUtilization(s: StrategyRow, utilization: real, log10: real -> real)
    requires utilization >= s.utilization
    ensures ScoreStrategy(s.(utilization := utilization), log10).riskScoreB >= ScoreStrategy(s, log10).riskScoreB
  {
    var t := s.(utilization := utilization);
    var tvlN := TvlNorm(s.tvl, log10);
    Clamp01Monotone(s.utilization / 100.0, utilization / 100.0);
    Clamp01Monotone(
      0.62 * Clamp01(s.volatilityBps / 2000.0) + 0.30 * Clamp01(s.utilization / 100.0) + 0.08 * (1.0 - tvlN),
      0.62 * Clamp01(s.volatilityBps / 2000.0) + 0.30 * Clamp01(utilization / 100.0) + 0.08 * (1.0 - tvlN));
    RoundMonotone(RiskOf(s, tvlN) * 100.0, RiskOf(t, tvlN) * 100.0);
  }

  /** A higher APY, everything else fixed, never lowers the opportunity score. */
  lemma OpportunityMonotoneInApy(s: StrategyRow, apy: real, log10: real -> real)
    requires apy >= s.apy
    ensures ScoreStrategy(s.(apy := apy), log10).opportunityScore >= ScoreStrategy(s, log10).opportunityScore
  {
    var t := s.(apy := apy);
    var tvlN := TvlNorm(s.tvl, log10);
    Clamp01Monotone(s.apy / 25.0, apy / 25.0);
    Clamp01Monotone(
      0.58 * Clamp01(s.apy / 25.0) + 0.28 * Clamp01(s.utilization / 100.0) + 0.14 * tvlN,
      0.58 * Clamp01(apy / 25.0) + 0.28 * Clamp01(s.utilization / 100.0) + 0.14 * tvlN);
    RoundMonotone(OpportunityOf(s, tvlN) * 100.0, OpportunityOf(t, tvlN) * 100.0);
  }

  /** `strategies.map(s => ({ ...s, ...scoreStrategy(s) }))`. */
  function ScoreAll(rows: seq<StrategyRow>, log10: real -> real): (scored: seq<ScoredRow>)
    ensures |scored| == |rows|
    ensures forall i :: 0 <= i < |rows| ==> scored[i].row == rows[i]
    ensures forall i :: 0 <= i < |rows| ==>
      && 0 <= scored[i].scores.opportunityScore <= 100
      && 0 <= scored[i].scores.riskScoreB <= 100
      && 0 <= scored[i].scores.confidenceScore <= 100
  {
    seq(|rows|, i requires 0 <= i < |rows| => ScoredRow(rows[i], ScoreStrategy(rows[i], log10)))
  }

  /** Opportunity minus risk, the primary sort key. */
  function Composite(r: ScoredRow): (c: int)
  {
    r.scores.opportunityScore - r.scores.riskScoreB
  }

  /** x sorts strictly before y under the page's comparator. */
  predicate Outranks(x: ScoredRow, y: ScoredRow): (r: bool)
  {
    Composite(x) > Composite(y) ||
    (Composite(x) == Composite(y) && x.scores.confidenceScore > y.scores.confidenceScore)
  }

  /**
   * Index k holds the element a stable descending sort puts first: no row
   * outranks it, and it outranks every row before it (so ties go to the earliest).
   */
  ghost predicate IsFirstMaximum(scored: seq<ScoredRow>, k: int)
  {
    && 0 <= k < |scored|
    && (forall j :: 0 <= j < |scored| ==> !Outranks(scored[j], scored[k]))
    && (forall j :: 0 <= j < k ==> Outranks(scored[k], scored[j]))
  }

  function BestIndex(scored: seq<ScoredRow>): (k: nat)
    requires |scored| > 0
    ensures k < |scored|
  {
    if |scored| == 1 then 0
    else
      var k := BestIndex(scored[..|scored| - 1]);
      if Outranks(scored[|scored| - 1], scored[k]) then |scored| - 1 else k
  }

  lemma {:induction false} BestIndexIsFirstMaximum(scored: seq<ScoredRow>)
    requires |scored| > 0
    ensures IsFirstMaximum(scored, BestIndex(scored))
  {
    if |scored| > 1 {
      var init := scored[..|scored| - 1];
      BestIndexIsFirstMaximum(init);
      var k := BestIndex(init);
      var last := scored[|scored| - 1];
      if Outranks(last, scored[k]) {
        forall j | 0 <= j < |scored| - 1
          ensures Outranks(last, scored[j])
        {
          assert init[j] == scored[j];
          assert !Outranks(init[j], init[k]);
        }
      } else {
        forall j | 0 <= j < |scored|
          ensures !Outranks(scored[j], scored[k])
        {
          if j < |scored| - 1 {
            assert init[j] == scored[j];
          }
        }
        forall j | 0 <= j < k
          ensures Outranks(scored[k], scored[j])
        {
          assert init[j] == scored[j];
        }
      }
    }
  }

  /** At most one index is the first maximum, so it pins down the head of the sorted copy. */
  lemma FirstMaximumUnique(scored: seq<ScoredRow>, i: int, j: int)
    requires IsFirstMaximum(scored, i) && IsFirstMaximum(scored, j)
    ensures i == j
  {
    FirstMaximumAt(scored, i, j);
    FirstMaximumAt(scored, j, i);
  }

  lemma FirstMaximumAt(scored: seq<ScoredRow>, k: int, j: int)
    requires IsFirstMaximum(scored, k) && 0 <= j < |scored|
    ensures !Outranks(scored[j], scored[k])
    ensures j < k ==> Outranks(scored[k], scored[j])
  {
  }

  /** `best`: the first element of the sorted copy, or null for no rows. */
  function Best(scored: seq<ScoredRow>): (best: Option<ScoredRow>)
    ensures best.None? <==> scored == []
    ensures best.Some? ==> best.value in scored
  {
    if scored == [] then None else Some(scored[BestIndex(scored)])
  }

  /**
   * Best is null exactly for no rows; otherwise it is a row of `scored` that
   * no row outranks, and that outranks every earlier row.
   */
  lemma BestIsFirstMaximum(scored: seq<ScoredRow>)
    ensures Best(scored).None? <==> scored == []
    ensures Best(scored).Some? ==>
      exists k :: IsFirstMaximum(scored, k) && Best(scored).value == scored[k]
    ensures Best(scored).Some? ==>
      forall j :: 0 <= j < |scored| ==> Composite(scored[j]) <= Composite(Best(scored).value)
  {
    if scored != [] {
      BestIndexIsFirstMaximum(scored);
    }
  }

  /** Rows and tones of the risk badge. */
  datatype Tone = Info | Good | Warn | Bad

  /** The per-row risk badge of the strategy table. */
  function RiskBadge(riskScore: int): (tone: Tone)
  {
    if riskScore >= 70 then Bad else if riskScore >= 50 then Warn else Good
  }

  /** `riskTone` for the best row. */
  function RiskTone(best: Option<ScoredRow>): (tone: Tone)
    ensures tone == Info <==> best.None?
    ensures best.Some? ==> tone == RiskBadge(best.value.scores.riskScoreB)
  {
    if best.None? then Info
    else if best.value.scores.riskScoreB >= 70 then Bad
    else if best.value.scores.riskScoreB >= 50 then Warn
    else Good
  }

  /** The summary tone and the table badge use the same three bands. */
  lemma RiskToneBands(best: Option<ScoredRow>)
    ensures best.Some? ==>
      && (RiskTone(best) == Bad <==> best.value.scores.riskScoreB >= 70)
      && (RiskTone(best) == Warn <==> 50 <= best.value.scores.riskScoreB < 70)
      && (RiskTone(best) == Good <==> best.value.scores.riskScoreB < 50)
  {
  }

  /** `supported` on this page: the chain id is 97 or 5611. */
  predicate Supported(chainId: Option<int>): (r: bool)
  {
    chainId == Some(97) || chainId == Some(5611)
  }

  /** `snapshot?.activeStrategy ?? snapshot?.activeStrategyId ?? snapshot?.strategyId ?? 1`. */
  function ActiveStrategySource(snapshot: JsValue): (source: JsValue)
  {
    Coalesce(Member(snapshot, "activeStrategy"),
      Coalesce(Member(snapshot, "activeStrategyId"),
        Coalesce(Member(snapshot, "strategyId"), Num(1))))
  }

  /** The active strategy id as a number (None for NaN). */
  function ActiveId(snapshot: JsValue, parse: string -> Option<real>): (id: Option<real>)
  {
    ToNumber(ActiveStrategySource(snapshot), parse)
  }

  lemma ActiveIdDefaultsToOne(snapshot: JsValue, parse: string -> Option<real>)
    requires Nullish(snapshot)
    ensures ActiveId(snapshot, parse) == Some(1.0)
  {
  }

  /**
   * `shouldSwitch`: the best row is not the active strategy and beats its own
   * risk by at least 10 points with confidence at least 55.
   */
  predicate ShouldSwitch(best: ScoredRow, active: Option<real>): (r: bool)
    ensures active == Some(best.row.id as real) ==> !r
    ensures r ==> best.scores.opportunityScore >= best.scores.riskScoreB + 10 && best.scores.confidenceScore >= 55
  {
    && active != Some(best.row.id as real)
    && Composite(best) >= 10
    && best.scores.confidenceScore >= 55
  }

  datatype Recommendation =
    | NoStrategyData
    | ConnectSupportedChain
    | LoadOnchainData
    | SwitchTo(rowLabel: string, margin: int, confidence: int)
    | HoldCurrent(confidence: int)

  /** The headline shown for a recommendation. */
  function Title(rec: Recommendation): (title: string)
  {
    match rec
    case NoStrategyData => "\U{2014}"
    case ConnectSupportedChain => "Connect to a supported chain"
    case LoadOnchainData => "Load onchain data"
    case SwitchTo(rowLabel, _, _) => "Recommendation: Switch to " + rowLabel
    case HoldCurrent(_) => "Recommendation: Hold current strategy"
  }

  function Recommend(best: Option<ScoredRow>, snapshot: JsValue, chainId: Option<int>,
                     parse: string -> Option<real>): (rec: Recommendation)
    ensures rec == NoStrategyData <==> best.None?
    ensures rec.SwitchTo? ==>
      best.Some? && rec.rowLabel == best.value.row.rowLabel && rec.margin >= 10 && rec.confidence >= 55
    ensures rec.HoldCurrent? ==> best.Some? && rec.confidence == best.value.scores.confidenceScore
  {
    if best.None? then NoStrategyData
    else if !Supported(chainId) then ConnectSupportedChain
    else if !Truthy(snapshot) then LoadOnchainData
    else if ShouldSwitch(best.value, ActiveId(snapshot, parse)) then
      SwitchTo(best.value.row.rowLabel, Composite(best.value), best.value.scores.confidenceScore)
    else HoldCurrent(best.value.scores.confidenceScore)
  }

  /**
   * The precedence of the recommendation: no data, then an unsupported
   * chain (even when a switch would be advised), then a missing snapshot,
   * then switch or hold.
   */
  lemma RecommendationPrecedence(best: Option<ScoredRow>, snapshot: JsValue, chainId: Option<int>,
                                 parse: string -> Option<real>)
    ensures var rec := Recommend(best, snapshot, chainId, parse);
      && (rec == NoStrategyData <==> best.None?)
      && (rec == ConnectSupportedChain <==> best.Some? && !Supported(chainId))
      && (rec == LoadOnchainData <==> best.Some? && Supported(chainId) && !Truthy(snapshot))
      && (rec.SwitchTo? <==>
            best.Some? && Supported(chainId) && Truthy(snapshot) && ShouldSwitch(best.value, ActiveId(snapshot, parse)))
  {
  }

  /** A switch is advised only to a row other than the active one, with margin >= 10 and confidence >= 55. */
  lemma SwitchAdvice(best: Option<ScoredRow>, snapshot: JsValue, chainId: Option<int>,
                     parse: string -> Option<real>)
    requires Recommend(best, snapshot, chainId, parse).SwitchTo?
    ensures var rec := Recommend(best, snapshot, chainId, parse);
      && best.Some?
      && ActiveId(snapshot, parse) != Some(best.value.row.id as real)
      && rec.rowLabel == best.value.row.rowLabel
      && rec.margin >= 10 && rec.confidence >= 55
      && Title(rec) == "Recommendation: Switch to " + best.value.row.rowLabel
  {
  }

  /** The best row being the active one always yields a hold, never a switch. */
  lemma NoSwitchToActive(best: ScoredRow, snapshot: JsValue, chainId: Option<int>,
                         parse: string -> Option<real>)
    requires ActiveId(snapshot, parse) == Some(best.row.id as real)
    ensures !Recommend(Some(best), snapshot, chainId, parse).SwitchTo?
  {
  }

  /** `snapshot?.strategies ?? snapshot?.strategyData ?? snapshot?.strategyTable`. */
  function RawStrategies(snapshot: JsValue): (raw: JsValue)
  {
    Coalesce(Member(snapshot, "strategies"),
      Coalesce(Member(snapshot, "strategyData"), Member(snapshot, "strategyTable")))
  }

  /** `Number(snapshot?.apy ?? 6)`, the APY the fallback rows are built around (None for NaN). */
  function FallbackApy(snapshot: JsValue, parse: string -> Option<real>): (apy: Option<real>)
  {
    ToNumber(Coalesce(Member(snapshot, "apy"), Num(6)), parse)
  }

  lemma FallbackApyDefault(snapshot: JsValue, parse: string -> Option<real>)
    requires Nullish(snapshot)
    ensures FallbackApy(snapshot, parse) == Some(6.0)
  {
  }

  /**
   * The three rows shown without strategy data: ids 1, 2 and 3 labelled as a
   * converted row without a label would be, with row 2 offering the most APY.
   */
  function FallbackStrategies(baseApy: real): (rows: seq<StrategyRow>)
    ensures |rows| == 3
    ensures forall k :: 0 <= k < 3 ==> rows[k].id == k + 1
    ensures forall k :: 0 <= k < 3 ==> rows[k].rowLabel == "Strategy " + Numerals.IntToDecimal(rows[k].id)
    ensures forall k :: 0 <= k < 3 ==> rows[k].apy <= rows[1].apy
  {
    [ StrategyRow(1, baseApy, 250000.0, 62.0, 420.0, "Strategy 1"),
      StrategyRow(2, baseApy + 3.0, 180000.0, 74.0, 780.0, "Strategy 2"),
      StrategyRow(3, baseApy - 1.0, 420000.0, 55.0, 260.0, "Strategy 3") ]
  }

  /** `Number(r[key] ?? r[alias] ?? 0)`, None for NaN. */
  function NumberField(r: JsValue, key: string, alias: string, parse: string -> Option<real>): (n: Option<real>)
    ensures Nullish(Member(r, key)) && Nullish(Member(r, alias)) ==> n == Some(0.0)
  {
    ToNumber(Coalesce(Member(r, key), Coalesce(Member(r, alias), Num(0))), parse)
  }

  /**
   * `Number(r.apy ?? (r.apyBps ? Number(r.apyBps) / 100 : r.apyPercent ?? 0))`:
   * a percentage, given directly, in basis points, or as `apyPercent`.
   */
  function RowApy(r: JsValue, parse: string -> Option<real>): (apy: Option<real>)
    ensures !Nullish(Member(r, "apy")) ==> apy == ToNumber(Member(r, "apy"), parse)
    ensures Nullish(Member(r, "apy")) && Member(r, "apyBps").Num? && Member(r, "apyBps").n != 0 ==>
              apy == Some(Member(r, "apyBps").n as real / 100.0)
    ensures Nullish(Member(r, "apy")) && !Truthy(Member(r, "apyBps")) && Member(r, "apyPercent").Num? ==>
              apy == Some(Member(r, "apyPercent").n as real)
    ensures Nullish(Member(r, "apy")) && !Truthy(Member(r, "apyBps")) && Nullish(Member(r, "apyPercent")) ==>
              apy == Some(0.0)
  {
    var direct := Member(r, "apy");
    if !Nullish(direct) then ToNumber(direct, parse)
    else if Truthy(Member(r, "apyBps")) then
      match ToNumber(Member(r, "apyBps"), parse)
      case Some(bps) => Some(bps / 100.0)
      case None => None
    else ToNumber(Coalesce(Member(r, "apyPercent"), Num(0)), parse)
  }

  /** `Number(r.id ?? r.strategyId ?? i)`, None for NaN. */
  function RowId(r: JsValue, i: nat, parse: string -> Option<real>): (id: Option<real>)
    ensures Nullish(Member(r, "id")) && Nullish(Member(r, "strategyId")) ==> id == Some(i as real)
  {
    ToNumber(Coalesce(Member(r, "id"), Coalesce(Member(r, "strategyId"), Num(i))), parse)
  }

  /**
   * One element of the snapshot's strategy array, converted as the page's
   * `raw.map((r, i) => ...)` converts it. None where the page has no proper
   * row: the element is null or undefined (reading `r.id` throws), a field
   * is NaN, or the id is not a whole number.
   */
  function ParseRow(r: JsValue, i: nat, parse: string -> Option<real>): (row: Option<StrategyRow>)
    ensures row.Some? ==> !Nullish(r)
    ensures row.Some? && Nullish(Member(r, "id")) && Nullish(Member(r, "strategyId")) ==> row.value.id == i
    ensures row.Some? && Member(r, "id").Num? ==> row.value.id == Member(r, "id").n
    ensures row.Some? ==> RowApy(r, parse) == Some(row.value.apy)
    ensures row.Some? ==>
      && NumberField(r, "tvl", "totalAssets", parse) == Some(row.value.tvl)
      && NumberField(r, "utilization", "util", parse) == Some(row.value.utilization)
      && NumberField(r, "volatilityBps", "volBps", parse) == Some(row.value.volatilityBps)
    ensures row.Some? && Nullish(Member(r, "label")) && !Nullish(Member(r, "name")) ==>
              row.value.rowLabel == ToString(Member(r, "name"))
    ensures row.Some? <==>
      && !Nullish(r)
      && RowId(r, i, parse).Some? && RowId(r, i, parse).value == RowId(r, i, parse).value.Floor as real
      && RowApy(r, parse).Some?
      && NumberField(r, "tvl", "totalAssets", parse).Some?
      && NumberField(r, "utilization", "util", parse).Some?
      && NumberField(r, "volatilityBps", "volBps", parse).Some?
    ensures row.Some? && !Nullish(Member(r, "label")) ==> row.value.rowLabel == ToString(Member(r, "label"))
    ensures row.Some? && Nullish(Member(r, "label")) && Nullish(Member(r, "name")) ==>
              row.value.rowLabel == "Strategy " + Numerals.IntToDecimal(if Nullish(Member(r, "id")) then i else row.value.id)
  {
    if Nullish(r) then None
    else
      var id := RowId(r, i, parse);
      var apy := RowApy(r, parse);
      var tvl := NumberField(r, "tvl", "totalAssets", parse);
      var utilization := NumberField(r, "utilization", "util", parse);
      var volatility := NumberField(r, "volatilityBps", "volBps", parse);
      if id.None? || id.value != id.value.Floor as real || apy.None? || tvl.None? || utilization.None? || volatility.None? then
        None
      else
        // `Number(r.id ?? i)` is the row's own id when `r.id` is present, and i otherwise.
        var shownId := if Nullish(Member(r, "id")) then i else id.value.Floor;
        var shown := Coalesce(Member(r, "label"), Coalesce(Member(r, "name"), Str("Strategy " + Numerals.IntToDecimal(shownId))));
        Some(StrategyRow(id.value.Floor, apy.value, tvl.value, utilization.value, volatility.value, ToString(shown)))
  }

  /** An empty object becomes a row with its position as id, zero figures and a generic label. */
  lemma ParseRowOfEmptyObject(i: nat, parse: string -> Option<real>)
    ensures ParseRow(Obj([]), i, parse) == Some(StrategyRow(i, 0.0, 0.0, 0.0, 0.0, "Strategy " + Numerals.IntToDecimal(i)))
  {
  }

  /**
   * `strategies`: the snapshot's rows when it has a non-empty array of them,
   * otherwise the three fallback rows. None when the page would show a NaN
   * field or fail on an element.
   */
  function Strategies(snapshot: JsValue, parse: string -> Option<real>): (rows: Option<seq<StrategyRow>>)
    ensures rows.Some? ==> |rows.value| > 0
  {
    var raw := RawStrategies(snapshot);
    if raw.Arr? && |raw.elems| > 0 then
      if forall i :: 0 <= i < |raw.elems| ==> ParseRow(raw.elems[i], i, parse).Some? then
        Some(seq(|raw.elems|, i requires 0 <= i < |raw.elems| && ParseRow(raw.elems[i], i, parse).Some? =>
          ParseRow(raw.elems[i], i, parse).value))
      else None
    else
      var base := FallbackApy(snapshot, parse);
      if base.None? then None else Some(FallbackStrategies(base.value))
  }

  lemma StrategiesShape(snapshot: JsValue, parse: string -> Option<real>)
    ensures var rows := Strategies(snapshot, parse);
            var raw := RawStrategies(snapshot);
      && (raw.Arr? && |raw.elems| > 0 ==>
            && (rows.Some? <==> forall i :: 0 <= i < |raw.elems| ==> ParseRow(raw.elems[i], i, parse).Some?)
            && (rows.Some? ==>
                  && |rows.value| == |raw.elems|
                  && forall i :: 0 <= i < |raw.elems| ==> ParseRow(raw.elems[i], i, parse) == Some(rows.value[i])))
      && (!(raw.Arr? && |raw.elems| > 0) ==>
            && (rows.Some? <==> FallbackApy(snapshot, parse).Some?)
            && (rows.Some? ==>
                  var base := FallbackApy(snapshot, parse).value;
                  && |rows.value| == 3
                  && rows.value[0].id == 1 && rows.value[1].id == 2 && rows.value[2].id == 3
                  && rows.value[0].apy == base && rows.value[1].apy == base + 3.0 && rows.value[2].apy == base - 1.0))
  {
  }

  /**
   * Elements without an id are numbered from 0, while the active id defaults
   * to 1: with no active-strategy field, the second such row is the active one.
   */
  lemma PositionalIdMatchesDefaultActive(snapshot: JsValue, parse: string -> Option<real>)
    requires Nullish(Member(snapshot, "activeStrategy")) && Nullish(Member(snapshot, "activeStrategyId"))
    requires Nullish(Member(snapshot, "strategyId"))
    requires RawStrategies(snapshot).Arr? && |RawStrategies(snapshot).elems| >= 2
    requires Nullish(Member(RawStrategies(snapshot).elems[1], "id"))
    requires Nullish(Member(RawStrategies(snapshot).elems[1], "strategyId"))
    requires Strategies(snapshot, parse).Some?
    ensures ActiveId(snapshot, parse) == Some(1.0)
    ensures Strategies(snapshot, parse).value[1].id as real == ActiveId(snapshot, parse).value
  {
    StrategiesShape(snapshot, parse);
  }

  /** With no snapshot at all the page shows the fallback rows, and so always has a best row. */
  lemma NoSnapshotHasBest(snapshot: JsValue, parse: string -> Option<real>, log10: real -> real)
    requires Nullish(snapshot)
    ensures Strategies(snapshot, parse).Some?
    ensures Best(ScoreAll(Strategies(snapshot, parse).value, log10)).Some?
  {
  }
}
