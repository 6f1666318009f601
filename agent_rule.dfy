/**
 * The one-shot agent of contracts/scripts/runAgentOnce.ts: it reads strategy
 * 1 (A, the baseline) and strategy 2 (B, the candidate) from the strategy
 * manager, scores B against A, switches the vault to strategy 2 when a fixed
 * four-condition rule holds, and writes a decision log.
 *
 * Scores are exact rationals here; the script computes them in binary
 * floating point.
 */
module AgentRule {
  import opened Wrappers

  /** A strategy as the strategy manager returns it: unsigned 256-bit fields. */
  datatype RawStrategy = RawStrategy(name: string, apyBps: nat, liquidityBps: nat, utilizationBps: nat, enabled: bool)

  /** A strategy after conversion to plain numbers (basis points). */
  datatype Strategy = Strategy(name: string, apyBps: int, liquidityBps: int, utilizationBps: int, enabled: bool)

  const ApyDeltaThresholdBps: int := 200
  const LiquidityFloorBps: int := 7000
  const RiskCeiling: real := 0.6
  /** The only strategy the agent ever switches the vault to. */
  const TargetStrategyId: int := 2

  /** The rule as the log's `decisionRule` text states it. */
  const DecisionRuleText: string :=
    "if (apyDeltaBps >= 200) && (liquidityBps_B >= 7000) && (riskScore_B <= 0.6) then setActiveStrategy(2)"

  /**
   * `Number(s.apyBps)` and the like: the unsigned fields become plain numbers
   * with their values (taken as exact) and the name and flag are kept.
   */
  function ParseStrategy(raw: RawStrategy): (s: Strategy)
    ensures s.apyBps >= 0 && s.liquidityBps >= 0 && s.utilizationBps >= 0
    ensures s.apyBps == raw.apyBps && s.liquidityBps == raw.liquidityBps && s.utilizationBps == raw.utilizationBps
    ensures s.name == raw.name && s.enabled == raw.enabled
  {
    Strategy(raw.name, raw.apyBps, raw.liquidityBps, raw.utilizationBps, raw.enabled)
  }

  /** Clamps a score into the unit interval. */
  function Clamp01(value: real): (r: real)
    ensures 0.0 <= r <= 1.0
    ensures 0.0 <= value <= 1.0 ==> r == value
    ensures value < 0.0 ==> r == 0.0
    ensures value > 1.0 ==> r == 1.0
  {
    if value < 0.0 then 0.0
    else if value > 1.0 then 1.0
    else value
  }

  /** An integer clamped into [lo, hi]; used to state the scores in scaled form. */
  function ClampInt(x: int, lo: int, hi: int): (r: int)
    requires lo <= hi
    ensures lo <= r <= hi
    ensures lo <= x <= hi ==> r == x
  {
    if x < lo then lo else if x > hi then hi else x
  }

  function ApyDeltaBps(a: Strategy, b: Strategy): (d: int)
  {
    b.apyBps - a.apyBps
  }

  function LiquidityDeltaBps(a: Strategy, b: Strategy): (d: int)
  {
    b.liquidityBps - a.liquidityBps
  }

  /**
   * The candidate's opportunity: its APY gain over 500 bps plus its liquidity
   * gain, clamped. It is 0 when B improves on neither, and saturates at 1
   * exactly when 20 * apyDelta + liquidityDelta reaches 10000.
   */
  function OpportunityScore(a: Strategy, b: Strategy): (score: real)
    ensures 0.0 <= score <= 1.0
    ensures ApyDeltaBps(a, b) <= 0 && LiquidityDeltaBps(a, b) <= 0 ==> score == 0.0
    ensures score == 1.0 <==> 20 * ApyDeltaBps(a, b) + LiquidityDeltaBps(a, b) >= 10000
  {
    Clamp01(ApyDeltaBps(a, b) as real / 500.0 + LiquidityDeltaBps(a, b) as real / 10000.0)
  }

  /**
   * Risk of the candidate alone: utilization plus illiquidity, clamped. It
   * saturates at 1 exactly when utilization reaches liquidity.
   */
  function RiskScore(b: Strategy): (score: real)
    ensures 0.0 <= score <= 1.0
    ensures score == 1.0 <==> b.utilizationBps >= b.liquidityBps
    ensures b.utilizationBps == 0 && b.liquidityBps >= 10000 ==> score == 0.0
  {
    Clamp01(b.utilizationBps as real / 10000.0 + (10000 - b.liquidityBps) as real / 10000.0)
  }

  /**
   * `shouldExecute`. Over integer basis points it needs no division and no
   * clamp: B's utilization plus its illiquidity must stay within 6000.
   */
  predicate ShouldExecute(a: Strategy, b: Strategy): (r: bool)
    ensures r <==>
      && b.apyBps - a.apyBps >= 200
      && b.liquidityBps >= 7000
      && b.utilizationBps + 10000 - b.liquidityBps <= 6000
      && b.enabled
  {
    RiskScaled(b);
    && ApyDeltaBps(a, b) >= ApyDeltaThresholdBps
    && b.liquidityBps >= LiquidityFloorBps
    && RiskScore(b) <= RiskCeiling
    && b.enabled
  }

  /** The rule the `decisionRule` text describes: the coded rule without the `enabled` test. */
  predicate TextRule(a: Strategy, b: Strategy): (r: bool)
  {
    && ApyDeltaBps(a, b) >= ApyDeltaThresholdBps
    && b.liquidityBps >= LiquidityFloorBps
    && RiskScore(b) <= RiskCeiling
  }

  /** The opportunity score scaled by 10000 is an integer clamp of 20 * apyDelta + liquidityDelta. */
  lemma OpportunityScaled(a: Strategy, b: Strategy)
    ensures OpportunityScore(a, b) * 10000.0
         == ClampInt(20 * ApyDeltaBps(a, b) + LiquidityDeltaBps(a, b), 0, 10000) as real
  {
    var raw := ApyDeltaBps(a, b) as real / 500.0 + LiquidityDeltaBps(a, b) as real / 10000.0;
    assert raw * 10000.0 == (20 * ApyDeltaBps(a, b) + LiquidityDeltaBps(a, b)) as real;
  }

  /** The risk score scaled by 10000 is an integer clamp of utilization + (10000 - liquidity). */
  lemma RiskScaled(b: Strategy)
    ensures RiskScore(b) * 10000.0 == ClampInt(b.utilizationBps + 10000 - b.liquidityBps, 0, 10000) as real
  {
    var raw := b.utilizationBps as real / 10000.0 + (10000 - b.liquidityBps) as real / 10000.0;
    assert raw * 10000.0 == (b.utilizationBps + 10000 - b.liquidityBps) as real;
  }

  /** Two identical strategies offer no opportunity, and the agent never switches between them. */
  lemma IdenticalStrategies(s: Strategy)
    ensures OpportunityScore(s, s) == 0.0
    ensures !ShouldExecute(s, s)
  {
  }

  lemma DisabledCandidateNeverExecutes(a: Strategy, b: Strategy)
    requires !b.enabled
    ensures !ShouldExecute(a, b)
  {
  }

  /** The candidate's risk does not depend on its APY, its name or its enabled flag. */
  lemma RiskIgnoresApy(b: Strategy, apyBps: int, name: string, enabled: bool)
    ensures RiskScore(b.(apyBps := apyBps, name := name, enabled := enabled)) == RiskScore(b)
  {
  }

  /** The baseline enters the decision only through its APY. */
  lemma BaselineOnlyThroughApy(a1: Strategy, a2: Strategy, b: Strategy)
    requires a1.apyBps == a2.apyBps
    ensures ShouldExecute(a1, b) == ShouldExecute(a2, b)
  {
  }

  /** Raising the candidate's APY, all else fixed, never withdraws a decision to execute. */
  lemma ExecuteMonotoneInCandidateApy(a: Strategy, b: Strategy, higherApy: int)
    requires ShouldExecute(a, b)
    requires higherApy >= b.apyBps
    ensures ShouldExecute(a, b.(apyBps := higherApy))
  {
    RiskIgnoresApy(b, higherApy, b.name, b.enabled);
  }

  /** The coded rule is exactly the documented rule plus the candidate's `enabled` flag. */
  lemma TextRuleOmitsEnabled(a: Strategy, b: Strategy)
    ensures ShouldExecute(a, b) <==> TextRule(a, b) && b.enabled
    ensures TextRule(a, b) && !b.enabled ==> !ShouldExecute(a, b)
  {
  }

  /** A disabled candidate that the logged text would switch to, but the agent does not. */
  lemma TextRuleDisagreesOnDisabledCandidate()
    ensures var a := Strategy("A", 400, 9000, 3000, true);
            var b := Strategy("B", 650, 8000, 3500, false);
            TextRule(a, b) && !ShouldExecute(a, b)
  {
    var b := Strategy("B", 650, 8000, 3500, false);
    RiskScaled(b);
  }

  /** The state-changing call the agent issues. */
  datatype VaultCall = SetActiveStrategy(strategyId: int)

  /**
   * What `vault.setActiveStrategy(2)` and `tx.wait()` produce: the sent
   * transaction's hash and the receipt's hash (None for a null receipt), or
   * the error either of them throws.
   */
  datatype ExecOutcome =
    | Executed(txHash: string, receiptHash: Option<string>)
    | ExecFailed(message: string)

  datatype DecisionLog = DecisionLog(
    timestamp: string,
    chainId: int,
    agent: string,
    strategyA: Strategy,
    strategyB: Strategy,
    apyDeltaBps: int,
    liquidityDeltaBps: int,
    opportunityScore: real,
    riskScoreB: real,
    decisionRule: string,
    executed: bool,
    txHash: Option<string>)

  /** The calls the run made and the log it writes. */
  datatype Run = Run(calls: seq<VaultCall>, log: DecisionLog)

  /** `rcpt?.hash || tx.hash`: the receipt's hash unless it is missing or empty. */
  function ExecutedHash(txHash: string, receiptHash: Option<string>): (h: string)
    ensures h == txHash || Some(h) == receiptHash
    ensures h == "" ==> txHash == ""
  {
    if receiptHash.Some? && receiptHash.value != "" then receiptHash.value else txHash
  }

  /**
   * One run of the agent. The outcome of the switch transaction is a
   * parameter and is consulted only when the rule says to execute; a failed
   * switch makes the run throw before any log is written.
   */
  function RunOnce(timestamp: string, chainId: int, agent: string,
                   rawA: RawStrategy, rawB: RawStrategy, exec: ExecOutcome): (r: Result<Run, string>)
    ensures r.Success? ==> r.value.log.executed == (r.value.calls != [])
    ensures r.Success? ==>
      && r.value.log.strategyA == ParseStrategy(rawA) && r.value.log.strategyB == ParseStrategy(rawB)
      && r.value.log.timestamp == timestamp && r.value.log.chainId == chainId && r.value.log.agent == agent
      && r.value.log.decisionRule == DecisionRuleText
    ensures r.Failure? ==> exec.ExecFailed? && r.error == exec.message
  {
    var a := ParseStrategy(rawA);
    var b := ParseStrategy(rawB);
    var execute := ShouldExecute(a, b);
    if execute && exec.ExecFailed? then
      Failure(exec.message)
    else
      var hash := if execute then ExecutedHash(exec.txHash, exec.receiptHash) else "";
      var calls := if execute then [SetActiveStrategy(TargetStrategyId)] else [];
      Success(Run(calls, DecisionLog(
        timestamp, chainId, agent, a, b,
        ApyDeltaBps(a, b), LiquidityDeltaBps(a, b),
        OpportunityScore(a, b), RiskScore(b),
        DecisionRuleText,
        execute,
        if hash == "" then None else Some(hash))))
  }

  /** The run issues setActiveStrategy(2) exactly when the rule holds, and no other call. */
  lemma RunCallsExactlyWhenRuleHolds(timestamp: string, chainId: int, agent: string,
                                     rawA: RawStrategy, rawB: RawStrategy, exec: ExecOutcome)
    requires RunOnce(timestamp, chainId, agent, rawA, rawB, exec).Success?
    ensures var run := RunOnce(timestamp, chainId, agent, rawA, rawB, exec).value;
            && (run.calls == [SetActiveStrategy(2)] <==> ShouldExecute(ParseStrategy(rawA), ParseStrategy(rawB)))
            && (run.calls == [] <==> !ShouldExecute(ParseStrategy(rawA), ParseStrategy(rawB)))
            && forall i :: 0 <= i < |run.calls| ==> run.calls[i].strategyId == 2
  {
  }

  /** A run fails only when it tried to switch and the switch transaction failed. */
  lemma RunFailsOnlyOnFailedSwitch(timestamp: string, chainId: int, agent: string,
                                   rawA: RawStrategy, rawB: RawStrategy, exec: ExecOutcome)
    ensures RunOnce(timestamp, chainId, agent, rawA, rawB, exec).Failure? <==>
            ShouldExecute(ParseStrategy(rawA), ParseStrategy(rawB)) && exec.ExecFailed?
  {
  }

  /** When the rule does not hold, the run neither depends on nor reports any transaction. */
  lemma HoldIgnoresExecution(timestamp: string, chainId: int, agent: string,
                             rawA: RawStrategy, rawB: RawStrategy, e1: ExecOutcome, e2: ExecOutcome)
    requires !ShouldExecute(ParseStrategy(rawA), ParseStrategy(rawB))
    ensures RunOnce(timestamp, chainId, agent, rawA, rawB, e1) == RunOnce(timestamp, chainId, agent, rawA, rawB, e2)
    ensures RunOnce(timestamp, chainId, agent, rawA, rawB, e1).Success?
  {
  }

  /**
   * The log's `executed` is the rule's verdict; `txHash` is null when nothing
   * was executed and is the executed transaction's hash otherwise (null only if
   * both the receipt's and the transaction's hashes are empty).
   */
  lemma LogRecordsDecision(timestamp: string, chainId: int, agent: string,
                           rawA: RawStrategy, rawB: RawStrategy, exec: ExecOutcome)
    requires RunOnce(timestamp, chainId, agent, rawA, rawB, exec).Success?
    ensures var log := RunOnce(timestamp, chainId, agent, rawA, rawB, exec).value.log;
            && log.executed == ShouldExecute(ParseStrategy(rawA), ParseStrategy(rawB))
            && (!log.executed ==> log.txHash == None)
            && (log.executed && exec.txHash != "" ==> log.txHash.Some?)
            && (log.txHash.Some? ==>
                  log.executed && log.txHash.value != "" &&
                  (log.txHash.value == exec.txHash || Some(log.txHash.value) == exec.receiptHash))
  {
  }

  /** The logged deltas and scores are computed from the fields the strategy manager returned. */
  lemma LogFieldsFromRawStrategies(timestamp: string, chainId: int, agent: string,
                                   rawA: RawStrategy, rawB: RawStrategy, exec: ExecOutcome)
    requires RunOnce(timestamp, chainId, agent, rawA, rawB, exec).Success?
    ensures var log := RunOnce(timestamp, chainId, agent, rawA, rawB, exec).value.log;
            && log.apyDeltaBps == rawB.apyBps - rawA.apyBps
            && log.liquidityDeltaBps == rawB.liquidityBps - rawA.liquidityBps
            && log.riskScoreB * 10000.0 == ClampInt(rawB.utilizationBps + 10000 - rawB.liquidityBps, 0, 10000) as real
            && log.opportunityScore * 10000.0 ==
                 ClampInt(20 * (rawB.apyBps - rawA.apyBps) + (rawB.liquidityBps - rawA.liquidityBps), 0, 10000) as real
            && 0.0 <= log.opportunityScore <= 1.0
            && log.strategyB.enabled == rawB.enabled
  {
    RiskScaled(ParseStrategy(rawB));
    OpportunityScaled(ParseStrategy(rawA), ParseStrategy(rawB));
  }
}
