# real-yield-ai decision logic in Dafny

This project models the decision logic of the real-yield-ai dashboard and agent, then proves properties of that model. The logic comes from four places:

- **The one-shot agent** (`contracts/scripts/runAgentOnce.ts`). It reads two strategies from the strategy manager: strategy 1 (A, the baseline) and strategy 2 (B, the candidate). It derives an APY delta, a liquidity delta, an opportunity score and B's risk score. It switches the vault to strategy 2 when a four-condition rule holds. It then writes a decision log. Module `AgentRule`.
- **The yield dashboard** (`app/pages/yield.tsx`). It gives each strategy row three whole-percent scores. It picks the best row, which is the head of a stable sort on a copy of the rows. From that row it derives a recommendation and a risk tone. Module `YieldScoring`.
- **The vault page** (`app/pages/app.tsx`). This covers:
  - its pure helpers: `shortHash`, `pickReasonText`, `supported`/`canTransact`, the Approve/Deposit/Withdraw enable rule, the artifact chain and the switch target;
  - the page state that connect, disconnect, snapshot refresh and `withTx` update. This state is a class, `AppPage.Session`, whose `txShown` ghost field records every transaction state the page shows, starting from the idle state it loads with; its last entry is always the current `tx`.

  Module `AppPage`.
- **The chain table** (`app/lib/chain.ts`). This is the `CHAINS` table, `chainName`, `explorerBase` and the guard order of `switchToSupportedChain`. Module `Chain`.

Two support modules model JavaScript's own operations:

- `JsValues` covers untyped values, truthiness, `??`, `?.`, `String()`, `Object.keys` and `Number()`.
- `Numerals` covers decimal rendering and ethers' `hexValue`, with parse-back round trips.

Scores are exact reals, not binary floating point. Any result that comes from outside the program is a parameter of the model: a wallet response, a receipt, a fetched snapshot, or the parsing of a string into a number.

The agent writes fewer log fields than the vault page reads. The page's `DecisionLog` type (`app/pages/app.tsx:27-38`) declares `activeStrategy`, `recommendation`, `confidenceScore`, `reasonFlags`, `txHashes` and `notes`. The log that `runAgentOnce.ts` builds (lines 66-80) has none of these. It records the timestamp, chain id, agent, both strategies, the two deltas, both scores, the rule text, `executed` and `txHash`. The rule itself is a 200 bps APY delta, a 7000 bps liquidity floor, a 0.6 risk ceiling and B's `enabled` flag. The agent never reads the vault's active strategy, and each run overwrites both copies of its chain's log, one under `deployments/` and one under `app/public/deployments/` (lines 82-85). The log's `decisionRule` text leaves out the `enabled` test that the code applies. `AgentRule.TextRuleOmitsEnabled` states the exact difference, and `AgentRule.TextRuleDisagreesOnDisabledCandidate` gives an input on which the two differ.

## Model

| member | source | states |
|---|---|---|
| AgentRule.ParseStrategy | contracts/scripts/runAgentOnce.ts:19-27 | each strategy field becomes a plain non-negative number with the manager's value; name and `enabled` are kept |
| AgentRule.Clamp01 | contracts/scripts/runAgentOnce.ts:13-17 | the result lies in [0,1]; it is 0 below 0, 1 above 1, and the argument itself inside [0,1] |
| AgentRule.OpportunityScore | contracts/scripts/runAgentOnce.ts:47 | the score lies in [0,1]; it is 0 when B gains neither APY nor liquidity, and 1 exactly when 20·apyDelta + liquidityDelta ≥ 10000 |
| AgentRule.RiskScore | contracts/scripts/runAgentOnce.ts:48 | the score lies in [0,1]; it is 1 exactly when B's utilization reaches its liquidity, and 0 for an unused, fully liquid B |
| AgentRule.OpportunityScaled | contracts/scripts/runAgentOnce.ts:45-47 | opportunity × 10000 equals clamp(20·apyDelta + liquidityDelta, 0, 10000), where the deltas are B minus A |
| AgentRule.RiskScaled | contracts/scripts/runAgentOnce.ts:48 | risk × 10000 equals clamp(util_B + 10000 − liq_B, 0, 10000) |
| AgentRule.ShouldExecute | contracts/scripts/runAgentOnce.ts:50-54 | execute iff apyDelta ≥ 200 ∧ liq_B ≥ 7000 ∧ util_B + 10000 − liq_B ≤ 6000 ∧ B enabled, in integer basis points |
| AgentRule.IdenticalStrategies | contracts/scripts/runAgentOnce.ts:45-54 | two identical strategies give opportunity 0 and never trigger a switch |
| AgentRule.DisabledCandidateNeverExecutes | contracts/scripts/runAgentOnce.ts:50-54 | a disabled B never triggers execution |
| AgentRule.RiskIgnoresApy | contracts/scripts/runAgentOnce.ts:48 | B's risk does not change with B's APY, name or enabled flag, and A does not enter it |
| AgentRule.BaselineOnlyThroughApy | contracts/scripts/runAgentOnce.ts:45-54 | two baselines with the same APY give the same decision |
| AgentRule.ExecuteMonotoneInCandidateApy | contracts/scripts/runAgentOnce.ts:45-54 | raising B's APY, all else fixed, keeps an execute decision |
| AgentRule.TextRuleOmitsEnabled | contracts/scripts/runAgentOnce.ts:50-77 | the coded rule equals the logged `decisionRule` text's rule plus B's enabled flag |
| AgentRule.TextRuleDisagreesOnDisabledCandidate | contracts/scripts/runAgentOnce.ts:50-77 | a disabled B with APY 650 / liquidity 8000 / utilization 3500 against A's APY 400 satisfies the text's rule but is not executed |
| AgentRule.ExecutedHash | contracts/scripts/runAgentOnce.ts:60 | the recorded hash is the receipt's or the transaction's, and is empty only when the transaction's hash is |
| AgentRule.RunOnce | contracts/scripts/runAgentOnce.ts:42-80 | a completed run's `executed` says whether a call was issued; the log carries the parsed strategies, the given timestamp, chain id and agent, and the rule text; a failed run carries the switch's error message |
| AgentRule.RunCallsExactlyWhenRuleHolds | contracts/scripts/runAgentOnce.ts:56-64 | a completed run issues `setActiveStrategy(2)` exactly when the rule holds, issues nothing otherwise, and never targets any other strategy |
| AgentRule.RunFailsOnlyOnFailedSwitch | contracts/scripts/runAgentOnce.ts:56-64 | the run throws (and writes no log) iff it tried to switch and the switch transaction failed |
| AgentRule.HoldIgnoresExecution | contracts/scripts/runAgentOnce.ts:56-80 | when the rule does not hold, the run succeeds and its result does not depend on any transaction outcome |
| AgentRule.LogRecordsDecision | contracts/scripts/runAgentOnce.ts:56-80 | `executed` equals the rule; `txHash` is null when nothing was executed; otherwise it is the receipt's or the transaction's non-empty hash |
| AgentRule.LogFieldsFromRawStrategies | contracts/scripts/runAgentOnce.ts:42-75 | the logged deltas are B's raw fields minus A's; the logged risk and opportunity, times 10000, are the integer clamps of B's raw fields and of 20·apyDelta + liquidityDelta; the opportunity lies in [0,1] |
| YieldScoring.Clamp01 | app/pages/yield.tsx:27-29 | `max(0, min(1, x))` lies in [0,1] and is the identity on [0,1] |
| YieldScoring.Round | app/pages/yield.tsx:42-44 | `Math.round` gives the integer within (x − ½, x + ½] |
| YieldScoring.ScoreStrategy | app/pages/yield.tsx:31-46 | each of the three scores is an integer in [0,100], for any value of log10 |
| YieldScoring.RiskMonotoneInVolatility | app/pages/yield.tsx:33-38 | more volatility, all else fixed, never lowers the risk score |
| YieldScoring.RiskMonotoneInUtilization | app/pages/yield.tsx:33-38 | higher utilization, all else fixed, never lowers the risk score |
| YieldScoring.OpportunityMonotoneInApy | app/pages/yield.tsx:32-37 | a higher APY, all else fixed, never lowers the opportunity score |
| YieldScoring.ScoreAll | app/pages/yield.tsx:128-130 | `scored` keeps every row, in order, and gives it scores in [0,100] |
| YieldScoring.BestIndexIsFirstMaximum | app/pages/yield.tsx:132-140 | the chosen index is a row that no row outranks by (composite, confidence), and that strictly outranks every earlier row |
| YieldScoring.FirstMaximumUnique | app/pages/yield.tsx:134-139 | only one index has that property, so it is the head of the stable sort of the copy |
| YieldScoring.Best | app/pages/yield.tsx:132-140 | `best` is null iff there are no rows, and is otherwise one of the scored rows |
| YieldScoring.BestIsFirstMaximum | app/pages/yield.tsx:132-140 | `best` is null iff there are no rows; otherwise it is a row of `scored` with maximal opportunity − risk; ties on that go to the higher confidence, and full ties to the earliest row |
| YieldScoring.RiskTone | app/pages/yield.tsx:164-169 | the tone is info iff there is no best row, and otherwise it is the per-row risk badge (line 365) of the best row |
| YieldScoring.RiskToneBands | app/pages/yield.tsx:164-169 | with a best row: bad iff risk ≥ 70, warn iff 50 ≤ risk < 70, good iff risk < 50 |
| YieldScoring.ActiveIdDefaultsToOne | app/pages/yield.tsx:143 | without a snapshot the active strategy id is 1 |
| YieldScoring.Recommend | app/pages/yield.tsx:142-162 | "no strategy data" iff there is no best row; a switch names the best row's label with margin ≥ 10 and confidence ≥ 55; a hold reports the best row's confidence |
| YieldScoring.RecommendationPrecedence | app/pages/yield.tsx:142-162 | no best gives "—"; then an unsupported chain wins even over a switch; then a missing snapshot; then switch iff `shouldSwitch` |
| YieldScoring.ShouldSwitch | app/pages/yield.tsx:146 | never true for the active strategy; when true, the best row's opportunity exceeds its risk by at least 10 and its confidence is at least 55 |
| YieldScoring.SwitchAdvice | app/pages/yield.tsx:146-157 | a switch is advised only to a row other than the active one, with margin ≥ 10, confidence ≥ 55, and that row's label in the title |
| YieldScoring.NoSwitchToActive | app/pages/yield.tsx:143-146 | when the best row is the active strategy the page never advises a switch |
| YieldScoring.FallbackStrategies | app/pages/yield.tsx:121-125 | three rows with ids 1, 2, 3, each labelled "Strategy " and its id, and row 2 has the highest APY |
| YieldScoring.FallbackApyDefault | app/pages/yield.tsx:122-124 | without a snapshot the fallback rows are built around APY 6 |
| YieldScoring.NumberField | app/pages/yield.tsx:114-116 | `Number(r[key] ?? r[alias] ?? 0)` is 0 when both keys are missing |
| YieldScoring.RowApy | app/pages/yield.tsx:113 | a present `apy` is used as it is; otherwise a non-zero numeric `apyBps` is divided by 100; otherwise `apyPercent`, or 0 |
| YieldScoring.RowId | app/pages/yield.tsx:112 | without `id` and `strategyId` the id is the element's position |
| YieldScoring.ParseRow | app/pages/yield.tsx:111-118 | the conversion succeeds exactly for a non-null element whose id is a whole number and whose APY, TVL, utilization and volatility are not NaN; a converted row's id is its position when `id` and `strategyId` are missing, and a numeric `id` is kept; its APY is `RowApy`; TVL, utilization and volatility are the `NumberField`s of their key pairs; its label is `String(label)`, else `String(name)`, else "Strategy " with the id (or the position when `id` is missing) |
| YieldScoring.ParseRowOfEmptyObject | app/pages/yield.tsx:111-118 | `{}` at position i becomes the row (i, 0, 0, 0, 0, "Strategy i") |
| YieldScoring.Strategies | app/pages/yield.tsx:108-126 | the page always has at least one strategy row |
| YieldScoring.StrategiesShape | app/pages/yield.tsx:108-126 | a non-empty strategy array gives one converted row per element, in order, and fails exactly when one element does; anything else gives exactly rows 1, 2, 3 with APY base, base+3, base−1 (failing only for a NaN base) |
| YieldScoring.PositionalIdMatchesDefaultActive | app/pages/yield.tsx:111-143 | with no active-strategy field, the second element of the array, if it has no id, gets id 1, which is the default active id, so the page treats it as the active strategy |
| YieldScoring.NoSnapshotHasBest | app/pages/yield.tsx:108-140 | with no snapshot the page has rows (the fallback rows) and so a best row |
| Chain.SupportedIdsAreTableKeys | app/lib/chain.ts:3-20 | `SUPPORTED_CHAIN_IDS` is exactly the key set of `CHAINS`, without repeats |
| Chain.TableHexIds | app/lib/chain.ts:3-18 | each entry's `chainIdHex` reads back as that entry's own chain id |
| Chain.ChainName | app/lib/chain.ts:22-27 | the name is "Unknown" iff the id is missing or 0; a supported id gets its table entry's name |
| Chain.ExplorerBase | app/lib/chain.ts:29-31 | the opBNB explorer iff the id is 5611; otherwise the BSC explorer |
| Chain.NameAndExplorerAgreeWithTable | app/lib/chain.ts:3-31 | for a supported id, `chainName` is the entry's name and `explorerBase` is its first explorer URL |
| Chain.ExplorerDefaultsToBsc | app/lib/chain.ts:29-31 | every input other than 5611, including none, gets the BSC explorer |
| Chain.UnsupportedNameShowsId | app/lib/chain.ts:22-27 | a non-zero unsupported id n is named `Unsupported (n)`, and n reads back from the name; the name is longer than "Unknown" and both table names, so it is none of them |
| Chain.ChainNamesDistinguishUnsupported | app/lib/chain.ts:22-27 | distinct unsupported ids get distinct names |
| Chain.SwitchToSupportedChain | app/lib/chain.ts:33-62 | at most two wallet requests; success needs a wallet and a known target, and starts with a switch to the target's hex id; any add request carries the target's table entry |
| Chain.SwitchGuardsPrecedence | app/lib/chain.ts:33-38 | a missing wallet fails first, with "No wallet provider detected."; then an unknown target, with "Unsupported target chain."; neither issues a wallet request |
| Chain.SwitchRequestsForKnownTarget | app/lib/chain.ts:37-62 | the switch request carries the target's hex id; the chain is added (with its table entry) only after error 4902; other errors are rethrown unchanged |
| Numerals.HexValue | app/lib/chain.ts:5 | ethers' `hexValue` starts with "0x" and has at least one digit |
| Numerals.HexRoundTrip | app/lib/chain.ts:5-12 | `hexValue(n)` reads back as n |
| AppPage.ShortHash | app/pages/app.tsx:57-60 | the result is "—" exactly for an undefined or empty hash |
| AppPage.ShortHashParts | app/pages/app.tsx:57-60 | otherwise it is up to 10 leading characters, "…", and up to 8 trailing characters of the hash (19 characters for hashes of 18 or more) |
| AppPage.PickReasonText | app/pages/app.tsx:62-67 | falsy input gives `[]`; an array gives one string per element |
| AppPage.PickReasonTextCases | app/pages/app.tsx:62-67 | array elements go through `String`; an object gives its keys; any other truthy value gives a one-element list |
| AppPage.NumericFlagsReadBack | app/pages/app.tsx:62-67 | numeric flag codes come out as strings that parse back to the same codes |
| AppPage.StringFlagsUnchanged | app/pages/app.tsx:64 | an array of string flags is returned unchanged |
| AppPage.Supported | app/pages/app.tsx:87 | `supported` holds iff the chain id is a key of `CHAINS` |
| AppPage.CanTransact | app/pages/app.tsx:91 | `canTransact` needs a provider and an account, and implies a present chain id that is a key of `CHAINS` (so refreshSnapshot's guard holds) |
| AppPage.AllowanceOk | app/pages/app.tsx:212-215 | the snapshot's `allowanceOk` decides when present, else `hasAllowance`, else a string allowance that reads as positive, else the truthiness of `allowance` |
| AppPage.SupportedIsChainTable | app/pages/app.tsx:87 | `supported` holds iff the chain id is a key of `CHAINS`, and it agrees with the yield page's test |
| AppPage.Actions | app/pages/app.tsx:198-226 | Approve and Deposit are never both enabled; any enabled button needs a snapshot, `canTransact` and an amount; Withdraw comes with exactly one of the other two |
| AppPage.ActionRules | app/pages/app.tsx:198-226 | with no snapshot nothing is enabled; each flag needs `canTransact` and an amount; Approve and Deposit are never both on, and exactly one is on when both conditions hold; Withdraw ignores the allowance |
| AppPage.NoAllowanceFieldsMeansApprove | app/pages/app.tsx:212-223 | a snapshot without allowance fields offers Approve and never Deposit |
| AppPage.ArtifactChainId | app/pages/app.tsx:133-136 | no chain is loaded iff the id is missing or 0; a loaded chain is a key of `CHAINS` |
| AppPage.ArtifactChainIdFallback | app/pages/app.tsx:133-136 | an undefined or zero id loads nothing; 97 and 5611 map to themselves; every other id maps to 97 |
| AppPage.SwitchTarget | app/pages/app.tsx:228-231 | no switch iff the id is missing or 0; the target is a key of `CHAINS`, and is the same chain whose artifacts are loaded |
| AppPage.SwitchTargetIsKnown | app/pages/app.tsx:228-231 | the switch-network target is always in `CHAINS`, so the "Unsupported target chain" error cannot come from the page |
| AppPage.TxSteps | app/pages/app.tsx:184-196 | `withTx` shows two states, or three when the transaction was sent, and the last one is success or error |
| AppPage.TxStepsLifecycle | app/pages/app.tsx:184-196 | `withTx` shows pending(label), then pending(label, hash) once sent; it ends in success(label, hash) iff the receipt status is 1, else in error(label, message) without a hash |
| AppPage.Session.constructor | app/pages/app.tsx:70-80 | the page starts with no provider, address, chain or snapshot, and with the idle transaction state as the only state shown so far |
| AppPage.Session.Connect | app/pages/app.tsx:93-105 | connecting stores the provider, the account and the network, and nothing else changes |
| AppPage.Session.OnChainChanged | app/pages/app.tsx:107-110 | a chain change replaces the chain id |
| AppPage.Session.OnAccountsChanged | app/pages/app.tsx:112-114 | an account change stores the first account, or none for an empty list |
| AppPage.Session.Disconnect | app/pages/app.tsx:117-122 | disconnect clears the provider, address, chain id and snapshot, and resets `tx` to idle, so nothing can transact |
| AppPage.Session.RefreshSnapshot | app/pages/app.tsx:158-173 | without a provider, account and chain nothing changes; otherwise snapshot and error become `AfterRead`: the value read and no error, or no snapshot and the read's message (or "Failed to read onchain snapshot.") |
| AppPage.Session.WithTx | app/pages/app.tsx:184-196 | the states shown are exactly `TxSteps`, the connection is untouched; after a success with a provider, account and chain the snapshot and error are `AfterRead` of the read, and otherwise they are unchanged |
| AppPage.AfterRead | app/pages/app.tsx:162-170 | a successful read stores its value with no error; a failed read clears the snapshot and stores the message, or the fixed text when there is none |

## Left out

- Floating point. All scores are exact reals, and the source computes in IEEE doubles. At the boundary the two can differ: for utilization 4000 and liquidity 8000, the script computes 0.4 + 0.2 as slightly more than 0.6 and does not execute. The model, and the contract of `AgentRule.ShouldExecute`, say it executes. `Math.round` and the yield weights are likewise taken as exact.
- AgentRule.ParseStrategy: `Number()` of a 256-bit integer is taken as exact. The script loses precision above 2^53.
- The agent's I/O is left out: signer lookup, the missing-deployment-file check (`runAgentOnce.ts:34-36`), contract lookup, console output and the two file writes (`runAgentOnce.ts:82-85`). The timestamp, chain id and agent address are parameters.
- `Number(string)` conversions are parameters rather than models of JavaScript's string-to-number grammar. These are:
  - `parse` for the active strategy id and the fallback APY;
  - `positive` for a string allowance;
  - `hasAmount` for the typed amount;
  - `parse` inside the conversion of a snapshot strategy element, for fields that hold strings.
- NaN is left out. Where the page would carry a NaN on, the model stops with None instead. This covers a NaN fallback APY and a snapshot strategy element with a NaN field. YieldScoring.ParseRow also gives None for an element whose id is not a whole number, and for a null or undefined element, on which the page throws.
- `Math.log10` in `scoreStrategy` is the parameter `log10`.
- JsValues.ToString: numbers inside untyped values are unbounded integers, and `String()` writes every one in plain decimal. JavaScript numbers are exact only up to 2^53, and `String()` switches to exponent form from 1e21. So AppPage.NumericFlagsReadBack and Chain.UnsupportedNameShowsId hold in JavaScript only for codes and chain ids of magnitude below 2^53.
- JavaScript numbers inside untyped values are integers. Fractional values, NaN and Infinity are left out, and so is the special key order of `Object.keys` for integer-like keys. Member access on a non-object gives undefined, so prototype properties of primitives are left out.
- The recommendation's detail sentences are left out, because they depend on `toFixed`. So is `assistantSnapshot`, which only regroups values for display.
- All rendering is left out: React components, hooks' scheduling, toasts and spinners. So are the `snapLoading` flag, the listener registration in `connect`, web3modal's cached-provider clearing in `disconnect` (its errors are ignored) and the four `fetch` calls of `loadArtifacts`. Only the choice of artifact chain is modelled.
- Concurrency is left out. Each modelled method runs to completion. Interleavings of overlapping `withTx` and refresh calls, which React's async callbacks allow, are not modelled.
- The yield page's own `connect`, `refresh` and `doSwitchNetwork` are not modelled. They follow the vault page's `connect`, `refreshSnapshot` and `doSwitchNetwork`, which are modelled, with one difference: the yield page's `refresh` (`yield.tsx:84-97`) stores a failed read's message in its own error state, and its fallback text is "Failed to read onchain state.", not the vault page's "Failed to read onchain snapshot." that `AppPage.AfterRead` models.
- The Solidity contracts, the Hardhat deployment scripts, the assistant and autonomous-action API routes and the UI components are not part of this model.
