/**
 * The vault page of the dashboard (app/pages/app.tsx): its pure helpers
 * (shortHash, pickReasonText, the supported/canTransact tests, the enable
 * rule of the Approve/Deposit/Withdraw buttons, the chain whose artifacts are
 * loaded, the chain a "switch network" click targets) and the page state
 * that connect, disconnect, refreshSnapshot and withTx update.
 *
 * Wallet, RPC and fetch results are parameters: each method is given the
 * outcome the awaited call would produce.
 */
module AppPage {
  import opened Wrappers
  import opened JsValues
  import Chain
  import Numerals
  import YieldScoring

  const Dash: string := "\U{2014}"
  const Ellipsis: string := "\U{2026}"

  /** `s.slice(0, n)` for n >= 0. */
  function SlicePrefix(s: string, n: nat): (r: string)
  {
    if |s| <= n then s else s[..n]
  }

  /** `s.slice(-n)` for n > 0. */
  function SliceSuffix(s: string, n: nat): (r: string)
  {
    if |s| <= n then s else s[|s| - n..]
  }

  /** shortHash: a dash for a missing or empty hash, else the first 10 characters, an ellipsis and the last 8. */
  function ShortHash(h: Option<string>): (r: string)
    ensures r == Dash <==> h.None? || h.value == ""
  {
    if h.None? || h.value == "" then Dash
    else SlicePrefix(h.value, 10) + Ellipsis + SliceSuffix(h.value, 8)
  }

  /**
   * A shortened hash starts with a prefix of the hash and ends with a suffix
   * of it; a hash of 18 or more characters becomes exactly 19 characters.
   */
  lemma ShortHashParts(h: string)
    requires h != ""
    ensures var r := ShortHash(Some(h));
      && var p := if |h| < 10 then |h| else 10;
         var q := if |h| < 8 then |h| else 8;
         && |r| == p + 1 + q
         && r[..p] == h[..p]
         && r[p] == '\U{2026}'
         && r[p + 1..] == h[|h| - q..]
    ensures |h| >= 18 ==> |ShortHash(Some(h))| == 19
  {
  }

  /** pickReasonText: the reason flags of a decision log as a list of strings. */
  function PickReasonText(flags: JsValue): (r: seq<string>)
    ensures !Truthy(flags) ==> r == []
    ensures flags.Arr? ==> |r| == |flags.elems|
  {
    if !Truthy(flags) then []
    else if flags.Arr? then
      seq(|flags.elems|, i requires 0 <= i < |flags.elems| => ToString(flags.elems[i]))
    else if flags.Obj? then Keys(flags.props)
    else [ToString(flags)]
  }

  /**
   * An array of flags is rendered element by element with String(), an object
   * gives its keys, and any other truthy value gives a one-element list.
   */
  lemma PickReasonTextCases(flags: JsValue)
    ensures var r := PickReasonText(flags);
      && (flags.Arr? ==> forall i :: 0 <= i < |r| ==> r[i] == ToString(flags.elems[i]))
      && (flags.Obj? ==> r == Keys(flags.props))
      && (Truthy(flags) && !flags.Arr? && !flags.Obj? ==> r == [ToString(flags)])
  {
  }

  /** Numeric flag codes survive the conversion: each listed string reads back as its code. */
  lemma NumericFlagsReadBack(flags: seq<JsValue>)
    requires forall i :: 0 <= i < |flags| ==> flags[i].Num?
    ensures var r := PickReasonText(Arr(flags));
      && |r| == |flags|
      && forall i :: 0 <= i < |flags| ==> Numerals.ParseDecimal(r[i]) == Some(flags[i].n)
  {
    var r := PickReasonText(Arr(flags));
    forall i | 0 <= i < |flags|
      ensures Numerals.ParseDecimal(r[i]) == Some(flags[i].n)
    {
      NumToStringRoundTrip(flags[i].n);
    }
  }

  /** String flags are listed as they are. */
  lemma StringFlagsUnchanged(flags: seq<string>)
    ensures PickReasonText(Arr(seq(|flags|, i requires 0 <= i < |flags| => Str(flags[i])))) == flags
  {
  }

  /** `supported`: the chain id is 97 or 5611. */
  predicate Supported(chainId: Option<int>): (r: bool)
    ensures r <==> chainId.Some? && chainId.value in Chain.Chains
  {
    chainId == Some(97) || chainId == Some(5611)
  }

  /** The page's supported test is the key set of CHAINS, and agrees with the yield page's. */
  lemma SupportedIsChainTable(chainId: Option<int>)
    ensures Supported(chainId) <==> chainId.Some? && chainId.value in Chain.Chains
    ensures Supported(chainId) <==> chainId.Some? && chainId.value in Chain.SupportedChainIds
    ensures Supported(chainId) == YieldScoring.Supported(chainId)
  {
  }

  /** `!!x` for an optional string. */
  predicate Present(s: Option<string>): (r: bool)
  {
    s.Some? && s.value != ""
  }

  /** `!!x` for an optional number. */
  predicate PresentId(n: Option<int>): (r: bool)
  {
    n.Some? && n.value != 0
  }

  /** `canTransact`: a provider, an account and a supported chain; it implies refreshSnapshot's guard. */
  predicate CanTransact(hasProvider: bool, address: Option<string>, chainId: Option<int>): (r: bool)
    ensures r ==> hasProvider && Present(address) && PresentId(chainId) && chainId.value in Chain.Chains
    ensures !hasProvider || !Present(address) ==> !r
  {
    hasProvider && Present(address) && Supported(chainId)
  }

  /** The vault panel's figures and which of its three buttons are enabled. */
  datatype ActionState = ActionState(balance: string, apy: string, canApprove: bool, canDeposit: bool, canWithdraw: bool)

  /**
   * `allowanceOk`: the snapshot's own flag if it has one, otherwise whether
   * its allowance is positive. `positive` is `Number(s) > 0` for a string s.
   */
  predicate AllowanceOk(snapshot: JsValue, positive: string -> bool): (r: bool)
    ensures !Nullish(Member(snapshot, "allowanceOk")) ==> r == Truthy(Member(snapshot, "allowanceOk"))
    ensures Nullish(Member(snapshot, "allowanceOk")) && !Nullish(Member(snapshot, "hasAllowance")) ==>
              r == Truthy(Member(snapshot, "hasAllowance"))
    ensures Nullish(Member(snapshot, "allowanceOk")) && Nullish(Member(snapshot, "hasAllowance")) ==>
              r == if Member(snapshot, "allowance").Str? then positive(Member(snapshot, "allowance").s)
                   else Truthy(Member(snapshot, "allowance"))
  {
    var allowance := Member(snapshot, "allowance");
    var fallback := if allowance.Str? then positive(allowance.s) else Truthy(allowance);
    Truthy(Coalesce(Member(snapshot, "allowanceOk"), Coalesce(Member(snapshot, "hasAllowance"), Bool(fallback))))
  }

  function FirstPresent(snapshot: JsValue, keys: seq<string>): (v: JsValue)
  {
    if keys == [] then Str(Dash) else Coalesce(Member(snapshot, keys[0]), FirstPresent(snapshot, keys[1..]))
  }

  /**
   * The `actions` memo. `hasAmount` is whether the typed amount is a positive
   * number (`Number(amount || "0") > 0`).
   */
  function Actions(snapshot: JsValue, hasAmount: bool, canTransact: bool, positive: string -> bool): (a: ActionState)
    ensures !(a.canApprove && a.canDeposit)
    ensures a.canApprove || a.canDeposit || a.canWithdraw ==> canTransact && hasAmount && Truthy(snapshot)
    ensures a.canWithdraw ==> a.canApprove || a.canDeposit
  {
    if !Truthy(snapshot) then ActionState(Dash, Dash, false, false, false)
    else
      var bal := FirstPresent(snapshot, ["musdcBalance", "balance", "walletBalance", "erc20Balance"]);
      var apy := FirstPresent(snapshot, ["apy", "vaultApy", "currentApy"]);
      var allowanceOk := AllowanceOk(snapshot, positive);
      ActionState(ToString(bal), ToString(apy),
        canTransact && hasAmount && !allowanceOk,
        canTransact && hasAmount && allowanceOk,
        canTransact && hasAmount)
  }

  /**
   * Without a snapshot nothing is enabled. Every button needs a transacting
   * wallet and a positive amount; Approve and Deposit are never both enabled,
   * and with a wallet and an amount exactly one of them is; Withdraw ignores
   * the allowance.
   */
  lemma ActionRules(snapshot: JsValue, hasAmount: bool, canTransact: bool, positive: string -> bool)
    ensures var a := Actions(snapshot, hasAmount, canTransact, positive);
      && (!Truthy(snapshot) ==> !a.canApprove && !a.canDeposit && !a.canWithdraw && a.balance == Dash && a.apy == Dash)
      && (a.canApprove || a.canDeposit || a.canWithdraw ==> canTransact && hasAmount && Truthy(snapshot))
      && !(a.canApprove && a.canDeposit)
      && (Truthy(snapshot) && canTransact && hasAmount ==> a.canApprove != a.canDeposit && a.canWithdraw)
      && (a.canDeposit ==> AllowanceOk(snapshot, positive))
      && (a.canWithdraw <==> Truthy(snapshot) && canTransact && hasAmount)
  {
  }

  /** A snapshot from readSnapshot has no allowance fields, so it always offers Approve rather than Deposit. */
  lemma NoAllowanceFieldsMeansApprove(props: seq<Prop>, hasAmount: bool, positive: string -> bool)
    requires forall i :: 0 <= i < |props| ==> props[i].key !in {"allowanceOk", "hasAllowance", "allowance"}
    ensures var a := Actions(Obj(props), hasAmount, true, positive);
      a.canApprove == hasAmount && !a.canDeposit
  {
    assert Member(Obj(props), "allowanceOk") == Undefined;
    assert Member(Obj(props), "hasAllowance") == Undefined;
    assert Member(Obj(props), "allowance") == Undefined;
  }

  /** The chain whose deployment artifacts are fetched: none for a missing or zero id, else the id if supported, else 97. */
  function ArtifactChainId(chainId: Option<int>): (r: Option<int>)
    ensures r.None? <==> !PresentId(chainId)
    ensures r.Some? ==> r.value in Chain.Chains
  {
    if !PresentId(chainId) then None
    else if chainId.value == 97 then Some(97)
    else if chainId.value == 5611 then Some(5611)
    else Some(97)
  }

  lemma ArtifactChainIdFallback(chainId: Option<int>)
    ensures var r := ArtifactChainId(chainId);
      && (r.None? <==> !PresentId(chainId))
      && (r.Some? ==> r.value in Chain.Chains)
      && (Supported(chainId) ==> r == chainId)
      && (PresentId(chainId) && !Supported(chainId) ==> r == Some(97))
  {
  }

  /** The chain a "switch network" click asks the wallet for (none without a chain id). */
  function SwitchTarget(chainId: Option<int>): (r: Option<int>)
    ensures r.None? <==> !PresentId(chainId)
    ensures r.Some? ==> r.value in Chain.Chains
    ensures r == ArtifactChainId(chainId)
  {
    if !PresentId(chainId) then None
    else if chainId.value == 97 || chainId.value == 5611 then Some(chainId.value)
    else Some(97)
  }

  /** The page only ever asks for a chain in CHAINS, so the "unsupported target" error cannot arise from it. */
  lemma SwitchTargetIsKnown(chainId: Option<int>, switchResult: Option<Chain.WalletError>, addResult: Option<Chain.WalletError>)
    requires SwitchTarget(chainId).Some?
    ensures SwitchTarget(chainId).value in Chain.Chains
    ensures Chain.SwitchToSupportedChain(true, SwitchTarget(chainId).value, switchResult, addResult).outcome
            != Failure(Chain.UnsupportedTarget)
  {
  }

  /** The state of the last transaction the page started. */
  datatype TxState =
    | TxIdle
    | TxPending(txLabel: string, hash: Option<string>)
    | TxSuccess(txLabel: string, hash: Option<string>)
    | TxError(txLabel: string, error: string, hash: Option<string>)

  /** What `tx.wait()` produces: a mined receipt with its status, or the error it throws. */
  datatype ReceiptOutcome = Mined(status: int) | WaitFailed(message: Option<string>)

  /** What sending the transaction produces: its hash and then its receipt, or the error sending throws. */
  datatype TxCall = Sent(txHash: string, receipt: ReceiptOutcome) | SendFailed(message: Option<string>)

  /** `e?.message ?? fallback`. */
  function ErrorOr(message: Option<string>, fallback: string): (text: string)
    ensures message.None? ==> text == fallback
    ensures message.Some? ==> text == message.value
  {
    if message.Some? then message.value else fallback
  }

  /** `e?.message ?? "Transaction error."`. */
  function ErrorText(message: Option<string>): (text: string)
  {
    ErrorOr(message, "Transaction error.")
  }

  const ReceiptFailedText: string := "Transaction failed."

  /** Every state withTx shows, in order, for one transaction. */
  function TxSteps(txName: string, call: TxCall): (steps: seq<TxState>)
    ensures 2 <= |steps| <= 3
    ensures steps[|steps| - 1].TxSuccess? || steps[|steps| - 1].TxError?
    ensures |steps| == 3 <==> call.Sent?
  {
    var start := [TxPending(txName, None)];
    match call
    case SendFailed(m) => start + [TxError(txName, ErrorText(m), None)]
    case Sent(h, WaitFailed(m)) => start + [TxPending(txName, Some(h)), TxError(txName, ErrorText(m), None)]
    case Sent(h, Mined(status)) =>
      start + [TxPending(txName, Some(h)),
               if status == 1 then TxSuccess(txName, Some(h)) else TxError(txName, ReceiptFailedText, None)]
  }

  /**
   * withTx first shows the pending label, then the hash once the transaction
   * is sent; it ends in success (with the hash) exactly when the receipt
   * status is 1, and otherwise in an error without a hash.
   */
  lemma TxStepsLifecycle(txName: string, call: TxCall)
    ensures var steps := TxSteps(txName, call);
            var last := steps[|steps| - 1];
      && steps[0] == TxPending(txName, None)
      && (forall i :: 0 <= i < |steps| - 1 ==> steps[i].TxPending? && steps[i].txLabel == txName)
      && (last.TxSuccess? <==> call.Sent? && call.receipt == Mined(1))
      && (last.TxSuccess? ==> last == TxSuccess(txName, Some(call.txHash)))
      && (!last.TxSuccess? ==> last.TxError? && last.txLabel == txName && last.hash == None)
      && (call.Sent? ==> steps[1] == TxPending(txName, Some(call.txHash)))
      && (call.Sent? && call.receipt.Mined? && call.receipt.status != 1 ==> last.error == ReceiptFailedText)
  {
  }

  const ReadFailedText: string := "Failed to read onchain snapshot."

  /**
   * The snapshot and snapshot error a refresh leaves: the snapshot read, or
   * no snapshot and the read's error message (a fixed text when it has none).
   */
  function AfterRead(read: Result<JsValue, Option<string>>): (r: (JsValue, Option<string>))
    ensures r.1.None? <==> read.Success?
    ensures read.Success? ==> r.0 == read.value
    ensures read.Failure? ==> r.0 == Null && r.1 == Some(ErrorOr(read.error, ReadFailedText))
  {
    match read
    case Success(s) => (s, None)
    case Failure(m) => (Null, Some(ErrorOr(m, ReadFailedText)))
  }

  /** The page's wallet connection, snapshot and transaction state. */
  class Session {
    var hasProvider: bool
    var address: Option<string>
    var chainId: Option<int>
    var snapshot: JsValue
    var snapError: Option<string>
    var tx: TxState
    /** Every transaction state the page has shown, oldest first; the last is `tx`. */
    ghost var txShown: seq<TxState>

    constructor ()
      ensures !hasProvider && address == None && chainId == None
      ensures snapshot == Null && snapError == None && tx == TxIdle && txShown == [TxIdle]
    {
      hasProvider := false;
      address := None;
      chainId := None;
      snapshot := Null;
      snapError := None;
      tx := TxIdle;
      txShown := [tx];
    }

    function CanTransactNow(): (r: bool)
      reads this
    {
      CanTransact(hasProvider, address, chainId)
    }

    /** The guard of refreshSnapshot: a provider, an account and a chain id are all present. */
    predicate CanRead(): (r: bool)
      reads this
    {
      hasProvider && Present(address) && PresentId(chainId)
    }

    /** A wallet connected through the modal, with the account and network it reports. */
    method Connect(account: string, network: int)
      modifies this
      ensures hasProvider && address == Some(account) && chainId == Some(network)
      ensures snapshot == old(snapshot) && snapError == old(snapError)
      ensures tx == old(tx) && txShown == old(txShown)
    {
      hasProvider := true;
      address := Some(account);
      chainId := Some(network);
    }

    /** The wallet's chainChanged event. */
    method OnChainChanged(network: int)
      modifies this`chainId
      ensures chainId == Some(network)
    {
      chainId := Some(network);
    }

    /** The wallet's accountsChanged event: the first account, or none for an empty list. */
    method OnAccountsChanged(accounts: seq<string>)
      modifies this`address
      ensures address == if accounts == [] then None else Some(accounts[0])
    {
      if accounts == [] {
        address := None;
      } else {
        address := Some(accounts[0]);
      }
    }

    /** disconnect: forget the wallet and the snapshot, and reset the transaction state. */
    method Disconnect()
      modifies this
      ensures !hasProvider && address == None && chainId == None && snapshot == Null
      ensures tx == TxIdle && txShown == old(txShown) + [TxIdle]
      ensures txShown[|txShown| - 1] == tx
      ensures snapError == old(snapError)
      ensures !CanTransactNow()
    {
      hasProvider := false;
      address := None;
      chainId := None;
      snapshot := Null;
      tx := TxIdle;
      txShown := txShown + [tx];
    }

    /**
     * refreshSnapshot with the result of readSnapshot (its error message, if
     * any, on failure). Nothing happens without a provider, an account and a
     * chain id.
     */
    method RefreshSnapshot(read: Result<JsValue, Option<string>>)
      modifies this`snapshot, this`snapError
      ensures !CanRead() ==> snapshot == old(snapshot) && snapError == old(snapError)
      ensures CanRead() ==> (snapshot, snapError) == AfterRead(read)
    {
      if !(hasProvider && Present(address) && PresentId(chainId)) {
        return;
      }
      snapError := None;
      match read {
        case Success(s) =>
          snapshot := s;
        case Failure(m) =>
          snapError := Some(ErrorOr(m, ReadFailedText));
          snapshot := Null;
      }
    }

    /**
     * withTx for one transaction. The states shown are exactly TxSteps; only
     * a successful transaction refreshes the snapshot (with `read`).
     */
    method WithTx(txName: string, call: TxCall, read: Result<JsValue, Option<string>>)
      modifies this
      ensures txShown == old(txShown) + TxSteps(txName, call)
      ensures tx == TxSteps(txName, call)[|TxSteps(txName, call)| - 1]
      ensures txShown[|txShown| - 1] == tx
      ensures hasProvider == old(hasProvider) && address == old(address) && chainId == old(chainId)
      ensures !(tx.TxSuccess? && CanRead()) ==> snapshot == old(snapshot) && snapError == old(snapError)
      ensures tx.TxSuccess? && CanRead() ==> (snapshot, snapError) == AfterRead(read)
    {
      tx := TxPending(txName, None);
      txShown := txShown + [tx];
      match call {
        case SendFailed(m) =>
          tx := TxError(txName, ErrorText(m), None);
          txShown := txShown + [tx];
        case Sent(h, receipt) =>
          tx := TxPending(txName, Some(h));
          txShown := txShown + [tx];
          match receipt {
            case WaitFailed(m) =>
              tx := TxError(txName, ErrorText(m), None);
              txShown := txShown + [tx];
            case Mined(status) =>
              if status != 1 {
                tx := TxError(txName, ReceiptFailedText, None);
                txShown := txShown + [tx];
              } else {
                tx := TxSuccess(txName, Some(h));
                txShown := txShown + [tx];
                RefreshSnapshot(read);
              }
          }
      }
    }
  }
}
