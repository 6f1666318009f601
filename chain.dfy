/**
 * Chain metadata of app/lib/chain.ts: the table of the two supported test
 * networks, the display name and explorer of a chain id, and the guard
 * sequence of switchToSupportedChain. The injected wallet is abstract: the
 * caller says whether one is present and how each wallet request ends.
 */
module Chain {
  import opened Wrappers
  import Numerals

  datatype NativeCurrency = NativeCurrency(name: string, symbol: string, decimals: nat)

  /** One entry of CHAINS, in the shape `wallet_addEthereumChain` expects. */
  datatype ChainConfig = ChainConfig(
    chainIdHex: string,
    chainName: string,
    rpcUrls: seq<string>,
    blockExplorerUrls: seq<string>,
    nativeCurrency: NativeCurrency)

  const BscTestnetId: int := 97
  const OpBnbTestnetId: int := 5611
  const BscScanUrl: string := "https://testnet.bscscan.com"
  const OpBnbScanUrl: string := "https://testnet.opbnbscan.com"
  const TestBnb: NativeCurrency := NativeCurrency("tBNB", "tBNB", 18)

  const Chains: map<int, ChainConfig> := map[
    BscTestnetId := ChainConfig(
      Numerals.HexValue(97), "BSC Testnet",
      ["https://data-seed-prebsc-1-s1.bnbchain.org:8545"], [BscScanUrl], TestBnb),
    OpBnbTestnetId := ChainConfig(
      Numerals.HexValue(5611), "opBNB Testnet",
      ["https://opbnb-testnet-rpc.bnbchain.org"], [OpBnbScanUrl], TestBnb)]

  const SupportedChainIds: seq<int> := [97, 5611]

  /** SUPPORTED_CHAIN_IDS lists exactly the keys of CHAINS, each once. */
  lemma SupportedIdsAreTableKeys()
    ensures forall id :: id in SupportedChainIds <==> id in Chains
    ensures |SupportedChainIds| == |Chains.Keys|
  {
    assert Chains.Keys == {97, 5611};
  }

  /** Every table entry carries its own chain id, in the hex form a wallet reads back. */
  lemma TableHexIds()
    ensures forall id :: id in Chains ==> id >= 0 && Numerals.ParseHex(Chains[id].chainIdHex) == Some(id)
  {
    Numerals.HexRoundTrip(97);
    Numerals.HexRoundTrip(5611);
  }

  /** chainName: "Unknown" for a missing or zero id, the table's name for a supported id, else "Unsupported (n)". */
  function ChainName(chainId: Option<int>): (name: string)
    ensures name == "Unknown" <==> chainId.None? || chainId.value == 0
    ensures chainId.Some? && chainId.value in Chains ==> name == Chains[chainId.value].chainName
  {
    if chainId.None? || chainId.value == 0 then "Unknown"
    else if chainId.value == 97 then "BSC Testnet"
    else if chainId.value == 5611 then "opBNB Testnet"
    else "Unsupported (" + Numerals.IntToDecimal(chainId.value) + ")"
  }

  /** explorerBase: the opBNB explorer for 5611 and the BSC explorer for everything else. */
  function ExplorerBase(chainId: Option<int>): (url: string)
    ensures url == Chains[5611].blockExplorerUrls[0] <==> chainId == Some(5611)
    ensures url == Chains[5611].blockExplorerUrls[0] || url == Chains[97].blockExplorerUrls[0]
  {
    if chainId == Some(5611) then OpBnbScanUrl else BscScanUrl
  }

  /** The name and explorer of a supported chain are those of its CHAINS entry. */
  lemma NameAndExplorerAgreeWithTable(id: int)
    requires id in Chains
    ensures ChainName(Some(id)) == Chains[id].chainName
    ensures |Chains[id].blockExplorerUrls| > 0 && ExplorerBase(Some(id)) == Chains[id].blockExplorerUrls[0]
  {
  }

  lemma ExplorerDefaultsToBsc(chainId: Option<int>)
    requires chainId != Some(5611)
    ensures ExplorerBase(chainId) == Chains[97].blockExplorerUrls[0]
  {
  }

  /** The id shown inside an "Unsupported (n)" name, if the text has that shape. */
  function UnsupportedId(name: string): (id: Option<int>)
  {
    var prefix := "Unsupported (";
    if |name| > |prefix| + 1 && name[..|prefix|] == prefix && name[|name| - 1] == ')' then
      Numerals.ParseDecimal(name[|prefix|..|name| - 1])
    else None
  }

  /** The name of an unsupported id shows that id, so different unsupported ids get different names. */
  lemma UnsupportedNameShowsId(n: int)
    requires n != 0 && n !in Chains
    ensures UnsupportedId(ChainName(Some(n))) == Some(n)
    ensures |ChainName(Some(n))| > |"opBNB Testnet"| > |"BSC Testnet"| > |"Unknown"|
  {
    var prefix := "Unsupported (";
    var digits := Numerals.IntToDecimal(n);
    var name := prefix + digits + ")";
    assert ChainName(Some(n)) == name;
    assert name[..|prefix|] == prefix;
    assert name[|prefix|..|name| - 1] == digits;
    Numerals.DecimalRoundTrip(n);
  }

  lemma ChainNamesDistinguishUnsupported(m: int, n: int)
    requires m != 0 && m !in Chains && n != 0 && n !in Chains
    requires ChainName(Some(m)) == ChainName(Some(n))
    ensures m == n
  {
    UnsupportedNameShowsId(m);
    UnsupportedNameShowsId(n);
  }

  /** An error a wallet request throws (`code` is absent when the thrown value has none). */
  datatype WalletError = WalletError(code: Option<int>, message: string)

  const ChainNotAddedCode: int := 4902

  datatype WalletRequest =
    | SwitchChain(chainIdHex: string)
    | AddChain(config: ChainConfig)

  datatype SwitchError =
    | NoWalletProvider
    | UnsupportedTarget
    | WalletRejected(cause: WalletError)

  function SwitchErrorMessage(e: SwitchError): (message: string)
  {
    match e
    case NoWalletProvider => "No wallet provider detected."
    case UnsupportedTarget => "Unsupported target chain."
    case WalletRejected(cause) => cause.message
  }

  /** The wallet requests issued, in order, and how the call ends. */
  datatype SwitchRun = SwitchRun(requests: seq<WalletRequest>, outcome: Result<(), SwitchError>)

  /**
   * switchToSupportedChain. `switchResult` and `addResult` are the outcomes
   * of the two wallet requests (None when the request resolves).
   */
  function SwitchToSupportedChain(hasWallet: bool, target: int,
                                  switchResult: Option<WalletError>, addResult: Option<WalletError>): (run: SwitchRun)
    ensures |run.requests| <= 2
    ensures run.outcome.Success? ==>
      && hasWallet && target in Chains
      && run.requests != [] && run.requests[0] == SwitchChain(Chains[target].chainIdHex)
    ensures forall i :: 0 <= i < |run.requests| && run.requests[i].AddChain? ==> target in Chains && run.requests[i].config == Chains[target]
  {
    if !hasWallet then SwitchRun([], Failure(NoWalletProvider))
    else if target !in Chains then SwitchRun([], Failure(UnsupportedTarget))
    else
      var chain := Chains[target];
      var switchReq := SwitchChain(chain.chainIdHex);
      if switchResult.None? then SwitchRun([switchReq], Success(()))
      else if switchResult.value.code == Some(ChainNotAddedCode) then
        SwitchRun([switchReq, AddChain(chain)],
          if addResult.None? then Success(()) else Failure(WalletRejected(addResult.value)))
      else SwitchRun([switchReq], Failure(WalletRejected(switchResult.value)))
  }

  /** A missing wallet is reported first, then an unknown target; neither issues any request. */
  lemma SwitchGuardsPrecedence(hasWallet: bool, target: int,
                               switchResult: Option<WalletError>, addResult: Option<WalletError>)
    ensures var run := SwitchToSupportedChain(hasWallet, target, switchResult, addResult);
      && (!hasWallet ==> run == SwitchRun([], Failure(NoWalletProvider)))
      && (!hasWallet ==> SwitchErrorMessage(run.outcome.error) == "No wallet provider detected.")
      && (hasWallet && target !in Chains ==> run == SwitchRun([], Failure(UnsupportedTarget)))
      && (hasWallet && target !in Chains ==> SwitchErrorMessage(run.outcome.error) == "Unsupported target chain.")
      && (run.requests == [] <==> !hasWallet || target !in Chains)
  {
  }

  /**
   * With a wallet and a known target, the first request switches to the
   * target's hex id; the chain is added only after a 4902 error, with the
   * target's table entry; any other switch error is rethrown unchanged.
   */
  lemma SwitchRequestsForKnownTarget(target: int, switchResult: Option<WalletError>, addResult: Option<WalletError>)
    requires target in Chains
    ensures var run := SwitchToSupportedChain(true, target, switchResult, addResult);
      && |run.requests| >= 1
      && run.requests[0].SwitchChain?
      && Numerals.ParseHex(run.requests[0].chainIdHex) == Some(target)
      && (|run.requests| == 2 <==> switchResult.Some? && switchResult.value.code == Some(4902))
      && (|run.requests| == 2 ==> run.requests[1] == AddChain(Chains[target]))
      && (run.outcome.Success? <==>
            switchResult.None? || (switchResult.value.code == Some(4902) && addResult.None?))
      && (switchResult.Some? && switchResult.value.code != Some(4902) ==>
            run.outcome == Failure(WalletRejected(switchResult.value)))
  {
    TableHexIds();
  }
}
