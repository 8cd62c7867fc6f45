/**
 The PixelOracle contract on Base (src/services/blockchain.ts): the guard on
 the configured contract address, minting with the token id read before the
 write, and the explorer and marketplace links built from a mint.

 Reads, writes and receipt waits go to an RPC node; each is an outcome
 parameter here.
 */
module Blockchain {
  import opened JsText
  import opened Results
  import Config

  const MissingContractError: Error :=
    Error(Lit("❌ NFT_CONTRACT_ADDRESS not set. Deploy the contract first!"))

  /** `getContractAddress`: the configured address, or an error when none is configured. */
  function ContractAddress(configured: Str): (r: Result<Str>)
    ensures r.Ok? <==> |configured| > 0
    ensures r.Ok? ==> r.value == configured
    ensures r.Err? ==> r.error == MissingContractError
  {
    if |configured| == 0 then Err(MissingContractError) else Ok(configured)
  }

  /**
   `getTotalMinted`: the contract's `totalSupply`, read only once the address
   guard has passed.
   */
  function TotalMinted(configuredAddress: Str, totalSupply: Result<nat>): (r: Result<nat>)
    ensures |configuredAddress| == 0 ==> r == Err(MissingContractError)
    ensures |configuredAddress| > 0 ==> r == totalSupply
  {
    var address :- ContractAddress(configuredAddress);
    totalSupply
  }

  // ===========================================================================
  // Minting
  // ===========================================================================

  /** The `status` of a transaction receipt. */
  datatype ReceiptStatus = Success | Reverted

  /** One request `mintArtwork` sends to the node, in order. */
  datatype MintCall =
    | ReadTotalSupply(contract: Str)
    | WriteMint(contract: Str, metadataUri: Str, prompt: Str, theme: Str)   // the prompt travels as its keccak-256 hash
    | WaitForReceipt(txHash: Str)

  datatype Minted = Minted(tokenId: nat, txHash: Str)

  /** What `mintArtwork` returned or threw, and the requests it made. */
  datatype MintRun = MintRun(result: Result<Minted>, calls: seq<MintCall>)

  const TransactionFailed: Error := Error(Lit("Transaction failed"))

  /**
   `mintArtwork`: read `totalSupply`, submit the mint, wait for the receipt. The
   token id returned is the supply read BEFORE the write; a receipt whose status
   is not "success" is an error.
   */
  function MintArtwork(
    configuredAddress: Str, metadataUri: Str, prompt: Str, theme: Str,
    totalSupply: Result<nat>, submitted: Result<Str>, receipt: Result<ReceiptStatus>): (run: MintRun)
    ensures run.result.Ok? <==> |configuredAddress| > 0 && totalSupply.Ok? && submitted.Ok? && receipt == Ok(Success)
    ensures run.result.Ok? ==> run.result.value == Minted(totalSupply.value, submitted.value)
    ensures |configuredAddress| == 0 ==> run == MintRun(Err(MissingContractError), [])
    ensures |configuredAddress| > 0 && totalSupply.Err? ==>
              run == MintRun(Err(totalSupply.error), [ReadTotalSupply(configuredAddress)])
    ensures |configuredAddress| > 0 && totalSupply.Ok? && submitted.Err? ==>
              run == MintRun(Err(submitted.error), [ ReadTotalSupply(configuredAddress),
                                                     WriteMint(configuredAddress, metadataUri, prompt, theme) ])
    ensures |configuredAddress| > 0 && totalSupply.Ok? && submitted.Ok? ==>
              run.calls == [ ReadTotalSupply(configuredAddress),
                             WriteMint(configuredAddress, metadataUri, prompt, theme),
                             WaitForReceipt(submitted.value) ]
    ensures |configuredAddress| > 0 && totalSupply.Ok? && submitted.Ok? && receipt == Ok(Reverted) ==>
              run.result == Err(TransactionFailed)
    ensures run.result.Err? && receipt.Ok? && |configuredAddress| > 0 && totalSupply.Ok? && submitted.Ok? ==>
              run.result.error == TransactionFailed
  {
    var address := ContractAddress(configuredAddress);
    if address.Err? then MintRun(Err(address.error), [])
    else
      var read := [ReadTotalSupply(address.value)];
      match totalSupply
      case Err(e) => MintRun(Err(e), read)
      case Ok(tokenId) =>
        var write := read + [WriteMint(address.value, metadataUri, prompt, theme)];
        match submitted
        case Err(e) => MintRun(Err(e), write)
        case Ok(txHash) =>
          var calls := write + [WaitForReceipt(txHash)];
          match receipt
          case Err(e) => MintRun(Err(e), calls)
          case Ok(status) =>
            if status == Success then MintRun(Ok(Minted(tokenId, txHash)), calls)
            else MintRun(Err(TransactionFailed), calls)
  }

  // ===========================================================================
  // Links
  // ===========================================================================

  const MainnetExplorer: Str := Lit("https://basescan.org")
  const TestnetExplorer: Str := Lit("https://sepolia.basescan.org")
  const TxPath: Str := Lit("/tx/")

  /** `getBaseScanUrl`: the transaction page on the explorer of the configured network. */
  function BaseScanUrl(network: Str, txHash: Str): (r: Str)
    ensures network == Config.MainnetName ==> r == MainnetExplorer + TxPath + txHash
    ensures network != Config.MainnetName ==> r == TestnetExplorer + TxPath + txHash
  {
    var baseUrl := if network == Config.MainnetName then MainnetExplorer else TestnetExplorer;
    baseUrl + TxPath + txHash
  }

  /** The transaction hash can be read back off the explorer link. */
  lemma BaseScanUrlInjective(network: Str, h1: Str, h2: Str)
    requires BaseScanUrl(network, h1) == BaseScanUrl(network, h2)
    ensures h1 == h2
  {
    var prefix := if network == Config.MainnetName then MainnetExplorer + TxPath else TestnetExplorer + TxPath;
    assert BaseScanUrl(network, h1) == prefix + h1;
    assert BaseScanUrl(network, h2) == prefix + h2;
    assert h1 == (prefix + h1)[|prefix|..];
    assert h2 == (prefix + h2)[|prefix|..];
  }

  const MainnetMarket: Str := Lit("https://opensea.io/assets/base/")
  const TestnetMarket: Str := Lit("https://testnets.opensea.io/assets/base-sepolia/")
  const Slash: CodeUnit := 0x2F

  /** `getOpenSeaUrl`: the token page on OpenSea; throws like `getContractAddress`. */
  function OpenSeaUrl(network: Str, configuredAddress: Str, tokenId: nat): (r: Result<Str>)
    ensures r.Ok? <==> |configuredAddress| > 0
    ensures r.Err? ==> r.error == MissingContractError
    ensures r.Ok? && network == Config.MainnetName ==>
              r.value == MainnetMarket + configuredAddress + [Slash] + NatToDecimal(tokenId)
    ensures r.Ok? && network != Config.MainnetName ==>
              r.value == TestnetMarket + configuredAddress + [Slash] + NatToDecimal(tokenId)
  {
    var address :- ContractAddress(configuredAddress);
    var market := if network == Config.MainnetName then MainnetMarket else TestnetMarket;
    Ok(market + address + [Slash] + NatToDecimal(tokenId))
  }

  /** Different tokens of one contract get different OpenSea links. */
  lemma OpenSeaUrlInjective(network: Str, configuredAddress: Str, m: nat, n: nat)
    requires OpenSeaUrl(network, configuredAddress, m).Ok?
    requires OpenSeaUrl(network, configuredAddress, m) == OpenSeaUrl(network, configuredAddress, n)
    ensures m == n
  {
    var market := if network == Config.MainnetName then MainnetMarket else TestnetMarket;
    var prefix := market + configuredAddress + [Slash];
    assert OpenSeaUrl(network, configuredAddress, m).value == prefix + NatToDecimal(m);
    assert OpenSeaUrl(network, configuredAddress, n).value == prefix + NatToDecimal(n);
    assert NatToDecimal(m) == (prefix + NatToDecimal(m))[|prefix|..];
    assert NatToDecimal(n) == (prefix + NatToDecimal(n))[|prefix|..];
    DecimalInjective(m, n);
  }
}
