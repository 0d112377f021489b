/** `_determine_transaction_type`: the ordered four-way decision over a
    transaction and its receipt. */
module Classifier {
  import opened Optional
  import opened Text
  import opened Chain

  /** The four tags the handler produces (`'contract_creation'`,
      `'token_transfer'`, `'contract_interaction'`, `'eth_transfer'`). */
  datatype Kind = ContractCreation | TokenTransfer | ContractInteraction | EthTransfer

  /** Hex text of the ERC-20 `transfer(address,uint256)` selector. */
  const TransferSelector: string := "0xa9059cbb"

  /** The input carries call data: it is longer than the bare `"0x"`. */
  predicate HasCallData(input: string) {
    |input| > 2
  }

  /** Declarative description of each kind, independent of the order in
      which the handler tests its conditions. */
  predicate Describes(k: Kind, tx: Tx, receipt: Receipt) {
    match k
    case ContractCreation =>
      !Truthy(tx.to)
    case TokenTransfer =>
      Truthy(tx.to) && StartsWith(tx.input, TransferSelector)
    case ContractInteraction =>
      && Truthy(tx.to)
      && !StartsWith(tx.input, TransferSelector)
      && (Truthy(receipt.contractAddress) || HasCallData(tx.input))
    case EthTransfer =>
      && Truthy(tx.to)
      && !StartsWith(tx.input, TransferSelector)
      && !Truthy(receipt.contractAddress)
      && !HasCallData(tx.input)
  }

  /** The handler's ordered decision: creation, then selector, then
      "contract address or call data", and plain transfer otherwise. */
  function Classify(tx: Tx, receipt: Receipt): (k: Kind)
    ensures Describes(k, tx, receipt)
    ensures forall k' :: Describes(k', tx, receipt) ==> k' == k
  {
    if !Truthy(tx.to) then ContractCreation
    else if StartsWith(tx.input, TransferSelector) then TokenTransfer
    else if Truthy(receipt.contractAddress) || HasCallData(tx.input) then ContractInteraction
    else EthTransfer
  }

  /** The descriptions partition all (transaction, receipt) pairs, and the
      classifier picks the one kind whose description holds. */
  lemma ClassifyIsReference(tx: Tx, receipt: Receipt, k: Kind)
    ensures Classify(tx, receipt) == k <==> Describes(k, tx, receipt)
  {
  }

  /** A null or empty recipient means contract creation, whatever the input
      and the receipt say. */
  lemma CreationIgnoresInputAndReceipt(tx: Tx, receipt: Receipt, input: string, receipt': Receipt)
    requires !Truthy(tx.to)
    ensures Classify(tx.(input := input), receipt') == ContractCreation
    ensures Classify(tx, receipt) == Classify(tx.(input := input), receipt')
  {
  }

  /** Input beginning with the transfer selector always has call data, yet
      it is classified as a token transfer: the selector test wins. */
  lemma SelectorBeforeCallData(tx: Tx, receipt: Receipt)
    requires Truthy(tx.to) && StartsWith(tx.input, TransferSelector)
    ensures HasCallData(tx.input)
    ensures Classify(tx, receipt) == TokenTransfer
  {
  }

  /** The selector test is case-sensitive: input whose first ten characters
      spell the selector in another letter case does not match, and the call
      falls through to contract interaction. */
  lemma SelectorIsCaseSensitive(tx: Tx, receipt: Receipt)
    requires Truthy(tx.to) && |tx.input| >= |TransferSelector|
    requires Lower(tx.input[..|TransferSelector|]) == TransferSelector
    requires tx.input[..|TransferSelector|] != TransferSelector
    ensures Classify(tx, receipt) == ContractInteraction
  {
  }

  /** A plain native-currency transfer is recognised exactly when there is
      a recipient, no call data beyond `"0x"` and no created contract. */
  lemma EthTransferExactly(tx: Tx, receipt: Receipt)
    ensures Classify(tx, receipt) == EthTransfer
        <==> Truthy(tx.to) && |tx.input| <= 2 && !Truthy(receipt.contractAddress)
  {
  }
}
