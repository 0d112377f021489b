/** The two records the handler receives from the node: a transaction and
    its receipt, reduced to the fields the core reads. */
module Chain {
  import opened Optional

  /** A transaction as returned by `get_transaction`: `to` is null for a
      contract creation, `value` is in wei and `input` is the hex text of
      the call data (`"0x"` when there is none). */
  datatype Tx = Tx(from: string, to: Option<string>, value: nat, input: string)

  /** A receipt as returned by `get_transaction_receipt`. */
  datatype Receipt = Receipt(blockNumber: nat, gasUsed: nat, status: int, contractAddress: Option<string>)

  const WeiPerEther: nat := 1_000_000_000_000_000_000

  /** `from_wei(value, 'ether')`, computed exactly. */
  function ToEther(wei: nat): (e: real)
    ensures e >= 0.0
    ensures e * WeiPerEther as real == wei as real
  {
    wei as real / WeiPerEther as real
  }
}
