/** `process_transaction` with its node lookups passed in: filter first,
    then classify, then build the notification record. */
module Handler {
  import opened Optional
  import opened Text
  import opened Chain
  import opened Classifier
  import opened FilterEngine

  /** Outcome shown in the record: success exactly when the receipt status is 1. */
  datatype TxStatus = Success | Failed

  /** What `_get_token_info` returns when all three contract calls succeed;
      on any failure it returns an empty dictionary, modelled as `None`. */
  datatype TokenMeta = TokenMeta(name: string, symbol: string, decimals: nat)

  /** The notification dictionary. `token` holds the three `token_*` keys
      merged in for token transfers, when their lookup succeeded. */
  datatype Record = Record(
    kind: Kind,
    hash: string,
    from: string,
    to: Option<string>,
    value: real,
    block: nat,
    timestamp: nat,
    gasUsed: nat,
    status: TxStatus,
    token: Option<TokenMeta>)

  /** The config's filter object, or the empty object when it has none. */
  function FiltersOf(config: Option<Filters>): Filters {
    config.GetOr(NoFilters)
  }

  /** Processes one fetched transaction. `blockTime` stands for the
      `get_block(...)['timestamp']` lookup (None when it raises) and
      `tokenInfo` for `_get_token_info`. Any exception, including one raised
      by the filters, ends in `None`, exactly like a filter rejection. */
  function ProcessTransaction(
    txHash: string, tx: Tx, receipt: Receipt, config: Option<Filters>,
    blockTime: nat -> Option<nat>, tokenInfo: string -> Option<TokenMeta>): (r: Option<Record>)
    ensures r.Some? <==> Matches(tx, FiltersOf(config)) == Accepted && blockTime(receipt.blockNumber).Some?
    ensures r.Some? ==> r.value.kind == Classify(tx, receipt)
    ensures r.Some? ==> (r.value.status == Success <==> receipt.status == 1)
    ensures r.Some? ==> r.value.value * WeiPerEther as real == tx.value as real
    ensures r.Some? ==> r.value.hash == txHash && r.value.from == tx.from && r.value.to == tx.to
    ensures r.Some? ==> r.value.block == receipt.blockNumber && r.value.gasUsed == receipt.gasUsed
    ensures r.Some? ==> Some(r.value.timestamp) == blockTime(receipt.blockNumber)
    ensures r.Some? && r.value.token.Some? ==> r.value.kind == TokenTransfer
    ensures r.Some? && r.value.kind == TokenTransfer ==> tx.to.Some? && r.value.token == tokenInfo(tx.to.value)
  {
    if Matches(tx, FiltersOf(config)) != Accepted then None
    else
      var kind := Classify(tx, receipt);
      match blockTime(receipt.blockNumber)
      case None => None
      case Some(timestamp) =>
        var token := if kind == TokenTransfer then tokenInfo(tx.to.value) else None;
        Some(Record(
          kind, txHash, tx.from, tx.to, ToEther(tx.value), receipt.blockNumber, timestamp,
          receipt.gasUsed, if receipt.status == 1 then Success else Failed, token))
  }

  /** A missing `filters` key behaves as an empty filter object: the
      record then exists exactly when the block lookup succeeds. */
  lemma NoConfigNoFiltering(txHash: string, tx: Tx, receipt: Receipt,
                            blockTime: nat -> Option<nat>, tokenInfo: string -> Option<TokenMeta>)
    ensures ProcessTransaction(txHash, tx, receipt, None, blockTime, tokenInfo).Some?
        <==> blockTime(receipt.blockNumber).Some?
  {
  }

  /** A filtered-out transaction yields nothing, whatever the lookups would
      have returned: neither the block nor the token lookup is reached. */
  lemma FilteredIgnoresLookups(txHash: string, tx: Tx, receipt: Receipt, config: Option<Filters>,
                               blockTime: nat -> Option<nat>, tokenInfo: string -> Option<TokenMeta>)
    requires Matches(tx, FiltersOf(config)) != Accepted
    ensures ProcessTransaction(txHash, tx, receipt, config, blockTime, tokenInfo) == None
  {
  }

  /** The token lookup is consulted only for token transfers: for every
      other kind the record does not depend on it and carries no token keys. */
  lemma TokenLookupOnlyForTransfers(txHash: string, tx: Tx, receipt: Receipt, config: Option<Filters>,
                                    blockTime: nat -> Option<nat>,
                                    info1: string -> Option<TokenMeta>, info2: string -> Option<TokenMeta>)
    requires Classify(tx, receipt) != TokenTransfer
    ensures ProcessTransaction(txHash, tx, receipt, config, blockTime, info1)
         == ProcessTransaction(txHash, tx, receipt, config, blockTime, info2)
    ensures forall r :: ProcessTransaction(txHash, tx, receipt, config, blockTime, info1) == Some(r) ==> r.token.None?
  {
  }

  /** A failed token lookup leaves a token-transfer record without token
      keys rather than dropping it. */
  lemma TokenLookupFailureKeepsRecord(txHash: string, tx: Tx, receipt: Receipt, config: Option<Filters>,
                                      blockTime: nat -> Option<nat>, tokenInfo: string -> Option<TokenMeta>)
    requires Matches(tx, FiltersOf(config)) == Accepted && blockTime(receipt.blockNumber).Some?
    requires Classify(tx, receipt) == TokenTransfer && tokenInfo(tx.to.value).None?
    ensures ProcessTransaction(txHash, tx, receipt, config, blockTime, tokenInfo).Some?
    ensures ProcessTransaction(txHash, tx, receipt, config, blockTime, tokenInfo).value.token.None?
  {
  }

  /** A plain transfer of 1.5 ether with status 1: it is an `eth_transfer`,
      it passes a 1.0 minimum with a successful record carrying value 1.5,
      and a 2.0 minimum filters it out. */
  lemma OneAndAHalfEther(blockTime: nat -> Option<nat>, tokenInfo: string -> Option<TokenMeta>)
    requires blockTime(100).Some?
    ensures var tx := Tx("0xaaa", Some("0xbbb"), 1_500_000_000_000_000_000, "0x");
            var receipt := Receipt(100, 21000, 1, None);
            && Classify(tx, receipt) == EthTransfer
            && ProcessTransaction("0xdead", tx, receipt, Some(Filters(None, Some(Ether(1.0)), {})), blockTime, tokenInfo)
               .Some?
            && ProcessTransaction("0xdead", tx, receipt, Some(Filters(None, Some(Ether(1.0)), {})), blockTime, tokenInfo)
               .value.value == 1.5
            && ProcessTransaction("0xdead", tx, receipt, Some(Filters(None, Some(Ether(1.0)), {})), blockTime, tokenInfo)
               .value.status == Success
            && ProcessTransaction("0xdead", tx, receipt, Some(Filters(None, Some(Ether(2.0)), {})), blockTime, tokenInfo)
               == None
  {
  }

  /** The handler as written also serialises the finished record with
      `json.dumps` inside its `try` block (transaction_handler.py:49). The
      record's `value` comes from `from_wei`, which yields a `Decimal` for
      every non-zero amount, and `json.dumps` refuses a `Decimal`; the
      exception handler then returns None. Zero is returned as a plain
      integer and serialises. */
  function ProcessTransactionAsWritten(
    txHash: string, tx: Tx, receipt: Receipt, config: Option<Filters>,
    blockTime: nat -> Option<nat>, tokenInfo: string -> Option<TokenMeta>): (r: Option<Record>)
    ensures r.Some? ==> r.value.value == 0.0
    ensures r.Some? <==> tx.value == 0 && ProcessTransaction(txHash, tx, receipt, config, blockTime, tokenInfo).Some?
    ensures r.Some? ==> r == ProcessTransaction(txHash, tx, receipt, config, blockTime, tokenInfo)
  {
    var p := ProcessTransaction(txHash, tx, receipt, config, blockTime, tokenInfo);
    if p.Some? && tx.value != 0 then None else p
  }

  /** The 1.5-ether transfer that the handler is meant to report is lost as
      written: the serialisation of its record raises. */
  lemma OneAndAHalfEtherAsWritten(blockTime: nat -> Option<nat>, tokenInfo: string -> Option<TokenMeta>)
    requires blockTime(100).Some?
    ensures var tx := Tx("0xaaa", Some("0xbbb"), 1_500_000_000_000_000_000, "0x");
            var receipt := Receipt(100, 21000, 1, None);
            var config := Some(Filters(None, Some(Ether(1.0)), {}));
            && ProcessTransaction("0xdead", tx, receipt, config, blockTime, tokenInfo).Some?
            && ProcessTransactionAsWritten("0xdead", tx, receipt, config, blockTime, tokenInfo) == None
  {
  }
}
