/** `_matches_filters`: the per-address filter predicate over an optional
    token address and an optional minimum amount in ether. */
module FilterEngine {
  import opened Optional
  import opened Text
  import opened Chain

  /** The value stored under `'token_address'`: a string, or a JSON value
      of another type, on which `.lower()` raises. */
  datatype TokenArg = TextArg(addr: string) | NotText

  /** The value stored under `'min_amount'` as `float()` sees it: an exact
      amount of ether, or a value `float()` refuses. */
  datatype Threshold = Ether(amount: real) | NotNumeric

  /** The parsed filter object. Keys other than the two the predicate reads
      are kept only as names, since they make the object non-empty. */
  datatype Filters = Filters(tokenAddress: Option<TokenArg>, minAmount: Option<Threshold>, otherKeys: set<string>)

  const NoFilters: Filters := Filters(None, None, {})

  /** `not filters`: the object has no keys at all. */
  predicate IsEmpty(f: Filters) {
    f.tokenAddress.None? && f.minAmount.None? && f.otherKeys == {}
  }

  /** Outcome of evaluating the filters: the predicate can also raise. */
  datatype Verdict = Accepted | Rejected | Raised

  /** The token constraint holds: absent, or no recipient, or the recipient
      equals the configured string ignoring case. */
  predicate TokenConstraintHolds(tx: Tx, f: Filters) {
    || f.tokenAddress.None?
    || !Truthy(tx.to)
    || (f.tokenAddress.value.TextArg? && SameIgnoringCase(tx.to.value, f.tokenAddress.value.addr))
  }

  /** The amount constraint holds: absent, or the value in wei reaches the
      threshold scaled to wei. */
  predicate AmountConstraintHolds(tx: Tx, f: Filters) {
    || f.minAmount.None?
    || (f.minAmount.value.Ether? && tx.value as real >= f.minAmount.value.amount * WeiPerEther as real)
  }

  /** Evaluation raises: `.lower()` on a non-string token value (reached only
      with a recipient), or `float()` on a non-numeric minimum (reached only
      when the token check did not already reject). */
  predicate Raises(tx: Tx, f: Filters) {
    || (f.tokenAddress == Some(NotText) && Truthy(tx.to))
    || (TokenConstraintHolds(tx, f) && f.minAmount == Some(NotNumeric))
  }

  /** The token check alone, as the handler runs it. */
  function CheckToken(tx: Tx, f: Filters): Verdict {
    if f.tokenAddress.None? || !Truthy(tx.to) then Accepted
    else if f.tokenAddress.value.NotText? then Raised
    else if Lower(tx.to.value) != Lower(f.tokenAddress.value.addr) then Rejected
    else Accepted
  }

  /** The minimum-amount check alone, as the handler runs it. */
  function CheckAmount(tx: Tx, f: Filters): Verdict {
    if f.minAmount.None? then Accepted
    else if f.minAmount.value.NotNumeric? then Raised
    else if ToEther(tx.value) < f.minAmount.value.amount then Rejected
    else Accepted
  }

  /** The whole predicate: an empty object accepts at once; otherwise the
      token check runs first and the amount check only if it passed. */
  function Matches(tx: Tx, f: Filters): (v: Verdict)
    ensures v == Raised <==> Raises(tx, f)
    ensures v == Accepted <==> !Raises(tx, f) && TokenConstraintHolds(tx, f) && AmountConstraintHolds(tx, f)
  {
    if IsEmpty(f) then Accepted
    else
      var t := CheckToken(tx, f);
      if t != Accepted then t else CheckAmount(tx, f)
  }

  /** An empty filter object accepts every transaction. */
  lemma EmptyAcceptsAll(tx: Tx)
    ensures Matches(tx, NoFilters) == Accepted
  {
  }

  /** The early return on an empty object is only a shortcut: keys the
      predicate does not read never change its verdict. */
  lemma OtherKeysIgnored(tx: Tx, f: Filters, keys: set<string>)
    ensures Matches(tx, f.(otherKeys := keys)) == Matches(tx, f)
  {
  }

  /** A transaction without a recipient is never rejected (nor made to
      raise) by the token filter. */
  lemma NullRecipientPassesTokenFilter(tx: Tx, arg: TokenArg)
    requires !Truthy(tx.to)
    ensures Matches(tx, Filters(Some(arg), None, {})) == Accepted
  {
  }

  /** With a recipient and a string filter value, the token filter rejects
      exactly when the two differ after lower-casing both. */
  lemma TokenFilterRejectsExactly(tx: Tx, addr: string)
    requires Truthy(tx.to)
    ensures Matches(tx, Filters(Some(TextArg(addr)), None, {})) == Rejected
        <==> Lower(tx.to.value) != Lower(addr)
  {
  }

  /** The verdict does not depend on the letter case of the recipient or of
      the configured token address. */
  lemma CaseInsensitive(tx: Tx, to': string, f: Filters, addr': string)
    requires tx.to.Some? && SameIgnoringCase(tx.to.value, to')
    requires f.tokenAddress.Some? && f.tokenAddress.value.TextArg?
    requires SameIgnoringCase(f.tokenAddress.value.addr, addr')
    ensures Matches(tx.(to := Some(to')), f.(tokenAddress := Some(TextArg(addr')))) == Matches(tx, f)
  {
  }

  /** The minimum-amount filter rejects exactly when the value in ether is
      below the threshold, i.e. when the value in wei is below the threshold
      scaled by 10^18. */
  lemma AmountFilterRejectsExactly(tx: Tx, q: real)
    ensures Matches(tx, Filters(None, Some(Ether(q)), {})) == Rejected
        <==> ToEther(tx.value) < q
    ensures Matches(tx, Filters(None, Some(Ether(q)), {})) == Rejected
        <==> (tx.value as real) < q * WeiPerEther as real
  {
  }

  /** Raising the value of an accepted transaction keeps it accepted. */
  lemma AcceptanceMonotoneInValue(tx: Tx, f: Filters, value: nat)
    requires Matches(tx, f) == Accepted
    requires value >= tx.value
    ensures Matches(tx.(value := value), f) == Accepted
  {
  }

  /** With both keys present the verdict is the conjunction of the two
      checks (when neither raises). */
  lemma BothKeysConjunctive(tx: Tx, arg: string, q: real, keys: set<string>)
    ensures Matches(tx, Filters(Some(TextArg(arg)), Some(Ether(q)), keys)) == Accepted
        <==> (&& Matches(tx, Filters(Some(TextArg(arg)), None, {})) == Accepted
              && Matches(tx, Filters(None, Some(Ether(q)), {})) == Accepted)
  {
  }
}
