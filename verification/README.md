# Address-tracking bot: transaction classifier, filters and tracking registry

This project is a Dafny model of the logic at the core of a Discord bot that watches
addresses on an EVM chain (Base). It covers two parts:

- **The transaction handler** (`transaction_handler.py`). It classifies a transaction
  and its receipt as one of four kinds: contract creation, token transfer, contract
  interaction or plain ETH transfer. It also evaluates the per-address filters (an
  optional token address and an optional minimum amount in ether), and it builds the
  notification record for a transaction that passes them.
- **The tracking registry and the monitor step** (`bot.py`). The registry is the
  `tracking_configs` dictionary, keyed by lower-cased address. The `!track` and
  `!untrack` commands insert, overwrite and delete entries. One pass of the monitor
  loop moves each entry's `last_block` cursor up to the chain head.

Everything is written as immutable datatypes and pure functions. The registry is a
`map<string, Config>`. Each command and each monitor cycle is a function from one map
to the next. The node lookups are passed in as parameters: the block timestamp, token
metadata, the head block number, `w3.is_address` and `json.loads`. A lookup that raises
is modelled as `None`.

Modules:

- `Optional` is the Option type.
- `Text` models the ASCII `str.lower`, `startswith` and string truthiness.
- `Chain` holds the transaction and receipt records and the wei-to-ether conversion.
- `Classifier` models `_determine_transaction_type`.
- `FilterEngine` models `_matches_filters`.
- `Handler` models `process_transaction`.
- `Registry` models `TrackingConfig`, `!track` and `!untrack`.
- `Monitor` models one pass of `monitor_addresses`.

Facts about the code that the model keeps:

- Re-tracking an address replaces its entry.
- Addresses are normalised by lower-casing, not to the checksummed form.
- The `min_amount` filter compares the native value for every kind, token transfers
  included.
- The token filter compares `tx['to']` with the configured token address.
- The code has no de-duplication cache and no block scanning.
  `check_new_transactions` is an empty stub.

## Model

| member | source | states |
|---|---|---|
| Text.Lower | bot.py:107 | lower-casing keeps the length and maps every character to its lower-case form |
| Text.LowerIsLower | bot.py:59-61 | lower-casing yields a normalised string and is idempotent, so the second `.lower()` in `TrackingConfig` changes nothing |
| Text.LowerOfLower | bot.py:120-121 | an already lower-case address is its own lower-case form |
| Chain.ToEther | transaction_handler.py:43 | the value in ether times 10^18 is exactly the value in wei |
| Classifier.Classify | transaction_handler.py:88-108 | the result satisfies its kind's declarative description, and no other kind's description holds |
| Classifier.ClassifyIsReference | transaction_handler.py:88-108 | the ordered decision returns a kind exactly when that kind's description holds, so classification is total and yields exactly one kind |
| Classifier.CreationIgnoresInputAndReceipt | transaction_handler.py:93-95 | a null or empty `to` gives `contract_creation` whatever the input and the receipt |
| Classifier.SelectorBeforeCallData | transaction_handler.py:98-105 | input starting with `0xa9059cbb` has call data, yet it is classified `token_transfer` because the selector test comes first |
| Classifier.SelectorIsCaseSensitive | transaction_handler.py:98-105 | for every transaction with a recipient whose input begins with the selector in a different letter case, the result is `contract_interaction`, because the prefix test is case-sensitive |
| Classifier.EthTransferExactly | transaction_handler.py:103-108 | `eth_transfer` holds iff `to` is present, the input is at most 2 characters and the receipt has no `contractAddress` |
| FilterEngine.Matches | transaction_handler.py:64-86 | the predicate raises exactly in the reachable error cases; it accepts iff it does not raise and both the token and the amount constraints hold |
| FilterEngine.EmptyAcceptsAll | transaction_handler.py:66-68 | an empty filter object accepts every transaction |
| FilterEngine.OtherKeysIgnored | transaction_handler.py:66-86 | keys other than `token_address` and `min_amount` never change the verdict |
| FilterEngine.NullRecipientPassesTokenFilter | transaction_handler.py:71-75 | a transaction with null or empty `to` is never rejected by the token filter |
| FilterEngine.TokenFilterRejectsExactly | transaction_handler.py:71-75 | with a recipient, the token filter rejects iff the lower-cased recipient and filter value differ |
| FilterEngine.CaseInsensitive | transaction_handler.py:71-75 | changing the letter case of the recipient or of the filter's token address never changes the verdict |
| FilterEngine.AmountFilterRejectsExactly | transaction_handler.py:78-83 | the minimum filter rejects iff value/10^18 is below the minimum, equivalently iff the value in wei is below minimum·10^18 |
| FilterEngine.AcceptanceMonotoneInValue | transaction_handler.py:78-83 | raising a transaction's value never turns an accepted transaction into a rejected one |
| FilterEngine.BothKeysConjunctive | transaction_handler.py:70-86 | with both keys set, the verdict is accept iff each single-key filter accepts |
| Handler.ProcessTransaction | transaction_handler.py:17-62 | a record exists iff the filters accept and the block lookup succeeds; its type is the classifier's output; its status is success iff receipt status is 1; its value is wei/10^18; token fields appear only for token transfers and are the lookup's result |
| Handler.NoConfigNoFiltering | transaction_handler.py:28-29 | with no `filters` key in the config, a record is produced whenever the block lookup succeeds |
| Handler.FilteredIgnoresLookups | transaction_handler.py:29-31 | a transaction the filters do not accept yields None before any lookup matters |
| Handler.TokenLookupOnlyForTransfers | transaction_handler.py:52-56 | for kinds other than `token_transfer`, the record does not depend on the token lookup and has no token fields |
| Handler.TokenLookupFailureKeepsRecord | transaction_handler.py:52-56 | a failed token lookup still yields the token-transfer record, without token fields |
| Handler.ProcessTransactionAsWritten | transaction_handler.py:38-62 | with the serialisation of line 49 taken into account, a record survives only when the value is zero; it is then the same record as without serialisation |
| Handler.OneAndAHalfEtherAsWritten | transaction_handler.py:43-62 | as written, the 1.5-ether transfer that passes the filters yields None, while the model without the failing serialisation yields a record |
| Handler.OneAndAHalfEther | transaction_handler.py:38-48 | a 1.5-ether plain transfer is `eth_transfer`; it passes a 1.0 minimum with value 1.5 and status success, and a 2.0 minimum filters it out |
| Registry.NewConfig | bot.py:59-64 | a new config holds the lower-cased address, empty filters when none were given, and a cursor starting at the current head |
| Registry.Track | bot.py:90-115 | an invalid address or undecodable filters, or a failed head read, leave the registry unchanged; otherwise the entry is stored under the lower-cased address, replacing any old one, and all other entries are unchanged; well-formedness is preserved |
| Registry.Untrack | bot.py:117-125 | the lower-cased key is removed iff it was present; the registry is otherwise unchanged and stays well formed |
| Registry.RetrackReplaces | bot.py:107-111 | tracking an already-tracked address in any letter case succeeds, adds no key, and the entry becomes the new config (new channel, new filters, cursor at the current head) |
| Registry.TrackThenUntrack | bot.py:107-122 | after track, untrack in any letter case removes the address, and restores the original registry when the address was new |
| Registry.UntrackIdempotent | bot.py:120-125 | a second untrack of the same address removes nothing |
| Monitor.AdvanceEntry | bot.py:77-80 | an entry's cursor becomes max(old, head), and nothing else in the entry changes |
| Monitor.Advance | bot.py:76-80 | the key set is unchanged and every cursor becomes max(old, head) |
| Monitor.Cycle | bot.py:73-84 | a cycle never changes the key set or lowers a cursor, touches only the entries it scans, and changes nothing when the head read raises |
| Monitor.RunCycle | bot.py:76-80 | visiting entries one by one in any order gives cursor max(old, head) for each entry, scans exactly the entries whose cursor is below the head, and ends in the same registry and scanned set as the one-step cycle |
| Monitor.CycleIdempotent | bot.py:76-80 | a second cycle at the same head changes nothing and scans nothing |
| Monitor.CyclePreservesWellFormed | bot.py:76-80 | cycles keep keys lower-case and equal to their entry's address |
| Monitor.CursorsFollowHighestHead | bot.py:72-84 | over any run of cycles the key set is unchanged and each cursor ends at the highest of its start and the heads read, so it never decreases |

## Left out

- Provider selection, the Alchemy/public RPC fallback and the connectivity check (bot.py:19-54) are left out. They are network I/O.
- Discord command plumbing and reply texts, `!list` and `!test` (bot.py:113-115, 127-194) are left out. They are chat I/O. The replies of `!track` and `!untrack` are kept only as outcome tags.
- `check_new_transactions` (bot.py:86-88) is an empty stub. The model only records which addresses it is called for.
- The endless `while True` loop, `asyncio.sleep` and the 5-second back-off (bot.py:72-84) are left out. So is a change to `tracking_configs` while a cycle is iterating it. Only single cycles and finite runs of cycles are modelled.
- `_get_token_info` (transaction_handler.py:110-129) is a function parameter. It returns the three token fields, or `None` where the source returns an empty dictionary. The checksum conversion and contract calls inside it are not modelled.
- The `get_transaction`, `get_transaction_receipt` and `get_block` calls are left out. The transaction, the receipt and a timestamp lookup are inputs. A failed timestamp lookup gives `None`, like the source's exception handler. A failed transaction or receipt fetch is not represented, since those records are inputs.
- FilterEngine.AmountFilterRejectsExactly: compares exact rationals, not Python floats. Float rounding, `inf` and `nan` thresholds are not modelled. A `min_amount` that `float()` refuses is modelled as `NotNumeric`, which raises.
- Text.Lower: lower-cases ASCII `A`–`Z` only. Python's full Unicode case mapping is not modelled. Addresses are ASCII hex.
- JSON decoding of the filter text is an abstract parameter. It yields an error, `null`, or a filter object whose `token_address` is a string or not, and whose `min_amount` is numeric or not. Filter JSON that decodes to a list, number or string is not modelled.
- `w3.is_address` is an abstract parameter.
- `notification_handler.py` is presentation only: embed colours, titles and address truncation. Only the four kind tags carry over, as the `Kind` datatype.
- Debug `print` calls are left out.
- Handler.ProcessTransaction: assumes the `json.dumps` calls inside the `try` block never raise. Line 49's call does raise for any non-zero value, because `from_wei` returns a `Decimal`; `Handler.ProcessTransactionAsWritten` models that, see Findings. The calls at lines 22, 25 and 56 serialise the node's transaction and receipt records and the token info. Whether they raise depends on the node library's record types, which are not part of this model.

## Findings

| source | as written | input that shows it | evidently intended | confidence | as-written member | corrected member |
|---|---|---|---|---|---|---|
| transaction_handler.py:49 | the debug `json.dumps(notification)` runs inside the `try`; `notification['value']` is the `Decimal` from `from_wei` (line 43), which `json.dumps` cannot serialise, so the handler returns None | a transfer of 1.5 ether, status 1, that passes a `min_amount` of 1.0 | the record is returned; the debug line must not change the result | medium, not executed: relies on `from_wei` returning `Decimal` for non-zero amounts and on `json.dumps` refusing `Decimal` | Handler.OneAndAHalfEtherAsWritten | Handler.OneAndAHalfEther |
