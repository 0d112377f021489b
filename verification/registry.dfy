/** The `tracking_configs` dictionary of the bot and the effects of the
    `!track` and `!untrack` commands on it. */
module Registry {
  import opened Optional
  import opened Text
  import opened FilterEngine

  /** `TrackingConfig`: the address (lower-cased), the notification channel,
      the filters and the last block already looked at. */
  datatype Config = Config(address: string, channel: int, filters: Filters, lastBlock: nat)

  /** The registry, keyed by lower-cased address. */
  type Registry = map<string, Config>

  /** Every key is lower-case and is the address of its own entry. */
  predicate WellFormed(reg: Registry) {
    forall k :: k in reg ==> IsLower(k) && reg[k].address == k
  }

  /** `TrackingConfig(address, channel_id, filters)` built when the chain
      head is `head`: the address is lower-cased, missing filters (`None`)
      become the empty object, and the cursor starts at the head. */
  function NewConfig(address: string, channel: int, filters: Option<Filters>, head: nat): (c: Config)
    ensures IsLower(c.address) && SameIgnoringCase(c.address, address)
    ensures filters.None? ==> c.filters == NoFilters
    ensures filters.Some? ==> c.filters == filters.value
    ensures c.channel == channel && c.lastBlock == head
  {
    LowerIsLower(address);
    Config(Lower(address), channel, filters.GetOr(NoFilters), head)
  }

  /** What `json.loads` makes of the filter text: a decode error, or a
      filter object, where JSON `null` decodes to `None`. */
  datatype Decoded = DecodeError | Decoded(filters: Option<Filters>)

  /** The filter argument of `!track` as the command reads it: absent or
      empty text means no filters, otherwise the text is decoded. */
  function ReadFilters(filterText: Option<string>, decode: string -> Decoded): Decoded {
    if Truthy(filterText) then decode(filterText.value) else Decoded(Some(NoFilters))
  }

  /** The reply the command sends back, reduced to its outcome. */
  datatype TrackReply = Added | InvalidAddress | InvalidFilters | Failed

  datatype TrackResult = TrackResult(registry: Registry, reply: TrackReply)

  /** `!track address [filters]`. `isAddress` stands for `w3.is_address`,
      `decode` for `json.loads`, and `head` for the block number read while
      building the config (None when that read raises, which the command
      catches). On success the entry is stored under the lower-cased
      address, replacing any entry already there. */
  function Track(reg: Registry, address: string, channel: int, filterText: Option<string>,
                 isAddress: string -> bool, decode: string -> Decoded, head: Option<nat>): (r: TrackResult)
    ensures !isAddress(address) ==> r.reply == InvalidAddress
    ensures isAddress(address) && ReadFilters(filterText, decode).DecodeError? ==> r.reply == InvalidFilters
    ensures r.reply == Added
        <==> isAddress(address) && ReadFilters(filterText, decode).Decoded? && head.Some?
    ensures r.reply != Added ==> r.registry == reg
    ensures r.reply == Added ==>
              && r.registry.Keys == reg.Keys + {Lower(address)}
              && r.registry[Lower(address)]
                 == NewConfig(address, channel, ReadFilters(filterText, decode).filters, head.value)
    ensures forall k :: k in reg && k != Lower(address) ==> k in r.registry && r.registry[k] == reg[k]
    ensures WellFormed(reg) ==> WellFormed(r.registry)
  {
    if !isAddress(address) then TrackResult(reg, InvalidAddress)
    else match ReadFilters(filterText, decode)
      case DecodeError => TrackResult(reg, InvalidFilters)
      case Decoded(filters) =>
        match head
        case None => TrackResult(reg, Failed)
        case Some(h) =>
          LowerIsLower(address);
          TrackResult(reg[Lower(address) := NewConfig(Lower(address), channel, filters, h)], Added)
  }

  datatype UntrackResult = UntrackResult(registry: Registry, removed: bool)

  /** `!untrack address`: deletes the lower-cased key when present. */
  function Untrack(reg: Registry, address: string): (r: UntrackResult)
    ensures r.removed <==> Lower(address) in reg
    ensures r.registry.Keys == reg.Keys - {Lower(address)}
    ensures forall k :: k in r.registry ==> r.registry[k] == reg[k]
    ensures !r.removed ==> r.registry == reg
    ensures WellFormed(reg) ==> WellFormed(r.registry)
  {
    var key := Lower(address);
    if key in reg then UntrackResult(reg - {key}, true) else UntrackResult(reg, false)
  }

  /** Tracking an address that is already tracked, in any letter case,
      replaces its entry: the command succeeds and the number of entries
      stays the same. */
  lemma RetrackReplaces(reg: Registry, tracked: string, address: string, channel: int,
                        filterText: Option<string>, isAddress: string -> bool,
                        decode: string -> Decoded, head: nat)
    requires tracked in reg && SameIgnoringCase(address, tracked) && IsLower(tracked)
    requires isAddress(address) && ReadFilters(filterText, decode).Decoded?
    ensures Track(reg, address, channel, filterText, isAddress, decode, Some(head)).reply == Added
    ensures Track(reg, address, channel, filterText, isAddress, decode, Some(head)).registry.Keys == reg.Keys
    ensures Track(reg, address, channel, filterText, isAddress, decode, Some(head)).registry[tracked]
         == NewConfig(address, channel, ReadFilters(filterText, decode).filters, head)
  {
    LowerOfLower(tracked);
  }

  /** After a successful `!track a`, `!untrack b` with `b` equal to `a`
      ignoring case leaves the address untracked; if it was not tracked
      before, the registry is back to what it was. */
  lemma TrackThenUntrack(reg: Registry, a: string, b: string, channel: int,
                         filterText: Option<string>, isAddress: string -> bool,
                         decode: string -> Decoded, head: Option<nat>)
    requires SameIgnoringCase(a, b)
    requires Track(reg, a, channel, filterText, isAddress, decode, head).reply == Added
    ensures var u := Untrack(Track(reg, a, channel, filterText, isAddress, decode, head).registry, b);
            u.removed && Lower(a) !in u.registry
    ensures Lower(a) !in reg ==>
              Untrack(Track(reg, a, channel, filterText, isAddress, decode, head).registry, b).registry == reg
  {
  }

  /** Untracking twice is the same as untracking once. */
  lemma UntrackIdempotent(reg: Registry, address: string)
    ensures Untrack(Untrack(reg, address).registry, address).registry == Untrack(reg, address).registry
    ensures !Untrack(Untrack(reg, address).registry, address).removed
  {
  }
}
