/** One pass of `monitor_addresses`: read the chain head, call the
    (empty) `check_new_transactions` hook for every entry behind the head,
    and move that entry's cursor up to the head. */
module Monitor {
  import opened Optional
  import opened Registry

  function Max(a: nat, b: nat): nat {
    if a >= b then a else b
  }

  /** The cursor step for one entry: written only when the head is strictly
      ahead of it. */
  function AdvanceEntry(c: Config, head: nat): (c': Config)
    ensures c'.lastBlock == Max(c.lastBlock, head)
    ensures c' == c.(lastBlock := c'.lastBlock)
  {
    if head > c.lastBlock then c.(lastBlock := head) else c
  }

  /** The cursor step applied to every entry. */
  function Advance(reg: Registry, head: nat): (r: Registry)
    ensures r.Keys == reg.Keys
    ensures forall k :: k in r ==> r[k] == reg[k].(lastBlock := Max(reg[k].lastBlock, head))
  {
    map k | k in reg :: AdvanceEntry(reg[k], head)
  }

  /** The entries for which the cycle calls the block-scanning hook. */
  function Behind(reg: Registry, head: nat): set<string>
  {
    set k | k in reg && head > reg[k].lastBlock
  }

  datatype CycleResult = CycleResult(registry: Registry, scanned: set<string>)

  /** A whole cycle. `head` is the block number read at its start; `None`
      stands for that read raising, after which the loop only sleeps. */
  function Cycle(reg: Registry, head: Option<nat>): (r: CycleResult)
    ensures r.registry.Keys == reg.Keys
    ensures r.scanned <= reg.Keys
    ensures forall k :: k in reg ==> r.registry[k].lastBlock >= reg[k].lastBlock
    ensures head.None? ==> r.registry == reg && r.scanned == {}
    ensures forall k :: k in reg && k !in r.scanned ==> r.registry[k] == reg[k]
  {
    match head
    case None => CycleResult(reg, {})
    case Some(h) => CycleResult(Advance(reg, h), Behind(reg, h))
  }

  /** The cycle as the loop runs it, one entry at a time in some order.
      Its outcome does not depend on that order. */
  method RunCycle(reg: Registry, head: nat) returns (reg': Registry, scanned: set<string>)
    ensures reg'.Keys == reg.Keys
    ensures forall k :: k in reg ==> reg'[k].lastBlock == Max(reg[k].lastBlock, head)
    ensures forall k :: k in reg ==> reg'[k] == reg[k].(lastBlock := reg'[k].lastBlock)
    ensures forall k :: k in scanned <==> k in reg && reg[k].lastBlock < head
    ensures reg' == Cycle(reg, Some(head)).registry && scanned == Cycle(reg, Some(head)).scanned
  {
    reg' := reg;
    scanned := {};
    var todo := reg.Keys;
    while todo != {}
      invariant todo <= reg.Keys
      invariant reg'.Keys == reg.Keys
      invariant forall k :: k in reg && k !in todo ==> reg'[k] == AdvanceEntry(reg[k], head)
      invariant forall k :: k in todo ==> reg'[k] == reg[k]
      invariant forall k :: k in scanned <==> k in reg && k !in todo && reg[k].lastBlock < head
      decreases todo
    {
      var k :| k in todo;
      if head > reg'[k].lastBlock {
        scanned := scanned + {k};
        reg' := reg'[k := reg'[k].(lastBlock := head)];
      }
      todo := todo - {k};
    }
  }

  /** Running the same cycle twice changes nothing the second time, and the
      second run scans nothing. */
  lemma CycleIdempotent(reg: Registry, head: nat)
    ensures Cycle(Cycle(reg, Some(head)).registry, Some(head)).registry == Cycle(reg, Some(head)).registry
    ensures Cycle(Cycle(reg, Some(head)).registry, Some(head)).scanned == {}
  {
  }

  /** The cycle keeps the registry well formed. */
  lemma CyclePreservesWellFormed(reg: Registry, head: Option<nat>)
    requires WellFormed(reg)
    ensures WellFormed(Cycle(reg, head).registry)
  {
  }

  /** Highest head among successful reads, or `floor` if none is higher. */
  function HighestHead(floor: nat, heads: seq<Option<nat>>): nat
    decreases |heads|
  {
    if heads == [] then floor
    else HighestHead(if heads[0].Some? then Max(floor, heads[0].value) else floor, heads[1..])
  }

  /** Several cycles in a row, with no command run in between. */
  function Cycles(reg: Registry, heads: seq<Option<nat>>): Registry
    decreases |heads|
  {
    if heads == [] then reg else Cycles(Cycle(reg, heads[0]).registry, heads[1..])
  }

  /** Over any run of cycles the set of tracked addresses is unchanged and
      each cursor ends at the highest of its start and the heads read, so
      no cursor ever moves down. */
  lemma {:induction false} CursorsFollowHighestHead(reg: Registry, heads: seq<Option<nat>>)
    ensures Cycles(reg, heads).Keys == reg.Keys
    ensures forall k :: k in reg ==>
              Cycles(reg, heads)[k] == reg[k].(lastBlock := HighestHead(reg[k].lastBlock, heads))
    ensures forall k :: k in reg ==> Cycles(reg, heads)[k].lastBlock >= reg[k].lastBlock
    decreases |heads|
  {
    if heads != [] {
      var next := Cycle(reg, heads[0]).registry;
      CursorsFollowHighestHead(next, heads[1..]);
      forall k | k in reg
        ensures Cycles(reg, heads)[k] == reg[k].(lastBlock := HighestHead(reg[k].lastBlock, heads))
      {
        assert next[k].lastBlock
            == (if heads[0].Some? then Max(reg[k].lastBlock, heads[0].value) else reg[k].lastBlock);
      }
      HighestHeadAtLeast(reg, heads);
    }
  }

  lemma {:induction false} HighestHeadGrows(floor: nat, heads: seq<Option<nat>>)
    ensures HighestHead(floor, heads) >= floor
    decreases |heads|
  {
    if heads != [] {
      HighestHeadGrows(if heads[0].Some? then Max(floor, heads[0].value) else floor, heads[1..]);
    }
  }

  lemma HighestHeadAtLeast(reg: Registry, heads: seq<Option<nat>>)
    ensures forall k :: k in reg ==> HighestHead(reg[k].lastBlock, heads) >= reg[k].lastBlock
  {
    forall k | k in reg
      ensures HighestHead(reg[k].lastBlock, heads) >= reg[k].lastBlock
    {
      HighestHeadGrows(reg[k].lastBlock, heads);
    }
  }
}
