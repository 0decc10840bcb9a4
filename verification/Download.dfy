/** Block download: a resolver that plans and requests, handlers that receive, one thread that adds.
    Each method is one critical section; `Run` interleaves them in any order. */
module Download {
  import opened Primitives
  import opened Headers

  const BLOCK_DOWNLOAD_WINDOW: nat := 1024
  const MAX_BLOCKS_PER_PEER: nat := 16

  type Addr = nat

  datatype Peer = Peer(requested: set<BlockHash>, disconnected: bool)

  datatype Job = AddBlock(hash: BlockHash) | AttachEntry(hash: BlockHash)

  datatype Plan = NoPlan | Planned(addr: Addr, hashes: seq<BlockHash>)

  /** What all tasks share.  `queue` is the channel to the adding thread, `replies` are the answers
      not yet taken, `waiting` says which peer's handler waits for which block. */
  datatype Net = Net(
    peers: map<Addr, Peer>, requested: map<BlockHash, Addr>, verifying: set<BlockHash>, downloaded: set<BlockHash>,
    queue: seq<Job>, replies: map<BlockHash, bool>, waiting: map<Addr, BlockHash>, plan: Plan)

  predicate InFlight(n: Net, h: BlockHash, a: Addr) {
    a in n.peers && h in n.peers[a].requested
  }

  /** The global map says who was asked for what, and so do the peers. */
  ghost predicate MapsAgree(n: Net) {
    forall h, a {:trigger InFlight(n, h, a)} :: InFlight(n, h, a) <==> h in n.requested && n.requested[h] == a
  }

  predicate Queued(n: Net, h: BlockHash) {
    AddBlock(h) in n.queue
  }

  /** Nothing is in flight that is being verified or there already. */
  ghost predicate FlightIsNew(n: Net) {
    forall h :: h in n.requested ==> h !in n.verifying && h !in n.downloaded
  }

  /** Blocks in the queue are being verified, not there yet, and there once. */
  ghost predicate QueueIsNew(n: Net) {
    && (forall h {:trigger Queued(n, h)} :: Queued(n, h) ==> h in n.verifying && h !in n.downloaded && h !in n.replies)
    && (forall i, j :: 0 <= i < j < |n.queue| && n.queue[i].AddBlock? ==> n.queue[i] != n.queue[j])
  }

  /** A block that was added with success is there, one that failed is still marked. */
  ghost predicate RepliesHold(n: Net) {
    forall h :: h in n.replies ==> if n.replies[h] then h in n.downloaded else h in n.verifying
  }

  /** Who waits, waits for a block of its own that is being verified, and that is queued or answered. */
  ghost predicate WaitersHold(n: Net) {
    && (forall a :: a in n.waiting ==>
          n.waiting[a] in n.verifying && (Queued(n, n.waiting[a]) || n.waiting[a] in n.replies))
    && (forall a, b :: a in n.waiting && b in n.waiting && n.waiting[a] == n.waiting[b] ==> a == b)
  }

  predicate WithinLimit(n: Net, a: Addr)
    requires a in n.peers
  {
    |n.peers[a].requested| + (if n.plan.Planned? && n.plan.addr == a then |n.plan.hashes| else 0) <= 16
  }

  ghost predicate LimitsHold(n: Net) {
    && (n.plan.Planned? ==> n.plan.addr in n.peers)
    && forall a {:trigger WithinLimit(n, a)} :: a in n.peers ==> WithinLimit(n, a)
  }

  ghost predicate Safe(n: Net) {
    MapsAgree(n) && FlightIsNew(n) && QueueIsNew(n) && RepliesHold(n) && WaitersHold(n) && LimitsHold(n)
  }

  // ---- What each critical section makes of it --------------------------------------------------

  function Joined(n: Net, a: Addr): Net {
    n.(peers := n.peers[a := Peer({}, false)])
  }

  /** One block is asked for, unless it is in flight, being verified or there. */
  function Asked(n: Net, a: Addr, h: BlockHash): Net
    requires a in n.peers
  {
    if h in n.verifying || h in n.requested || h in n.downloaded then n
    else n.(requested := n.requested[h := a],
            peers := n.peers[a := n.peers[a].(requested := n.peers[a].requested + {h})])
  }

  function AskedAll(n: Net, a: Addr, hs: seq<BlockHash>, k: nat): (m: Net)
    requires a in n.peers && k <= |hs|
    ensures m.peers.Keys == n.peers.Keys && m == n.(peers := m.peers, requested := m.requested)
    decreases k
  {
    if k == 0 then n else Asked(AskedAll(n, a, hs, k - 1), a, hs[k - 1])
  }

  function Received(n: Net, a: Addr, h: BlockHash): Net
    requires a in n.peers
  {
    n.(peers := n.peers[a := n.peers[a].(requested := n.peers[a].requested - {h})],
       requested := n.requested - {h},
       verifying := n.verifying + {h},
       queue := n.queue + [AddBlock(h)],
       waiting := n.waiting[a := h])
  }

  function Added(n: Net, stored: bool, good: bool): Net
    requires n.queue != []
  {
    var rest := n.(queue := n.queue[1..]);
    match n.queue[0]
    case AddBlock(h) => rest.(downloaded := if stored then n.downloaded + {h}
                              else n.downloaded, replies := n.replies[h := good])
    case AttachEntry(_) => rest
  }

  function Answered(n: Net, a: Addr): Net
    requires a in n.waiting && n.waiting[a] in n.replies
  {
    var h := n.waiting[a];
    n.(waiting := n.waiting - {a}, verifying := if n.replies[h] then n.verifying - {h} else n.verifying)
  }

  function Stopped(n: Net, a: Addr): Net
    requires a in n.peers
  {
    n.(peers := n.peers[a := n.peers[a].(disconnected := true)], waiting := n.waiting - {a})
  }

  function Drained(n: Net, a: Addr): Net
    requires a in n.peers
  {
    n.(requested := n.requested - n.peers[a].requested, peers := n.peers[a := n.peers[a].(requested := {})])
  }

  // ---- Each keeps the protocol safe --------------------------------------------------------------

  lemma FrameLimits(n: Net, m: Net)
    requires LimitsHold(n) && m.plan == n.plan && m.peers.Keys == n.peers.Keys
    requires forall a :: a in m.peers ==> m.peers[a].requested <= n.peers[a].requested
    ensures LimitsHold(m)
  {
    forall a | a in m.peers
      ensures WithinLimit(m, a)
    {
      assert WithinLimit(n, a);
      SmallerIsFewer(m.peers[a].requested, n.peers[a].requested);
    }
  }

  lemma {:induction false} SmallerIsFewer(a: set<BlockHash>, b: set<BlockHash>)
    requires a <= b
    ensures |a| <= |b|
  {
    if a != {} {
      var x :| x in a;
      SmallerIsFewer(a - {x}, b - {x});
    }
  }

  lemma JoiningIsSafe(n: Net, a: Addr)
    requires Safe(n) && a !in n.peers
    ensures Safe(Joined(n, a))
  {
    var m := Joined(n, a);
    forall h, b
      ensures InFlight(m, h, b) <==> h in m.requested && m.requested[h] == b
    {
      assert InFlight(n, h, b) <==> h in n.requested && n.requested[h] == b;
    }
    forall h | Queued(m, h)
      ensures h in m.verifying && h !in m.downloaded && h !in m.replies
    {
      assert Queued(n, h);
    }
    forall b | b in m.peers
      ensures WithinLimit(m, b)
    {
      assert b != a ==> WithinLimit(n, b);
    }
  }

  /** Asking for one more block keeps everything but, perhaps, the limit of the peer that is asked. */
  lemma AskingIsSafe(n: Net, a: Addr, h: BlockHash)
    requires MapsAgree(n) && FlightIsNew(n) && QueueIsNew(n) && a in n.peers
    ensures var m := Asked(n, a, h); MapsAgree(m) && FlightIsNew(m) && QueueIsNew(m)
    ensures var m := Asked(n, a, h);
            && |m.peers[a].requested| <= |n.peers[a].requested| + 1
            && forall b :: b in m.peers && b != a ==> m.peers[b] == n.peers[b]
  {
    var m := Asked(n, a, h);
    forall g, b
      ensures InFlight(m, g, b) <==> g in m.requested && m.requested[g] == b
    {
      assert InFlight(n, g, b) <==> g in n.requested && n.requested[g] == b;
    }
    forall g | Queued(m, g)
      ensures g in m.verifying && g !in m.downloaded && g !in m.replies
    {
      assert Queued(n, g);
    }
  }

  lemma {:induction false} AskingAllIsSafe(n: Net, a: Addr, hs: seq<BlockHash>, k: nat)
    requires MapsAgree(n) && FlightIsNew(n) && QueueIsNew(n) && a in n.peers && k <= |hs|
    ensures var m := AskedAll(n, a, hs, k); MapsAgree(m) && FlightIsNew(m) && QueueIsNew(m)
    ensures var m := AskedAll(n, a, hs, k);
            && |m.peers[a].requested| <= |n.peers[a].requested| + k
            && forall b :: b in m.peers && b != a ==> m.peers[b] == n.peers[b]
    decreases k
  {
    if k > 0 {
      AskingAllIsSafe(n, a, hs, k - 1);
      AskingIsSafe(AskedAll(n, a, hs, k - 1), a, hs[k - 1]);
    }
  }

  /** Carrying out the plan stays within the limit it was made for. */
  lemma RequestingIsSafe(n: Net)
    requires Safe(n) && n.plan.Planned?
    ensures n.plan.addr in n.peers
    ensures Safe(n.(plan := NoPlan))
    ensures Safe(AskedAll(n.(plan := NoPlan), n.plan.addr, n.plan.hashes, |n.plan.hashes|))
  {
    var a, hs := n.plan.addr, n.plan.hashes;
    var idle := n.(plan := NoPlan);
    var m := AskedAll(idle, a, hs, |hs|);
    forall h, b
      ensures InFlight(idle, h, b) <==> h in idle.requested && idle.requested[h] == b
    {
      assert InFlight(n, h, b) <==> h in n.requested && n.requested[h] == b;
    }
    QueueFrame(n, idle);
    AskingAllIsSafe(idle, a, hs, |hs|);
    forall b | b in n.peers
      ensures WithinLimit(m, b) && WithinLimit(idle, b)
    {
      assert WithinLimit(n, b);
    }
    QueueFrame(n, m);
  }

  lemma QueueFrame(n: Net, m: Net)
    requires QueueIsNew(n) && WaitersHold(n)
    requires m.queue == n.queue && m.verifying == n.verifying && m.downloaded == n.downloaded && m.replies == n.replies
    requires m.waiting.Keys <= n.waiting.Keys && forall a :: a in m.waiting ==> m.waiting[a] == n.waiting[a]
    ensures QueueIsNew(m) && WaitersHold(m)
  {
    forall h
      ensures Queued(m, h) <==> Queued(n, h)
    {
    }
  }

  lemma ReceivingIsSafe(n: Net, a: Addr, h: BlockHash)
    requires Safe(n) && a in n.peers && h in n.peers[a].requested && a !in n.waiting
    ensures h in n.requested && h !in n.verifying
    ensures Safe(Received(n, a, h))
  {
    var m := Received(n, a, h);
    assert InFlight(n, h, a);
    forall g, b
      ensures InFlight(m, g, b) <==> g in m.requested && m.requested[g] == b
    {
      assert InFlight(n, g, b) <==> g in n.requested && n.requested[g] == b;
    }
    assert !Queued(n, h);
    forall g
      ensures Queued(m, g) <==> Queued(n, g) || g == h
    {
      assert m.queue[|n.queue|] == AddBlock(h);
    }
    RepliesAreVerified(n, h);
    FrameLimits(n, m);
  }

  /** Nothing that is in flight has an answer waiting. */
  lemma RepliesAreVerified(n: Net, h: BlockHash)
    requires Safe(n) && h in n.requested
    ensures h !in n.replies
  {
  }

  /** The thread that adds never meets a block that is there already. */
  lemma AddingIsSafe(n: Net, stored: bool, good: bool)
    requires Safe(n) && n.queue != [] && (good ==> stored)
    ensures n.queue[0].AddBlock? ==> n.queue[0].hash !in n.downloaded
    ensures Safe(Added(n, stored, good))
  {
    var m := Added(n, stored, good);
    FrameLimits(n, m);
    forall h, b
      ensures InFlight(m, h, b) <==> h in m.requested && m.requested[h] == b
    {
      assert InFlight(n, h, b) <==> h in n.requested && n.requested[h] == b;
    }
    if n.queue[0].AddBlock? {
      assert Queued(n, n.queue[0].hash);
    }
    HeadLeaves(n, m);
  }

  /** Taking the first job off the queue takes exactly that block off. */
  lemma HeadLeaves(n: Net, m: Net)
    requires n.queue != [] && m.queue == n.queue[1..]
    requires forall i, j :: 0 <= i < j < |n.queue| && n.queue[i].AddBlock? ==> n.queue[i] != n.queue[j]
    ensures forall h :: Queued(n, h) <==> Queued(m, h) || n.queue[0] == AddBlock(h)
    ensures forall h :: Queued(m, h) ==> n.queue[0] != AddBlock(h)
    ensures forall i, j :: 0 <= i < j < |m.queue| && m.queue[i].AddBlock? ==> m.queue[i] != m.queue[j]
  {
    forall h
      ensures Queued(n, h) <==> Queued(m, h) || n.queue[0] == AddBlock(h)
      ensures Queued(m, h) ==> n.queue[0] != AddBlock(h)
    {
      if Queued(m, h) {
        var i :| 0 <= i < |m.queue| && m.queue[i] == AddBlock(h);
        assert n.queue[i + 1] == AddBlock(h);
      }
      assert n.queue == [n.queue[0]] + m.queue;
    }
  }

  lemma AttachingIsSafe(n: Net, h: BlockHash)
    requires Safe(n)
    ensures Safe(n.(queue := n.queue + [AttachEntry(h)]))
  {
    var m := n.(queue := n.queue + [AttachEntry(h)]);
    FrameLimits(n, m);
    forall g, b
      ensures InFlight(m, g, b) <==> g in m.requested && m.requested[g] == b
    {
      assert InFlight(n, g, b) <==> g in n.requested && n.requested[g] == b;
    }
    forall g
      ensures Queued(m, g) <==> Queued(n, g)
    {
    }
  }

  lemma AnsweringIsSafe(n: Net, a: Addr)
    requires Safe(n) && a in n.waiting && n.waiting[a] in n.replies
    ensures Safe(Answered(n, a))
  {
    var m := Answered(n, a);
    FrameLimits(n, m);
    forall h, b
      ensures InFlight(m, h, b) <==> h in m.requested && m.requested[h] == b
    {
      assert InFlight(n, h, b) <==> h in n.requested && n.requested[h] == b;
    }
    forall h
      ensures Queued(m, h) <==> Queued(n, h)
    {
    }
  }

  lemma StoppingIsSafe(n: Net, a: Addr)
    requires Safe(n) && a in n.peers
    ensures Safe(Stopped(n, a))
  {
    var m := Stopped(n, a);
    FrameLimits(n, m);
    forall h, b
      ensures InFlight(m, h, b) <==> h in m.requested && m.requested[h] == b
    {
      assert InFlight(n, h, b) <==> h in n.requested && n.requested[h] == b;
    }
    QueueFrame(n, m);
  }

  /** A peer that goes leaves nothing in flight behind. */
  lemma DrainingIsSafe(n: Net, a: Addr)
    requires Safe(n) && a in n.peers
    ensures Safe(Drained(n, a))
    ensures forall h :: h in Drained(n, a).requested <==> h in n.requested && n.requested[h] != a
  {
    var m := Drained(n, a);
    FrameLimits(n, m);
    forall h
      ensures h in m.requested <==> h in n.requested && n.requested[h] != a
    {
      assert InFlight(n, h, a) <==> h in n.requested && n.requested[h] == a;
    }
    forall h, b
      ensures InFlight(m, h, b) <==> h in m.requested && m.requested[h] == b
    {
      assert InFlight(n, h, b) <==> h in n.requested && n.requested[h] == b;
    }
    QueueFrame(n, m);
  }

  lemma PlanningIsSafe(n: Net, a: Addr, hs: seq<BlockHash>)
    requires Safe(n) && n.plan == NoPlan && a in n.peers && |hs| + |n.peers[a].requested| <= MAX_BLOCKS_PER_PEER
    ensures Safe(n.(plan := Planned(a, hs)))
  {
    var m := n.(plan := Planned(a, hs));
    forall h, b
      ensures InFlight(m, h, b) <==> h in m.requested && m.requested[h] == b
    {
      assert InFlight(n, h, b) <==> h in n.requested && n.requested[h] == b;
    }
    forall b | b in m.peers
      ensures WithinLimit(m, b)
    {
      assert WithinLimit(n, b);
    }
    QueueFrame(n, m);
  }

  // ---- Marks that stay ----------------------------------------------------------------------------

  /** `h` is marked as being verified and nothing will unmark it: no handler waits for it any more,
      or its handler will be told that it failed. */
  predicate Stuck(n: Net, h: BlockHash) {
    h in n.verifying && (h !in n.waiting.Values || (h in n.replies && !n.replies[h]))
  }

  ghost predicate StuckStays(n: Net, m: Net) {
    forall h {:trigger Stuck(n, h)} {:trigger Stuck(m, h)} :: Stuck(n, h) ==> Stuck(m, h)
  }

  /** What is stuck is not in flight, and the planner neither asks for it nor notes it, even when it is there. */
  lemma StuckIsLeftAlone(n: Net, h: BlockHash, l: Look, entry: ChainEntry, end: nat)
    requires Safe(n) && Stuck(n, h) && l.verifying == n.verifying && entry.hash == h
    ensures h !in n.requested && !CanAsk(l, entry) && !CanAttach(l, entry)
    ensures Judge(l, entry, end) != ToAsk && Judge(l, entry, end) != Saved
  {
  }

  lemma ReceivingKeepsStuck(n: Net, a: Addr, h: BlockHash)
    requires Safe(n) && a in n.peers && h in n.peers[a].requested && a !in n.waiting
    ensures StuckStays(n, Received(n, a, h))
  {
    var m := Received(n, a, h);
    ReceivingIsSafe(n, a, h);
    assert forall b :: b in m.waiting ==>
             (b == a && m.waiting[b] == h) || (b in n.waiting && n.waiting[b] == m.waiting[b]);
  }

  lemma AddingKeepsStuck(n: Net, stored: bool, good: bool)
    requires Safe(n) && n.queue != []
    ensures StuckStays(n, Added(n, stored, good))
  {
    if n.queue[0].AddBlock? {
      assert Queued(n, n.queue[0].hash);
    }
  }

  /** An answer unmarks a block exactly when it is a good one. */
  lemma AnsweringUnmarks(n: Net, a: Addr)
    requires Safe(n) && a in n.waiting && n.waiting[a] in n.replies
    ensures StuckStays(n, Answered(n, a))
    ensures n.waiting[a] !in Answered(n, a).verifying <==> n.replies[n.waiting[a]]
  {
    var m := Answered(n, a);
    assert forall b :: b in m.waiting ==> b in n.waiting && n.waiting[b] == m.waiting[b];
  }

  /** A handler that is dropped while it waits leaves its block stuck. */
  lemma StoppingSticks(n: Net, a: Addr)
    requires Safe(n) && a in n.peers
    ensures StuckStays(n, Stopped(n, a))
    ensures a in n.waiting ==> Stuck(Stopped(n, a), n.waiting[a])
  {
    var m := Stopped(n, a);
    assert forall b :: b in m.waiting ==> b in n.waiting && b != a && n.waiting[b] == m.waiting[b];
  }

  // ---- The plan --------------------------------------------------------------------------------

  /** What the planner looks at, under the locks. */
  datatype Look = Look(index: Index, requested: map<BlockHash, Addr>, verifying: set<BlockHash>,
                       downloaded: set<BlockHash>, invalid: set<BlockHash>)
  {
    /** The block needs no request: in flight, on the main chain, being verified or there. */
    predicate Taken(h: BlockHash)
      requires h in index.entries
    {
      h in requested || IsMainChain(index, index.entries[h]) || h in verifying || h in downloaded
    }
  }

  /** `items` are blocks to ask for on the way to `best`, above `low` and up to `high`, in order. */
  ghost predicate WorthAsking(l: Look, best: BlockHash, low: nat, high: nat, items: seq<BlockHash>, at: seq<nat>) {
    && |at| == |items|
    && (forall i :: 0 <= i < |items| ==> low < at[i] <= high && items[i] == AncestorAt(l.index.entries, best, at[i]))
    && (forall i :: 0 <= i < |items| ==> items[i] in l.index.entries && !l.Taken(items[i]) && items[i] !in l.invalid)
    && (forall i, j :: 0 <= i < j < |at| ==> at[i] < at[j])
  }

  predicate Settled(l: Look, best: BlockHash, k: nat, items: seq<BlockHash>) {
    var h := AncestorAt(l.index.entries, best, k);
    h in l.index.entries && (h in items || l.Taken(h))
  }

  /** Every block above `low` up to `high` is asked for or needs no request. */
  ghost predicate SettledUpTo(l: Look, best: BlockHash, low: nat, high: nat, items: seq<BlockHash>) {
    forall k: nat {:trigger Settled(l, best, k, items)} :: low < k <= high ==> Settled(l, best, k, items)
  }

  /** The block is there, neither in flight nor invalid nor being verified, and not on the main chain. */
  predicate CanAttach(l: Look, entry: ChainEntry) {
    && entry.hash in l.downloaded && entry.hash !in l.requested && entry.hash !in l.invalid
    && entry.hash !in l.verifying && !IsMainChain(l.index, entry)
  }

  /** Nothing is known of the block and nothing is under way. */
  predicate CanAsk(l: Look, entry: ChainEntry) {
    && entry.hash !in l.downloaded && entry.hash !in l.requested && entry.hash !in l.invalid
    && entry.hash !in l.verifying && !IsMainChain(l.index, entry)
  }

  /** A block at height `k` that can be attached was noted. */
  predicate Noted(l: Look, best: BlockHash, k: nat, saved: seq<ChainEntry>) {
    var h := AncestorAt(l.index.entries, best, k);
    h in l.index.entries && (CanAttach(l, l.index.entries[h]) ==> l.index.entries[h] in saved)
  }

  ghost predicate NotedUpTo(l: Look, best: BlockHash, low: nat, high: nat, saved: seq<ChainEntry>) {
    forall k: nat {:trigger Noted(l, best, k, saved)} :: low < k <= high ==> Noted(l, best, k, saved)
  }

  lemma NoteOneMore(l: Look, best: BlockHash, low: nat, k: nat, saved: seq<ChainEntry>, more: seq<ChainEntry>)
    requires NotedUpTo(l, best, low, k, saved) && low <= k
    requires forall e :: e in saved ==> e in more
    requires Noted(l, best, k + 1, more)
    ensures NotedUpTo(l, best, low, k + 1, more)
  {
    forall j: nat | low < j <= k + 1
      ensures Noted(l, best, j, more)
    {
      assert j <= k ==> Noted(l, best, j, saved);
    }
  }

  /** `last` is on the way to `best`, and above `low` it is on the main chain. */
  predicate LastInCommon(l: Look, best: BlockHash, low: nat, seen: nat, last: ChainEntry) {
    && last.hash in l.index.entries && l.index.entries[last.hash] == last
    && low <= last.height <= seen && last.hash == AncestorAt(l.index.entries, best, last.height)
    && (low < last.height ==> IsMainChain(l.index, last))
  }

  /** The block at height `k` is not found on the main chain above `last`. */
  predicate NoMainAbove(l: Look, best: BlockHash, k: nat, last: ChainEntry) {
    var h := AncestorAt(l.index.entries, best, k);
    && h in l.index.entries
    && (IsMainChain(l.index, l.index.entries[h]) && h !in l.requested && h !in l.invalid ==> k <= last.height)
  }

  ghost predicate MainUpTo(l: Look, best: BlockHash, low: nat, high: nat, last: ChainEntry) {
    forall k: nat {:trigger NoMainAbove(l, best, k, last)} :: low < k <= high ==>
        NoMainAbove(l, best, k, last)
  }

  lemma MainOneMore(l: Look, best: BlockHash, low: nat, k: nat, last: ChainEntry, last': ChainEntry)
    requires MainUpTo(l, best, low, k, last) && low <= k && last.height <= last'.height
    requires NoMainAbove(l, best, k + 1, last')
    ensures MainUpTo(l, best, low, k + 1, last')
  {
    forall j: nat | low < j <= k + 1
      ensures NoMainAbove(l, best, j, last')
    {
      assert j <= k ==> NoMainAbove(l, best, j, last);
    }
  }

  lemma MainStays(l: Look, best: BlockHash, low: nat, high: nat, last: ChainEntry, last': ChainEntry)
    requires MainUpTo(l, best, low, high, last) && last.height <= last'.height
    ensures MainUpTo(l, best, low, high, last')
  {
    forall j: nat | low < j <= high
      ensures NoMainAbove(l, best, j, last')
    {
      assert NoMainAbove(l, best, j, last);
    }
  }

  /** Who was asked for the lowest block in flight above `low` and up to `high`. */
  function FirstAsked(l: Look, best: BlockHash, low: nat, high: nat): Option<Addr>
    decreases high
  {
    if high <= low then None
    else
      var below := FirstAsked(l, best, low, high - 1);
      var h := AncestorAt(l.index.entries, best, high);
      if below.Some? then below else if h in l.requested then Some(l.requested[h]) else None
  }

  /** The peer that holds up the window: whoever was asked for its lowest block in flight, if the
      block behind the window could be asked for and nothing within is left to ask of `addr`. */
  ghost predicate HoldsUp(l: Look, best: BlockHash, low: nat, end: nat, addr: Addr, next: ChainEntry,
                          items: seq<BlockHash>, staller: Option<Addr>) {
    CanAsk(l, next) && items == [] ==>
      staller == if FirstAsked(l, best, low, end) == Some(addr) then None else FirstAsked(l, best, low, end)
  }

  lemma SettleOneMore(l: Look, best: BlockHash, low: nat, k: nat, items: seq<BlockHash>, more: seq<BlockHash>)
    requires SettledUpTo(l, best, low, k, items) && low <= k
    requires forall h :: h in items ==> h in more
    requires Settled(l, best, k + 1, more)
    ensures SettledUpTo(l, best, low, k + 1, more)
  {
    forall j: nat | low < j <= k + 1
      ensures Settled(l, best, j, more)
    {
      assert j <= k ==> Settled(l, best, j, items);
    }
  }

  /** What looking at one entry leads to. */
  datatype Verdict = InFlightFrom(addr: Addr) | Invalid | OnMain | Verifying | Saved | BeyondWindow | ToAsk

  function Judge(l: Look, entry: ChainEntry, end: nat): Verdict {
    if entry.hash in l.requested then InFlightFrom(l.requested[entry.hash])
    else if entry.hash in l.invalid then Invalid
    else if IsMainChain(l.index, entry) then OnMain
    else if entry.hash in l.verifying then Verifying
    else if entry.hash in l.downloaded then Saved
    else if entry.height > end then BeyondWindow
    else ToAsk
  }

  function Least(a: nat, b: nat): (least: nat)
    ensures least <= a && least <= b && least in {a, b}
  {
    if a < b then a else b
  }

  ghost predicate SoFar(seen: nat) {
    true
  }

  /** How far the plan has come.  The quantifier keeps it folded wherever it is only passed on;
      `PlanningMeans` opens it. */
  ghost predicate Planning(l: Look, best: BlockHash, low: nat, end: nat, seen: nat, items: seq<BlockHash>, at: seq<nat>,
                           saved: seq<ChainEntry>, last: ChainEntry) {
    forall s: nat {:trigger SoFar(s)} :: SoFar(s) && s == seen ==>
        PlannedTo(l, best, low, end, s, items, at, saved, last)
  }

  lemma PlanningMeans(l: Look, best: BlockHash, low: nat, end: nat, seen: nat, items: seq<BlockHash>, at: seq<nat>,
                      saved: seq<ChainEntry>, last: ChainEntry)
    ensures Planning(l, best, low, end, seen, items, at, saved, last) <==>
              PlannedTo(l, best, low, end, seen, items, at, saved, last)
  {
    assert SoFar(seen);
  }

  /** `seen` is the last height looked at. */
  ghost predicate PlannedTo(l: Look, best: BlockHash, low: nat, end: nat, seen: nat, items: seq<BlockHash>,
                            at: seq<nat>, saved: seq<ChainEntry>, last: ChainEntry) {
    && low <= seen && low <= end
    && WorthAsking(l, best, low, end, items, at)
    && (at != [] ==> at[|at| - 1] <= seen)
    && SettledUpTo(l, best, low, Least(seen, end), items)
    && NotedUpTo(l, best, low, Least(seen, end), saved) && AllSaved(l, best, low, seen, saved)
    && LastInCommon(l, best, low, seen, last) && MainUpTo(l, best, low, Least(seen, end), last)
  }

  /** `entry` is the one at its height on the way to `best`. */
  predicate OnWay(l: Look, best: BlockHash, entry: ChainEntry) {
    && entry.hash in l.index.entries && l.index.entries[entry.hash] == entry
    && entry.hash == AncestorAt(l.index.entries, best, entry.height)
  }

  /** `saved` are blocks on the way to `best` above `low` and up to `high` that can be attached, lowest first. */
  ghost predicate AllSaved(l: Look, best: BlockHash, low: nat, high: nat, saved: seq<ChainEntry>) {
    && (forall i :: 0 <= i < |saved| ==> CanAttach(l, saved[i]) && OnWay(l, best, saved[i]))
    && (forall i :: 0 <= i < |saved| ==> low < saved[i].height <= high)
    && (forall i, j :: 0 <= i < j < |saved| ==> saved[i].height < saved[j].height)
  }

  lemma SavedOneMore(l: Look, best: BlockHash, low: nat, high: nat, saved: seq<ChainEntry>, entry: ChainEntry)
    requires AllSaved(l, best, low, high, saved) && low <= high && entry.height == high + 1
    requires CanAttach(l, entry) && OnWay(l, best, entry)
    ensures AllSaved(l, best, low, high + 1, saved + [entry]) && entry in saved + [entry]
  {
    assert (saved + [entry])[|saved|] == entry;
  }

  /** One entry further along: it is asked for, or it needs no request, or it is out of the window. */
  lemma PlanOneMore(l: Look, best: BlockHash, low: nat, end: nat, seen: nat, items: seq<BlockHash>, at: seq<nat>,
                    saved: seq<ChainEntry>, last: ChainEntry, entry: ChainEntry)
    requires Planning(l, best, low, end, seen, items, at, saved, last)
    requires entry.hash in l.index.entries && l.index.entries[entry.hash] == entry
    requires entry.height == seen + 1 && entry.hash == AncestorAt(l.index.entries, best, seen + 1)
    ensures low <= seen
    ensures match Judge(l, entry, end)
            case ToAsk => Planning(l, best, low, end, seen + 1, items + [entry.hash], at + [seen + 1], saved, last)
            case Saved => Planning(l, best, low, end, seen + 1, items, at, saved + [entry], last)
            case Invalid => true
            case OnMain => Planning(l, best, low, end, seen + 1, items, at, saved, entry)
            case _ => Planning(l, best, low, end, seen + 1, items, at, saved, last)
  {
    PlanningMeans(l, best, low, end, seen, items, at, saved, last);
    match Judge(l, entry, end)
    case ToAsk =>
      AskedOneMore(l, best, low, end, seen, items, at, entry);
      PlanAdvances(l, best, low, end, seen, items, at, saved, last, items + [entry.hash], at + [seen + 1], saved, last,
                   entry);
    case Saved =>
      SavedOneMore(l, best, low, seen, saved, entry);
      PlanAdvances(l, best, low, end, seen, items, at, saved, last, items, at, saved + [entry], last, entry);
    case OnMain =>
      PlanAdvances(l, best, low, end, seen, items, at, saved, last, items, at, saved, entry, entry);
    case Invalid =>
    case _ =>
      PlanAdvances(l, best, low, end, seen, items, at, saved, last, items, at, saved, last, entry);
  }

  lemma AskedOneMore(l: Look, best: BlockHash, low: nat, end: nat, seen: nat, items: seq<BlockHash>, at: seq<nat>,
                     entry: ChainEntry)
    requires WorthAsking(l, best, low, end, items, at) && (at != [] ==> at[|at| - 1] <= seen) && low <= seen
    requires entry.hash in l.index.entries && l.index.entries[entry.hash] == entry && Judge(l, entry, end) == ToAsk
    requires entry.height == seen + 1 && entry.hash == AncestorAt(l.index.entries, best, seen + 1)
    ensures WorthAsking(l, best, low, end, items + [entry.hash], at + [seen + 1])
    ensures entry.hash in items + [entry.hash]
  {
    assert (items + [entry.hash])[|items|] == entry.hash;
  }

  /** The plan with what one more entry makes of it. */
  lemma PlanAdvances(l: Look, best: BlockHash, low: nat, end: nat, seen: nat, items: seq<BlockHash>, at: seq<nat>,
                     saved: seq<ChainEntry>, last: ChainEntry,
                     items': seq<BlockHash>, at': seq<nat>, saved': seq<ChainEntry>, last': ChainEntry,
                       entry: ChainEntry)
    requires PlannedTo(l, best, low, end, seen, items, at, saved, last)
    requires entry.hash in l.index.entries && l.index.entries[entry.hash] == entry
    requires entry.height == seen + 1 && entry.hash == AncestorAt(l.index.entries, best, seen + 1)
    requires WorthAsking(l, best, low, end, items', at') && (at' != [] ==> at'[|at'| - 1] <= seen + 1)
    requires (forall h :: h in items ==> h in items') && (forall e :: e in saved ==> e in saved')
    requires AllSaved(l, best, low, seen + 1, saved')
    requires LastInCommon(l, best, low, seen + 1, last') && last.height <= last'.height
    requires seen < end ==> entry.hash in items' || l.Taken(entry.hash)
    requires CanAttach(l, entry) ==> entry in saved'
    requires Judge(l, entry, end) == OnMain ==> last' == entry
    ensures Planning(l, best, low, end, seen + 1, items', at', saved', last')
  {
    if seen < end {
      SettleOneMore(l, best, low, seen, items, items');
      NoteOneMore(l, best, low, seen, saved, saved');
      MainOneMore(l, best, low, seen, last, last');
    } else {
      SettledStays(l, best, low, end, items, items');
      NotedStays(l, best, low, end, saved, saved');
      MainStays(l, best, low, end, last, last');
    }
    PlanningMeans(l, best, low, end, seen + 1, items', at', saved', last');
  }

  lemma SettledStays(l: Look, best: BlockHash, low: nat, high: nat, items: seq<BlockHash>, more: seq<BlockHash>)
    requires SettledUpTo(l, best, low, high, items) && forall h :: h in items ==> h in more
    ensures SettledUpTo(l, best, low, high, more)
  {
    forall j: nat | low < j <= high
      ensures Settled(l, best, j, more)
    {
      assert Settled(l, best, j, items);
    }
  }

  lemma NotedStays(l: Look, best: BlockHash, low: nat, end: nat, saved: seq<ChainEntry>, more: seq<ChainEntry>)
    requires NotedUpTo(l, best, low, end, saved) && forall e :: e in saved ==> e in more
    ensures NotedUpTo(l, best, low, end, more)
  {
    forall j: nat | low < j <= end
      ensures Noted(l, best, j, more)
    {
      assert Noted(l, best, j, saved);
    }
  }

  /** Beyond the window nothing is left to settle. */
  lemma PlanSkips(l: Look, best: BlockHash, low: nat, end: nat, seen: nat, further: nat, items: seq<BlockHash>,
                  at: seq<nat>, saved: seq<ChainEntry>, last: ChainEntry)
    requires Planning(l, best, low, end, seen, items, at, saved, last) && end <= seen <= further
    ensures Planning(l, best, low, end, further, items, at, saved, last)
  {
    PlanningMeans(l, best, low, end, seen, items, at, saved, last);
    PlanningMeans(l, best, low, end, further, items, at, saved, last);
  }

  lemma PlanIsWorthAsking(l: Look, best: BlockHash, low: nat, end: nat, seen: nat, items: seq<BlockHash>, at: seq<nat>,
                          saved: seq<ChainEntry>, last: ChainEntry)
    requires Planning(l, best, low, end, seen, items, at, saved, last)
    ensures WorthAsking(l, best, low, end, items, at)
    ensures SettledUpTo(l, best, low, Least(seen, end), items)
    ensures NotedUpTo(l, best, low, Least(seen, end), saved) && AllSaved(l, best, low, seen, saved)
    ensures LastInCommon(l, best, low, seen, last) && MainUpTo(l, best, low, Least(seen, end), last)
  {
    PlanningMeans(l, best, low, end, seen, items, at, saved, last);
  }

  /** `entries` lie on the way to `best`, one after the other above height `seen`. */
  ghost predicate InLine(t: Entries, best: BlockHash, seen: nat, entries: seq<ChainEntry>) {
    forall j :: 0 <= j < |entries| ==>
      && entries[j].hash in t && t[entries[j].hash] == entries[j]
      && entries[j].height == seen + 1 + j && entries[j].hash == AncestorAt(t, best, seen + 1 + j)
  }

  datatype Scanned = GoOn | Filled | MetInvalid

  /** Up to the last height asked for nothing is passed over that should not be. */
  ghost predicate FullPlan(l: Look, best: BlockHash, low: nat, end: nat, items: seq<BlockHash>, at: seq<nat>,
                           saved: seq<ChainEntry>, last: ChainEntry) {
    && at != [] && WorthAsking(l, best, low, end, items, at)
    && SettledUpTo(l, best, low, at[|at| - 1], items) && NotedUpTo(l, best, low, at[|at| - 1], saved)
    && MainUpTo(l, best, low, at[|at| - 1], last)
  }

  /** The block at height `k` on the way to `best` is invalid and not asked for. */
  predicate InvalidAt(l: Look, best: BlockHash, k: nat) {
    AncestorAt(l.index.entries, best, k) in l.invalid && AncestorAt(l.index.entries, best, k) !in l.requested
  }

  lemma PlanIsFull(l: Look, best: BlockHash, low: nat, end: nat, seen: nat, items: seq<BlockHash>, at: seq<nat>,
                   saved: seq<ChainEntry>, last: ChainEntry)
    requires Planning(l, best, low, end, seen, items, at, saved, last) && at != [] && at[|at| - 1] == seen <= end
    ensures FullPlan(l, best, low, end, items, at, saved, last)
  {
    PlanIsWorthAsking(l, best, low, end, seen, items, at, saved, last);
  }

  /** Before entry `j` of a stretch: who was asked first up to there; behind the window only `addr`
      may hold it up, or the scan would have ended. */
  ghost predicate Waits(l: Look, best: BlockHash, low: nat, end: nat, addr: Addr, seen: nat, entries: seq<ChainEntry>,
                        j: nat, items: seq<BlockHash>, waiting: Option<Addr>) {
    && (seen + j <= end ==> waiting == FirstAsked(l, best, low, seen + j))
    && (seen <= end < seen + j && end - seen < |entries| && CanAsk(l, entries[end - seen]) && items == [] ==>
          waiting == Some(addr) == FirstAsked(l, best, low, end))
  }

  lemma WaitsOneMore(l: Look, best: BlockHash, low: nat, end: nat, addr: Addr, seen: nat, entries: seq<ChainEntry>,
                     j: nat, items: seq<BlockHash>, waiting: Option<Addr>)
    requires InLine(l.index.entries, best, seen, entries) && j < |entries| && low <= seen + j
    requires Waits(l, best, low, end, addr, seen, entries, j, items, waiting)
    ensures match Judge(l, entries[j], end)
            case InFlightFrom(other) =>
              var first := if waiting.None? then Some(other) else waiting;
              Waits(l, best, low, end, addr, seen, entries, j + 1, items, first)
            case ToAsk => Waits(l, best, low, end, addr, seen, entries, j + 1, items + [entries[j].hash], waiting)
            case BeyondWindow =>
              if items == [] && waiting != Some(addr) then
                seen <= end ==> HoldsUp(l, best, low, end, addr, entries[end - seen], items, waiting)
              else Waits(l, best, low, end, addr, seen, entries, j + 1, items, waiting)
            case _ => Waits(l, best, low, end, addr, seen, entries, j + 1, items, waiting)
  {
  }

  /** A scan that is before entry `j` of its stretch; folded like `Planning`. */
  ghost predicate Scanning(l: Look, best: BlockHash, low: nat, end: nat, addr: Addr, fetch: nat, seen: nat,
                           entries: seq<ChainEntry>, j: nat, items: seq<BlockHash>, at: seq<nat>,
                           saved: seq<ChainEntry>, last: ChainEntry, waiting: Option<Addr>) {
    forall s: nat {:trigger SoFar(s)} :: SoFar(s) && s == seen + j ==>
      && |items| < fetch && low <= s
      && Planning(l, best, low, end, s, items, at, saved, last)
      && Waits(l, best, low, end, addr, seen, entries, j, items, waiting)
  }

  lemma ScanningMeans(l: Look, best: BlockHash, low: nat, end: nat, addr: Addr, fetch: nat, seen: nat,
                      entries: seq<ChainEntry>, j: nat, items: seq<BlockHash>, at: seq<nat>,
                      saved: seq<ChainEntry>, last: ChainEntry, waiting: Option<Addr>)
    ensures Scanning(l, best, low, end, addr, fetch, seen, entries, j, items, at, saved, last, waiting) <==>
            && |items| < fetch && low <= seen + j
            && Planning(l, best, low, end, seen + j, items, at, saved, last)
            && Waits(l, best, low, end, addr, seen, entries, j, items, waiting)
  {
    assert SoFar(seen + j);
  }

  /** What the scan of a stretch is worth, by how it ended. */
  ghost predicate ScanEnds(l: Look, best: BlockHash, low: nat, end: nat, addr: Addr, fetch: nat, seen: nat,
                           entries: seq<ChainEntry>, items: seq<BlockHash>, at: seq<nat>, saved: seq<ChainEntry>,
                           last: ChainEntry, waiting: Option<Addr>, staller: Option<Addr>, how: Scanned) {
    var upTo := seen + |entries|;
    && AllSaved(l, best, low, upTo, saved) && LastInCommon(l, best, low, upTo, last)
    && (staller.Some? ==> items == [] && staller != Some(addr) && how == GoOn)
    && match how
       case Filled => |items| == fetch && FullPlan(l, best, low, end, items, at, saved, last)
       case MetInvalid => |items| < fetch && exists k: nat :: seen < k <= upTo && InvalidAt(l, best, k)
       case GoOn =>
         && |items| < fetch && Planning(l, best, low, end, upTo, items, at, saved, last)
         && (upTo <= end ==> waiting == FirstAsked(l, best, low, upTo) && staller == None)
         && (seen <= end < upTo ==> HoldsUp(l, best, low, end, addr, entries[end - seen], items, staller))
  }

  /** One entry: the scan goes on, or it ends with it. */
  lemma ScanOneMore(l: Look, best: BlockHash, low: nat, end: nat, addr: Addr, fetch: nat, seen: nat,
                    entries: seq<ChainEntry>, j: nat, items: seq<BlockHash>, at: seq<nat>,
                    saved: seq<ChainEntry>, last: ChainEntry, waiting: Option<Addr>)
    requires Scanning(l, best, low, end, addr, fetch, seen, entries, j, items, at, saved, last, waiting)
    requires InLine(l.index.entries, best, seen, entries) && j < |entries|
    ensures var e := entries[j];
            match Judge(l, e, end)
            case InFlightFrom(other) =>
              var first := if waiting.None? then Some(other) else waiting;
              Scanning(l, best, low, end, addr, fetch, seen, entries, j + 1, items, at, saved, last, first)
            case Invalid =>
              ScanEnds(l, best, low, end, addr, fetch, seen, entries, items, at, saved, last, waiting, None, MetInvalid)
            case OnMain => Scanning(l, best, low, end, addr, fetch, seen, entries, j + 1, items, at, saved, e, waiting)
            case Verifying =>
              Scanning(l, best, low, end, addr, fetch, seen, entries, j + 1, items, at, saved, last, waiting)
            case Saved =>
              Scanning(l, best, low, end, addr, fetch, seen, entries, j + 1, items, at, saved + [e], last, waiting)
            case BeyondWindow =>
              if items == [] && waiting != Some(addr) then
                ScanEnds(l, best, low, end, addr, fetch, seen, entries, items, at, saved, last, waiting, waiting, GoOn)
              else Scanning(l, best, low, end, addr, fetch, seen, entries, j + 1, items, at, saved, last, waiting)
            case ToAsk =>
              var more, heights := items + [e.hash], at + [seen + j + 1];
              if |more| >= fetch then
                ScanEnds(
                  l, best, low, end, addr, fetch, seen, entries, more, heights, saved, last, waiting, None, Filled)
              else Scanning(l, best, low, end, addr, fetch, seen, entries, j + 1, more, heights, saved, last, waiting)
  {
    var e := entries[j];
    ScanningMeans(l, best, low, end, addr, fetch, seen, entries, j, items, at, saved, last, waiting);
    PlanOneMore(l, best, low, end, seen + j, items, at, saved, last, e);
    WaitsOneMore(l, best, low, end, addr, seen, entries, j, items, waiting);
    match Judge(l, e, end)
    case InFlightFrom(other) =>
      var first := if waiting.None? then Some(other) else waiting;
      ScanningMeans(l, best, low, end, addr, fetch, seen, entries, j + 1, items, at, saved, last, first);
    case Invalid =>
      PlanIsWorthAsking(l, best, low, end, seen + j, items, at, saved, last);
      assert InvalidAt(l, best, seen + 1 + j);
    case OnMain =>
      ScanningMeans(l, best, low, end, addr, fetch, seen, entries, j + 1, items, at, saved, e, waiting);
    case Saved =>
      ScanningMeans(l, best, low, end, addr, fetch, seen, entries, j + 1, items, at, saved + [e], last, waiting);
    case BeyondWindow =>
      if items == [] && waiting != Some(addr) {
        PlanSkips(l, best, low, end, seen + j + 1, seen + |entries|, items, at, saved, last);
        PlanIsWorthAsking(l, best, low, end, seen + |entries|, items, at, saved, last);
      } else {
        ScanningMeans(l, best, low, end, addr, fetch, seen, entries, j + 1, items, at, saved, last, waiting);
      }
    case ToAsk =>
      var more, heights := items + [e.hash], at + [seen + j + 1];
      PlanIsWorthAsking(l, best, low, end, seen + j + 1, more, heights, saved, last);
      if |more| >= fetch {
        PlanIsFull(l, best, low, end, seen + j + 1, more, heights, saved, last);
      } else {
        ScanningMeans(l, best, low, end, addr, fetch, seen, entries, j + 1, more, heights, saved, last, waiting);
      }
    case Verifying =>
      ScanningMeans(l, best, low, end, addr, fetch, seen, entries, j + 1, items, at, saved, last, waiting);
  }

  lemma ScanIsOver(l: Look, best: BlockHash, low: nat, end: nat, addr: Addr, fetch: nat, seen: nat,
                   entries: seq<ChainEntry>, items: seq<BlockHash>, at: seq<nat>,
                   saved: seq<ChainEntry>, last: ChainEntry, waiting: Option<Addr>)
    requires Scanning(l, best, low, end, addr, fetch, seen, entries, |entries|, items, at, saved, last, waiting)
    ensures ScanEnds(l, best, low, end, addr, fetch, seen, entries, items, at, saved, last, waiting, None, GoOn)
  {
    ScanningMeans(l, best, low, end, addr, fetch, seen, entries, |entries|, items, at, saved, last, waiting);
    PlanIsWorthAsking(l, best, low, end, seen + |entries|, items, at, saved, last);
  }

  /** Looks at a stretch of entries, lowest first. */
  method Scan(l: Look, entries: seq<ChainEntry>, addr: Addr, end: nat, fetch: nat, items0: seq<BlockHash>,
              saved0: seq<ChainEntry>, waiting0: Option<Addr>, last0: ChainEntry,
              ghost best: BlockHash, ghost low: nat, ghost seen: nat, ghost at0: seq<nat>)
    returns (items: seq<BlockHash>, saved: seq<ChainEntry>, waiting: Option<Addr>, last: ChainEntry,
             staller: Option<Addr>, how: Scanned, ghost at: seq<nat>)
    requires |items0| < fetch && low <= seen
    requires seen <= end ==> waiting0 == FirstAsked(l, best, low, seen)
    requires Planning(l, best, low, end, seen, items0, at0, saved0, last0)
    requires InLine(l.index.entries, best, seen, entries)
    ensures ScanEnds(l, best, low, end, addr, fetch, seen, entries, items, at, saved, last, waiting, staller, how)
  {
    items, saved, waiting, last, staller, how, at := items0, saved0, waiting0, last0, None, GoOn, at0;
    ScanningMeans(l, best, low, end, addr, fetch, seen, entries, 0, items, at, saved, last, waiting);
    for j := 0 to |entries|
      invariant staller == None && how == GoOn && |items| < fetch
      invariant Scanning(l, best, low, end, addr, fetch, seen, entries, j, items, at, saved, last, waiting)
    {
      var entry := entries[j];
      ScanOneMore(l, best, low, end, addr, fetch, seen, entries, j, items, at, saved, last, waiting);
      if entry.hash in l.requested {
        if waiting.None? {
          waiting := Some(l.requested[entry.hash]);
        }
        continue;
      }
      if entry.hash in l.invalid {
        how := MetInvalid;
        return;
      }
      if IsMainChain(l.index, entry) {
        last := entry;
        continue;
      }
      if entry.hash in l.verifying {
        continue;
      }
      if entry.hash in l.downloaded {
        saved := saved + [entry];
        continue;
      }
      if entry.height > end {
        if items == [] && waiting != Some(addr) {
          staller := waiting;
          return;
        }
      } else {
        items := items + [entry.hash];
        at := at + [seen + j + 1];
      }
      if |items| >= fetch {
        how := Filled;
        return;
      }
    }
    ScanIsOver(l, best, low, end, addr, fetch, seen, entries, items, at, saved, last, waiting);
  }

  /** Plans which blocks on the way to `best` to ask the peer `addr` for, above what it has in
      common with this node; `last` is what it is known to have in common now.  A full
      plan passes nothing over below its last block; an invalid block ends the plan with nothing asked;
      otherwise nothing within the window is left out, and it says who holds the window up. */
  method GetNextBlocks(l: Look, known: ChainEntry, best: ChainEntry, addr: Addr, inFlight: nat,
                       ghost genesis: BlockHash, ghost tip: BlockHash)
    returns (items: seq<BlockHash>, saved: seq<ChainEntry>, staller: Option<Addr>, common: nat, last: ChainEntry,
             how: Scanned, ghost at: seq<nat>)
    requires IndexOk(l.index, genesis, tip)
    requires known.hash in l.index.entries && l.index.entries[known.hash] == known
    requires best.hash in l.index.entries && l.index.entries[best.hash] == best
    ensures if inFlight >= 16 then items == [] && saved == [] && staller == None && last == known
            else
              && common <= best.height && AncestorAt(l.index.entries, known.hash, common) ==
                   AncestorAt(l.index.entries, best.hash, common)
              && (forall k :: common < k <= known.height && k <= best.height ==>
                    AncestorAt(l.index.entries, known.hash, k) != AncestorAt(l.index.entries, best.hash, k))
              && PlanFrom(l, best, common, addr, 16 - inFlight, items, at, saved, last, staller, how)
  {
    items, saved, staller, how, at := [], [], None, Filled, [];
    common, last := 0, known;
    if inFlight >= MAX_BLOCKS_PER_PEER {
      return;
    }
    var start := CommonAncestor(l.index, known, best, genesis, tip);
    common, last := start.value.height, start.value;
    FirstPlan(l, best.hash, common, common + BLOCK_DOWNLOAD_WINDOW, last);
    ReadableMeans(l.index, best, genesis, tip);
    items, saved, staller, last, how, at :=
      PlanAbove(l, best, last, addr, MAX_BLOCKS_PER_PEER - inFlight, genesis, tip);
  }

  lemma FirstPlan(l: Look, best: BlockHash, low: nat, end: nat, last: ChainEntry)
    requires low <= end && LastInCommon(l, best, low, low, last)
    ensures Planning(l, best, low, end, low, [], [], [], last)
  {
    PlanningMeans(l, best, low, end, low, [], [], [], last);
  }

  /** The index is in order and has `best`; folded like `Planning`. */
  ghost predicate Readable(index: Index, best: ChainEntry, genesis: BlockHash, tip: BlockHash) {
    forall s: nat {:trigger SoFar(s)} :: SoFar(s) && s == best.height ==>
      IndexOk(index, genesis, tip) && best.hash in index.entries && index.entries[best.hash] == best
  }

  lemma ReadableMeans(index: Index, best: ChainEntry, genesis: BlockHash, tip: BlockHash)
    ensures Readable(index, best, genesis, tip) <==>
            IndexOk(index, genesis, tip) && best.hash in index.entries && index.entries[best.hash] == best
  {
    assert SoFar(best.height);
  }

  /** The next entries on the way to `best` above height `seen`. */
  method NextStretch(index: Index, best: ChainEntry, seen: nat, ghost genesis: BlockHash, ghost tip: BlockHash)
    returns (entries: seq<ChainEntry>)
    requires Readable(index, best, genesis, tip) && seen < best.height
    ensures InLine(index.entries, best.hash, seen, entries) && 0 < |entries| <= best.height - seen
  {
    ReadableMeans(index, best, genesis, tip);
    entries := GetNextPath(index, best, seen, MAX_BLOCKS_PER_PEER, genesis, tip);
    EntriesAreInLine(index.entries, genesis, best, seen, entries);
  }

  /** Plans above `walker`, stretch by stretch, up to one block behind the window. */
  method PlanAbove(l: Look, best: ChainEntry, start: ChainEntry, addr: Addr, fetch: nat, ghost genesis: BlockHash,
                   ghost tip: BlockHash)
    returns (items: seq<BlockHash>, saved: seq<ChainEntry>, staller: Option<Addr>, last: ChainEntry, how: Scanned,
             ghost at: seq<nat>)
    requires Readable(l.index, best, genesis, tip) && start.height <= best.height && fetch > 0
    requires Planning(l, best.hash, start.height, start.height + BLOCK_DOWNLOAD_WINDOW, start.height, [], [], [], start)
    ensures PlanFrom(l, best, start.height, addr, fetch, items, at, saved, last, staller, how)
  {
    var low, end := start.height, start.height + BLOCK_DOWNLOAD_WINDOW;
    var top := Least(best.height, end + 1);
    items, saved, staller, last, how, at := [], [], None, start, GoOn, [];
    var walker := start;
    var waiting: Option<Addr> := None;
    while walker.height < top
      invariant low <= walker.height <= best.height
      invariant |items| < fetch && AllSaved(l, best.hash, low, walker.height, saved)
      invariant Planning(l, best.hash, low, end, walker.height, items, at, saved, last)
      invariant StallerSoFar(l, best.hash, low, end, walker.height, addr, items, waiting, staller)
      decreases top - walker.height
    {
      var entries := NextStretch(l.index, best, walker.height, genesis, tip);
      ghost var seen := walker.height;
      items, saved, waiting, last, staller, how, at :=
        Scan(l, entries, addr, end, fetch, items, saved, waiting, last, best.hash, low, walker.height, at);
      if how == MetInvalid {
        return [], [], None, last, MetInvalid, [];
      }
      if how == Filled {
        return;
      }
      walker := entries[|entries| - 1];
      StallerAfter(l, best.hash, low, end, seen, addr, items, waiting, staller, entries);
    }
    PlanEnds(l, best, low, end, walker.height, addr, items, at, saved, last, waiting, staller);
    how := GoOn;
  }

  /** What a plan above height `low` for at most `fetch` blocks is worth, by how it ended. */
  ghost predicate PlanFrom(l: Look, best: ChainEntry, low: nat, addr: Addr, fetch: nat, items: seq<BlockHash>,
                           at: seq<nat>, saved: seq<ChainEntry>,
                           last: ChainEntry, staller: Option<Addr>, how: Scanned) {
    var end := low + 1024;
    && |items| <= fetch && WorthAsking(l, best.hash, low, end, items, at)
    && (staller.Some? ==> items == [] && staller != Some(addr))
    && AllSaved(l, best.hash, low, best.height, saved) && LastInCommon(l, best.hash, low, best.height, last)
    && match how
       case GoOn => NothingLeftOut(l, best, low, end, addr, items, saved, last, staller)
       case Filled => |items| == fetch && FullPlan(l, best.hash, low, end, items, at, saved, last)
       case MetInvalid =>
         items == [] && saved == [] && exists k: nat :: low < k <= best.height && InvalidAt(l, best.hash, k)
  }

  /** Within the window every block is asked for or needs no request, every one that can be attached
      is noted, `last` is the highest in common, and it is clear who holds the window up. */
  ghost predicate NothingLeftOut(l: Look, best: ChainEntry, low: nat, end: nat, addr: Addr, items: seq<BlockHash>,
                                 saved: seq<ChainEntry>, last: ChainEntry, staller: Option<Addr>) {
    && SettledUpTo(l, best.hash, low, Least(best.height, end), items)
    && NotedUpTo(l, best.hash, low, Least(best.height, end), saved)
    && MainUpTo(l, best.hash, low, Least(best.height, end), last)
    && (best.height > end ==> StallerFound(l, best.hash, low, end, addr, items, staller))
  }

  lemma PlanEnds(l: Look, best: ChainEntry, low: nat, end: nat, seen: nat, addr: Addr, items: seq<BlockHash>,
                 at: seq<nat>, saved: seq<ChainEntry>, last: ChainEntry,
                 waiting: Option<Addr>, staller: Option<Addr>)
    requires Planning(l, best.hash, low, end, seen, items, at, saved, last)
             && StallerSoFar(l, best.hash, low, end, seen, addr, items, waiting, staller)
    requires Least(best.height, end + 1) <= seen <= best.height
    ensures WorthAsking(l, best.hash, low, end, items, at) && LastInCommon(l, best.hash, low, best.height, last)
    ensures NothingLeftOut(l, best, low, end, addr, items, saved, last, staller)
  {
    PlanIsWorthAsking(l, best.hash, low, end, seen, items, at, saved, last);
  }

  /** Up to height `seen` it is known who was asked first; beyond the window, who holds it up. */
  ghost predicate StallerSoFar(l: Look, best: BlockHash, low: nat, end: nat, seen: nat, addr: Addr,
                               items: seq<BlockHash>, waiting: Option<Addr>, staller: Option<Addr>) {
    && (seen <= end ==> waiting == FirstAsked(l, best, low, seen) && staller == None)
    && (seen > end ==> StallerFound(l, best, low, end, addr, items, staller))
    && (staller.Some? ==> items == [] && staller != Some(addr))
  }

  lemma StallerAfter(l: Look, best: BlockHash, low: nat, end: nat, seen: nat, addr: Addr, items: seq<BlockHash>,
                     waiting: Option<Addr>, staller: Option<Addr>, entries: seq<ChainEntry>)
    requires seen <= end && entries != [] && InLine(l.index.entries, best, seen, entries)
    requires seen + |entries| <= end ==> waiting == FirstAsked(l, best, low, seen + |entries|) && staller == None
    requires end < seen + |entries| ==> HoldsUp(l, best, low, end, addr, entries[end - seen], items, staller)
    requires staller.Some? ==> items == [] && staller != Some(addr)
    ensures StallerSoFar(l, best, low, end, seen + |entries|, addr, items, waiting, staller)
  {
    if end < seen + |entries| {
      assert entries[end - seen].hash == AncestorAt(l.index.entries, best, end + 1);
    }
  }

  ghost predicate StallerFound(l: Look, best: BlockHash, low: nat, end: nat, addr: Addr, items: seq<BlockHash>,
                               staller: Option<Addr>) {
    var h := AncestorAt(l.index.entries, best, end + 1);
    h in l.index.entries && HoldsUp(l, best, low, end, addr, l.index.entries[h], items, staller)
  }

  lemma EntriesAreInLine(t: Entries, genesis: BlockHash, best: ChainEntry, height: nat, entries: seq<ChainEntry>)
    requires TreeOk(t, genesis) && best.hash in t && t[best.hash] == best && height + |entries| <= best.height
    requires forall i :: 0 <= i < |entries| ==>
               entries[i].hash in t && entries[i] == t[entries[i].hash]
               && entries[i].hash == AncestorAt(t, best.hash, height + 1 + i)
    ensures InLine(t, best.hash, height, entries)
  {
    forall i | 0 <= i < |entries|
      ensures entries[i].height == height + 1 + i
    {
      AncestorExists(t, genesis, best.hash, height + 1 + i);
    }
  }

  // ---- The tasks -------------------------------------------------------------------------------

  datatype Step =
    | Join(addr: Addr)
    | MakePlan(addr: Addr, hashes: seq<BlockHash>)
    | Request
    | Receive(addr: Addr, hash: BlockHash)
    | Add(stored: bool, good: bool)
    | Answer(addr: Addr)
    | Attach(hash: BlockHash)
    | Stop(addr: Addr)
    | Leave(addr: Addr)

  class PeerManager {
    var peers: map<Addr, Peer>
    var requestedBlocks: map<BlockHash, Addr>
    var verifying: set<BlockHash>
    var downloaded: set<BlockHash>
    var queue: seq<Job>
    var replies: map<BlockHash, bool>
    var waiting: map<Addr, BlockHash>
    var plan: Plan

    ghost function View(): Net
      reads this
    {
      Net(peers, requestedBlocks, verifying, downloaded, queue, replies, waiting, plan)
    }

    constructor (stored: set<BlockHash>)
      ensures Safe(View()) && peers == map[] && downloaded == stored
    {
      peers, requestedBlocks, verifying, downloaded := map[], map[], {}, stored;
      queue, replies, waiting, plan := [], map[], map[], NoPlan;
    }

    /** Asks the planned peer for each planned block that is still wanted. */
    method GetBlock() returns (items: seq<BlockHash>)
      requires Safe(View()) && plan.Planned?
      modifies this
      ensures Safe(View())
      ensures var idle := old(View()).(plan := NoPlan); var a := old(plan).addr;
              View() == if a in idle.peers && !idle.peers[a].disconnected then
                AskedAll(idle, a, old(plan).hashes, |old(plan).hashes|) else idle
      ensures forall h :: h in items <==> h in requestedBlocks && h !in old(requestedBlocks)
    {
      items := [];
      var addr, hashes := plan.addr, plan.hashes;
      RequestingIsSafe(View());
      plan := NoPlan;
      if peers[addr].disconnected {
        return;
      }
      ghost var idle := View();
      for i := 0 to |hashes|
        invariant View() == AskedAll(idle, addr, hashes, i)
        invariant forall h :: h in items <==> h in requestedBlocks && h !in idle.requested
        invariant forall h :: h in idle.requested ==> h in requestedBlocks
      {
        var hash := hashes[i];
        if hash in verifying || hash in requestedBlocks || hash in downloaded {
          continue;
        }
        requestedBlocks := requestedBlocks[hash := addr];
        peers := peers[addr := peers[addr].(requested := peers[addr].requested + {hash})];
        items := items + [hash];
      }
    }

    /** Takes a block in and hands it to the thread that adds; refuses one that was not asked for. */
    method HandleBlock(addr: Addr, hash: BlockHash) returns (ok: bool)
      requires Safe(View()) && addr in peers && addr !in waiting
      modifies this
      ensures Safe(View())
      ensures ok <==> hash in old(peers)[addr].requested
      ensures View() == if ok then Received(old(View()), addr, hash) else old(View())
    {
      ok := hash in peers[addr].requested;
      if !ok {
        return;
      }
      ReceivingIsSafe(View(), addr, hash);
      peers := peers[addr := peers[addr].(requested := peers[addr].requested - {hash})];
      assert hash in requestedBlocks;
      requestedBlocks := requestedBlocks - {hash};
      assert hash !in verifying;
      verifying := verifying + {hash};
      queue := queue + [AddBlock(hash)];
      waiting := waiting[addr := hash];
    }

    /** The adding thread takes the next job.  `stored` and `good` are what the chain makes of a block. */
    method AddNext(stored: bool, good: bool)
      requires Safe(View()) && queue != [] && (good ==> stored)
      modifies this
      ensures Safe(View()) && View() == Added(old(View()), stored, good)
    {
      AddingIsSafe(View(), stored, good);
      var job := queue[0];
      queue := queue[1..];
      match job {
        case AddBlock(hash) =>
          assert hash !in downloaded;
          if stored {
            downloaded := downloaded + {hash};
          }
          replies := replies[hash := good];
        case AttachEntry(hash) =>
      }
    }

    /** The handler goes on once its block was added; on failure the block stays marked. */
    method HandleAnswer(addr: Addr) returns (ok: bool)
      requires Safe(View()) && addr in waiting && waiting[addr] in replies
      modifies this
      ensures Safe(View()) && View() == Answered(old(View()), addr)
      ensures ok == old(replies)[old(waiting)[addr]]
    {
      AnsweringIsSafe(View(), addr);
      var hash := waiting[addr];
      ok := replies[hash];
      waiting := waiting - {addr};
      if ok {
        verifying := verifying - {hash};
      }
    }

    /** A peer's connection ends; a handler that still waits is dropped with it. */
    method StopPeer(addr: Addr)
      requires Safe(View()) && addr in peers
      modifies this
      ensures Safe(View()) && View() == Stopped(old(View()), addr)
    {
      StoppingIsSafe(View(), addr);
      peers := peers[addr := peers[addr].(disconnected := true)];
      waiting := waiting - {addr};
    }

    /** Everything in flight from a peer that went may be asked for again. */
    method PeerDisconnected(addr: Addr)
      requires Safe(View()) && addr in peers
      modifies this
      ensures Safe(View()) && View() == Drained(old(View()), addr)
      ensures forall h :: h in requestedBlocks <==> h in old(requestedBlocks) && old(requestedBlocks)[h] != addr
    {
      DrainingIsSafe(View(), addr);
      var drained := peers[addr].requested;
      ghost var was := requestedBlocks;
      peers := peers[addr := peers[addr].(requested := {})];
      var left := drained;
      while left != {}
        invariant left <= drained && requestedBlocks == was - (drained - left)
        invariant View() == old(View()).(requested := requestedBlocks, peers := peers)
        invariant peers == old(peers)[addr := old(peers)[addr].(requested := {})]
        decreases left
      {
        var hash :| hash in left;
        requestedBlocks := requestedBlocks - {hash};
        left := left - {hash};
      }
      assert drained - left == drained;
    }

    /** Takes one step of one task, if it can be taken now. */
    method Take(step: Step)
      requires Safe(View())
      modifies this
      ensures Safe(View()) && StuckStays(old(View()), View())
    {
      match step {
        case Join(addr) =>
          if addr !in peers {
            JoiningIsSafe(View(), addr);
            peers := peers[addr := Peer({}, false)];
          }
        case MakePlan(addr, hashes) =>
          if plan == NoPlan && addr in peers && |hashes| + |peers[addr].requested| <= MAX_BLOCKS_PER_PEER {
            PlanningIsSafe(View(), addr, hashes);
            plan := Planned(addr, hashes);
          }
        case Request =>
          if plan.Planned? {
            var items := GetBlock();
          }
        case Receive(addr, hash) =>
          if addr in peers && addr !in waiting && !peers[addr].disconnected {
            var ok := HandleBlock(addr, hash);
            if ok {
              ReceivingKeepsStuck(old(View()), addr, hash);
            }
          }
        case Add(stored, good) =>
          if queue != [] && (good ==> stored) {
            AddingKeepsStuck(View(), stored, good);
            AddNext(stored, good);
          }
        case Answer(addr) =>
          if addr in waiting && waiting[addr] in replies {
            AnsweringUnmarks(View(), addr);
            var ok := HandleAnswer(addr);
          }
        case Attach(hash) =>
          AttachingIsSafe(View(), hash);
          queue := queue + [AttachEntry(hash)];
        case Stop(addr) =>
          if addr in peers {
            StoppingSticks(View(), addr);
            StopPeer(addr);
          }
        case Leave(addr) =>
          if addr in peers && peers[addr].disconnected {
            PeerDisconnected(addr);
          }
      }
    }

    /** Every interleaving of the tasks stays safe, and what is stuck stays so. */
    method Run(steps: seq<Step>)
      requires Safe(View())
      modifies this
      ensures Safe(View()) && StuckStays(old(View()), View())
    {
      for i := 0 to |steps|
        invariant Safe(View()) && StuckStays(old(View()), View())
      {
        ghost var before := View();
        Take(steps[i]);
        StuckGoesOn(old(View()), before, View());
      }
    }

    /** A marked block that is not stuck can be unmarked: its handler waits, and when the adding
        thread has come to it with success, the answer unmarks it. */
    method Finish(hash: BlockHash)
      requires Safe(View()) && hash in verifying && !Stuck(View(), hash)
      modifies this
      ensures Safe(View()) && hash !in verifying && hash in downloaded
    {
      var addr :| addr in waiting && waiting[addr] == hash;
      while hash !in replies
        invariant Safe(View()) && addr in waiting && waiting[addr] == hash && hash in verifying
        invariant hash in replies ==> replies[hash]
        decreases |queue|
      {
        assert Queued(View(), hash);
        AddNext(true, true);
      }
      var ok := HandleAnswer(addr);
    }
  }

  lemma StuckGoesOn(n: Net, m: Net, o: Net)
    requires StuckStays(n, m) && StuckStays(m, o)
    ensures StuckStays(n, o)
  {
    forall h | Stuck(n, h)
      ensures Stuck(o, h)
    {
      assert Stuck(m, h);
    }
  }
}
