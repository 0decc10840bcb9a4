/** The chain: headers and blocks come in, the heaviest complete branch is connected. */
module Chain {
  import opened Primitives
  import opened Coins
  import opened Checks
  import opened SkipList
  import opened Headers
  import opened MedianTime
  import opened Columns
  import opened ChainDb
  import opened HeaderColumns
  import opened Replay
  import opened BestChain
  import opened ChainInvariant
  import opened ChainSteps

  const MAX_FUTURE_BLOCK_TIME: nat := 2 * 60 * 60

  // ---- The chain ------------------------------------------------------------------------------

  class Chain {
    const db: ChainDb
    const rules: Rules
    var tip: ChainEntry
    var height: nat
    ghost const w: World

    ghost function Snap(): Snapshot
      reads this, db
    {
      Snapshot(db.disk, db.state, db.undos, db.blocks, db.downloaded, db.invalid, db.mostWork, tip)
    }

    ghost predicate Valid()
      reads this, db, db.cache
    {
      WorldOk(w) && w.rules == rules && db.InStep() && height == tip.height && Good(w, Snap())
    }

    /** Starts with an empty database: the genesis block is written and connected. */
    constructor Create(genesis: Block, theRules: Rules, ghost world: World)
      requires WorldOk(world) && world.rules == theRules && genesis == world.blockOf(world.genesis)
      ensures fresh(db) && fresh(db.cache) && w == world && Valid() && Snap() == FirstState(w)
    {
      rules, w := theRules, world;
      db := new ChainDb(EMPTY, map[], map[]);
      tip, height := FromBlockHeader(genesis.header, None), 0;
      new;
      assert BlockFine(w, w.genesis);
      db.SaveGenesis(tip, genesis);
      FirstIsGood(w);
      assert Snap() == FirstState(w);
    }

    /** Starts with what an earlier run, whose last state was `x`, left on disk. */
    constructor Reopen(d: Columns, blocks: map<BlockHash, Block>, undos: UndoStore, theRules: Rules, ghost world: World,
                       ghost x: Snapshot)
      requires WorldOk(world) && world.rules == theRules && Good(world, x)
      requires d == x.d && blocks == x.blocks && undos == x.undos && d.state == Some(x.s.Saved())
      ensures fresh(db) && fresh(db.cache) && w == world && Valid()
      ensures Snap() == x.(s := x.s.Saved(), invalid := {}, mostWork := db.mostWork)
      ensures x.mostWork.Some? && db.mostWork.Some? && db.mostWork.value.chainwork == x.mostWork.value.chainwork
    {
      GoodMeans(world, x);
      ReopenedIsReadable(world, x);
      rules, w := theRules, world;
      db := new ChainDb(d, blocks, undos);
      tip, height := d.entries[d.state.value.tip], d.entries[d.state.value.tip].height;
      new;
      db.Load();
      ReopeningIsGood(w, x, db.mostWork.value);
      ReopeningFindsMostWork(x.d, w.genesis, x.mostWork, db.mostWork.value);
    }

    /** The entry for a header behind a known one, and the median time it has to be later than. */
    method MakeEntry(header: Header) returns (entry: ChainEntry, prev: ChainEntry, median: nat)
      requires Valid() && MayAdd(w, db.disk.entries, header)
      ensures prev == db.disk.entries[header.prev] && entry == NewEntry(db.disk.entries, header, prev)
      ensures median == MedianTimePast(db.disk.entries, header.prev)
    {
      GoodMeans(w, Snap());
      var index := db.cache.Value();
      prev := index.entries[header.prev];
      assert Placed(index.entries, w.genesis, header.prev);
      entry := FromBlockHeader(header, Some(prev));
      var skip, hops := GetAncestor(index, prev, GetSkipHeight(entry.height), index.entries, w.genesis, tip.hash);
      entry := entry.(skip := skip.hash);
      median := GetMedianTime(index.entries, prev);
    }

    /** Adds a header behind a known one.  `otherChecks` stands for proof of work, target and version. */
    method AddHeader(header: Header, now: nat, otherChecks: bool) returns (r: Option<(ChainEntry, ChainEntry)>)
      requires Valid() && MayAdd(w, db.disk.entries, header)
      requires header.hash !in db.invalid && header.prev !in db.invalid
      modifies db, db.cache
      ensures Valid()
      ensures r.Some? <==> otherChecks && MedianTimePast(old(db.disk.entries),
                                                         header.prev) < header.time < now + 2 * 60 * 60
      ensures r.Some? ==> Snap() == WithHeader(old(Snap()), header)
      ensures r.Some? ==> r.value == (NewEntry(old(db.disk.entries), header, r.value.1),
                                      old(db.disk.entries)[header.prev])
      ensures r.Some? ==> IsStored(db.disk, r.value.0) && r.value.0.hash == header.hash
      ensures r.None? ==> Snap() == old(Snap())
      ensures old(OnBest()) ==> OnBest()
    {
      ghost var x := Snap();
      var entry, prev, median := MakeEntry(header);
      if !otherChecks || header.time <= median || header.time >= now + MAX_FUTURE_BLOCK_TIME {
        return None;
      }
      AddingReady(w, x, header);
      AddingIsGood(w, x, header);
      var ok := db.SaveEntry(entry, prev, true, true, w.genesis, tip.hash);
      r := Some((entry, prev));
    }

    method SetInvalid(hash: BlockHash)
      requires Valid() && hash in db.disk.entries
               && (hash !in db.downloaded || db.disk.entries[hash].height > tip.height)
      modifies db`invalid
      ensures Valid() && Snap() == Marked(old(Snap()), hash)
    {
      InvalidatingIsGood(w, Snap(), hash);
      db.invalid := db.invalid + {hash};
    }

    /** Keeps a block whose header is known, or marks it invalid when its body is not in order. */
    method AddBlock(block: Block, entry: ChainEntry) returns (ok: bool)
      requires Valid() && IsStored(db.disk, entry) && block == w.blockOf(entry.hash) && block.header.hash == entry.hash
      requires entry.hash !in db.downloaded
      modifies db`invalid, db`blocks, db`downloaded
      ensures Valid()
      ensures ok <==> rules.bodyAccepted(entry.hash) && BodyOk(block.txs)
      ensures Snap() == if ok then Received(old(Snap()), entry.hash, block) else Marked(old(Snap()), entry.hash)
    {
      ghost var x := Snap();
      GoodMeans(w, x);
      ok := CheckBody(block.txs, rules.bodyAccepted(block.header.hash));
      if !ok {
        SetInvalid(entry.hash);
        return;
      }
      StoringIsGood(w, x, entry.hash);
      db.WriteBlock(entry.hash, block);
    }

    /** Verifies a block against the tip and connects it, or marks it invalid. */
    method Connect(block: Block, entry: ChainEntry) returns (ok: bool)
      requires Valid() && OnTip(Snap(), entry) && block == w.blockOf(entry.hash)
      modifies this`tip, this`height, db, db.cache
      ensures Valid()
      ensures ok <==> Fit(old(db.disk.coins), block, entry.height, rules)
      ensures ok ==> tip == entry && Moved(old(Snap()), Snap())
      ensures !ok ==> Snap() == Marked(old(Snap()), entry.hash)
    {
      var view;
      ok, view := VerifyOnTip(block, entry);
      OnTipIsKnown(w, Snap(), entry);
      if !ok {
        SetInvalid(entry.hash);
        return;
      }
      ConnectVerified(block, entry, view);
    }

    method VerifyOnTip(block: Block, entry: ChainEntry) returns (ok: bool, view: CoinView)
      requires Valid() && OnTip(Snap(), entry) && block == w.blockOf(entry.hash)
      ensures fresh(view) && fresh(view.undo)
      ensures ok <==> Fit(db.disk.coins, block, entry.height, rules)
      ensures ok ==> Prepared(view.coins, view.undo.items, db.disk.coins, block, entry.height, rules.interval)
    {
      VerifyReady(w, Snap(), entry);
      ok, view := VerifyContext(db.disk.coins, block, tip.height + 1, rules);
    }

    method ConnectVerified(block: Block, entry: ChainEntry, view: CoinView)
      requires Valid() && OnTip(Snap(), entry) && block == w.blockOf(entry.hash)
      requires Prepared(view.coins, view.undo.items, db.disk.coins, block, entry.height, rules.interval)
      modifies this`tip, this`height, db, db.cache
      ensures Valid() && tip == entry && Moved(old(Snap()), Snap())
    {
      ghost var x := Snap();
      ConnectReady(w, x, entry);
      PreparedMeans(view.coins, view.undo.items, db.disk.coins, block, entry.height, rules.interval);
      var connected := db.Connect(entry, block, view, true, true, rules.interval);
      RecordFollows(w, x, view.undo.items, db.undos, entry);
      tip, height := entry, entry.height;
      ConnectingIsGood(w, x, Snap(), entry);
    }

    /** Disconnects the tip.  It halts exactly when the tip's block has only its coinbase. */
    method Disconnect() returns (halted: bool)
      requires Valid() && tip.height > 0
      modifies this`tip, this`height, db, db.cache
      ensures halted <==> |w.blockOf(old(tip).hash).txs| == 1
      ensures halted ==> Snap() == old(Snap())
      ensures !halted ==> Valid() && Moved(old(Snap()), Snap()) && db.undos == old(db.undos)
      ensures !halted ==> old(tip).prevBlock in old(db.disk.entries) && tip == old(db.disk.entries[tip.prevBlock])
    {
      ghost var x := Snap();
      DisconnectReady(w, x);
      var block := db.blocks[tip.hash];
      var prev := db.cache.hash[tip.prevBlock];
      var outcome, view := db.Disconnect(tip, block, true, true, Before(w, tip.hash, tip.height));
      halted := outcome == Halted;
      if halted {
        return;
      }
      tip, height := prev, prev.height;
      DisconnectingIsGood(w, x, Snap());
    }

    /** The blocks to connect for `entry` to come onto the best chain, lowest first: back to the
        main chain, and on along the heaviest ready branch.  Empty when that is no gain. */
    method BuildQueue(entry: ChainEntry) returns (queue: seq<ChainEntry>)
      requires Valid() && IsStored(db.disk, entry) && !IsMainChain(db.cache.Value(), entry)
      ensures QueuedFor(Snap(), entry, queue)
      ensures BestBut(db.disk.entries, Snap().Ready(), tip.chainwork, entry.hash) ==>
                Best(db.disk.entries, Snap().Ready(), if queue == [] then tip.chainwork
                     else queue[|queue| - 1].chainwork)
    {
      ghost var x := Snap();
      GoodMeans(w, x);
      ghost var t := x.d.entries;
      queue := [];
      var ready := db.downloaded - db.invalid;
      if entry.hash !in ready {
        NothingToConnectYet(w, x, entry.hash);
        return;
      }
      GenesisIsMain(w, x);
      var back := BackToMain(db.cache.Value(), ready, entry, w.genesis, tip.hash);
      if back == [] {
        NothingToConnectYet(w, x, entry.hash);
        return;
      }
      var path := NextBest(db.disk, ready, entry, w.genesis);
      JoiningPaths(t, ready, back, path);
      HeaviestSettles(t, ready, tip.chainwork, entry.hash, path[|path| - 1].chainwork);
      QueueIsRight(w, x, entry, back, path);
      queue := back + path[1..];
      if queue[|queue| - 1].chainwork <= tip.chainwork {
        queue := [];
      }
    }

    /** Disconnects blocks until `target`, which is below the tip, is the tip. */
    method DisconnectTo(target: BlockHash) returns (halted: bool)
      requires Valid() && BelowTip(Snap(), target)
      modifies this`tip, this`height, db, db.cache
      ensures !halted ==> Valid() && Moved(old(Snap()), Snap()) && tip.hash == target
      ensures halted <==> EmptyBlockAbove(w, old(Snap()), target)
      ensures halted ==> HaltedIn(w, old(Snap()), Snap(), target)
    {
      halted := false;
      ghost var x := Snap();
      TipIsBelowItself(w, x);
      while tip.hash != target
        invariant Valid() && Moved(x, Snap()) && BelowTip(Snap(), target) && BelowTip(x, tip.hash)
        invariant EmptyBlockAbove(w, x, target) <==> EmptyBlockAbove(w, Snap(), target)
        decreases tip.height
      {
        StepsDown(w, Snap(), target);
        ghost var before := Snap();
        halted := Disconnect();
        StepOverTip(w, before, target);
        if halted {
          return;
        }
        StillBelow(before, Snap(), target);
        FurtherDown(w, x, before, Snap());
      }
    }

    /** Connects the queue, lowest entry first, until one is not fit. */
    method ConnectAll(queue: seq<ChainEntry>) returns (ok: bool)
      requires Valid() && queue != [] && IsPath(db.disk.entries, Snap().Ready(), queue) && OnTip(Snap(), queue[0])
      modifies this`tip, this`height, db, db.cache
      ensures Valid()
      ensures ok <==> AllFit(w, queue)
      ensures ok ==> Moved(old(Snap()), Snap()) && tip == queue[|queue| - 1]
      ensures !ok ==> Stopped(old(Snap()), Snap(), queue, w)
    {
      ghost var x := Snap();
      var i := 0;
      while i < |queue|
        invariant i <= |queue|
        invariant Valid() && Moved(x, Snap())
        invariant if i < |queue| then OnTip(Snap(), queue[i]) else tip == queue[|queue| - 1]
        invariant AllFit(w, queue[..i])
      {
        CoinsAreBefore(w, Snap(), queue[i]);
        ReadyIsStored(w, Snap(), queue[i].hash);
        var block := db.blocks[queue[i].hash];
        ok := Connect(block, queue[i]);
        if !ok {
          assert FirstUnfit(w, queue, i) && StoppedAt(x, Snap(), queue, i, w);
          return;
        }
        OneMoreFit(w, queue, i);
        i := i + 1;
      }
      assert queue[..|queue|] == queue;
      ok := true;
    }

    /** No complete block has more work than the tip. */
    ghost predicate OnBest()
      reads this, db
    {
      Best(db.disk.entries, Snap().Ready(), tip.chainwork)
    }

    /** Moves to the best branch through `entry`, if there is a better one: back to the fork, then
        forward.  A block that fails leaves the chain where it is then. */
    method ConnectBest(entry: ChainEntry) returns (outcome: Outcome, ghost queue: seq<ChainEntry>)
      requires Valid() && IsStored(db.disk, entry) && !IsMainChain(db.cache.Value(), entry)
      modifies this`tip, this`height, db, db.cache
      ensures outcome != Halted ==> Valid()
      ensures outcome == Done ==> Moved(old(Snap()), Snap()) && (tip == old(tip) || tip.chainwork > old(tip).chainwork)
      ensures QueuedFor(old(Snap()), entry, queue) && OutcomeOf(w, old(Snap()), queue, outcome)
      ensures outcome == Done ==> tip == if queue == [] then old(tip) else queue[|queue| - 1]
      ensures outcome == Halted ==> queue != [] && HaltedIn(w, old(Snap()), Snap(), queue[0].prevBlock)
      ensures outcome == Failed ==>
                Stopped(old(Snap()), Snap(), queue, w) && (tip.chainwork < old(tip).chainwork ==> !OnBest())
      ensures BestBut(old(db.disk.entries), old(Snap()).Ready(), old(tip).chainwork, entry.hash) ==>
                && (outcome == Done ==> OnBest())
                && (outcome == Failed ==> BestExactlyIf(w, old(Snap()), entry.hash, queue, Snap()))
    {
      ghost var x := Snap();
      var path := BuildQueue(entry);
      queue := path;
      if path == [] {
        return Done, queue;
      }
      var halted := DisconnectTo(path[0].prevBlock);
      if halted {
        return Halted, queue;
      }
      ForkIsTip(w, Snap(), path[0]);
      ghost var fork := Snap();
      var ok := ConnectAll(path);
      outcome := if ok then Done else Failed;
      if !ok {
        StoppedFromFork(x, fork, Snap(), queue, w);
        RuleAfterFailure(w, x, Snap(), entry, queue);
      }
    }

    /** Connects a branch whose blocks are all there already. */
    method Attach(entry: ChainEntry) returns (outcome: Outcome, ghost queue: seq<ChainEntry>)
      requires Valid() && IsStored(db.disk, entry)
      modifies this`tip, this`height, db, db.cache
      ensures outcome != Halted ==> Valid()
      ensures outcome == Done ==> Moved(old(Snap()), Snap()) && (tip == old(tip) || tip.chainwork > old(tip).chainwork)
      ensures outcome == Done && old(OnBest()) ==> OnBest()
      ensures outcome == Failed && old(OnBest()) ==> BestExactlyIf(w, old(Snap()), entry.hash, queue, Snap())
      ensures if IsMainChain(old(db.cache.Value()), entry) then outcome == Done && queue == []
              else QueuedFor(old(Snap()), entry, queue) && OutcomeOf(w, old(Snap()), queue, outcome)
      ensures outcome == Failed ==> Stopped(old(Snap()), Snap(), queue, w)
      ensures outcome == Halted ==> queue != [] && HaltedIn(w, old(Snap()), Snap(), queue[0].prevBlock)
    {
      if IsMainChain(db.cache.Value(), entry) {
        return Done, [];
      }
      outcome, queue := ConnectBest(entry);
    }

    /** Adds a block: its header first if that is new, then the block, then the branch it opens.
        What comes of the branch is decided by the state in which the block has arrived. */
    method Add(block: Block, now: nat, otherChecks: bool) returns (r: Added, ghost queue: seq<ChainEntry>)
      requires Valid() && block == w.blockOf(block.header.hash) && block.header.hash !in db.downloaded
      requires block.header.hash !in db.disk.entries ==>
                 MayAdd(w, db.disk.entries, block.header) && block.header.hash !in db.invalid
                 && block.header.prev !in db.invalid
      modifies this`tip, this`height, db, db.cache
      ensures r != AddHalted ==> Valid()
      ensures r == HeaderRejected <==>
                block.header.hash !in old(db.disk.entries) &&
                !(otherChecks && MedianTimePast(old(db.disk.entries),
                                                block.header.prev) < block.header.time < now + 2 * 60 * 60)
      ensures r == HeaderRejected ==> Snap() == old(Snap())
      ensures r != HeaderRejected ==> ComesOf(w, WithEntry(old(Snap()), block.header), block, r, queue, Snap())
      ensures old(OnBest()) ==> RuleKept(w, WithEntry(old(Snap()), block.header), block, r, queue, Snap())
      ensures r == Accepted || r == HeaderRejected || r == BodyRejected ==>
                tip == old(tip) || tip.chainwork > old(tip).chainwork
    {
      queue := [];
      var entry := NO_ENTRY;
      if block.header.hash in db.cache.hash {
        StoredUnderItsHash(w, Snap(), block.header.hash);
        entry := db.cache.hash[block.header.hash];
      } else {
        var added := AddHeader(block.header, now, otherChecks);
        if added.None? {
          return HeaderRejected, queue;
        }
        entry := added.value.0;
      }
      r, queue := AddReceived(block, entry);
    }

    method AddReceived(block: Block, entry: ChainEntry) returns (r: Added, ghost queue: seq<ChainEntry>)
      requires Valid() && IsStored(db.disk, entry) && block == w.blockOf(entry.hash) && block.header.hash == entry.hash
      requires entry.hash !in db.downloaded
      modifies this`tip, this`height, db, db.cache
      ensures r != HeaderRejected
      ensures r != AddHalted ==> Valid()
      ensures ComesOf(w, old(Snap()), block, r, queue, Snap())
      ensures old(OnBest()) ==> RuleKept(w, old(Snap()), block, r, queue, Snap())
      ensures r == Accepted || r == BodyRejected ==> tip == old(tip) || tip.chainwork > old(tip).chainwork
    {
      ghost var x := Snap();
      queue := [];
      NotYetMain(w, x, entry);
      ReceivingLeavesOne(w, x, entry.hash, block);
      var ok := AddBlock(block, entry);
      if !ok {
        return BodyRejected, queue;
      }
      ghost var y := Snap();
      var outcome;
      outcome, queue := ConnectBest(entry);
      r := match outcome case Done => Accepted case Failed => ConnectFailed case Halted => AddHalted;
      ComesOfBranch(w, x, block, r, outcome, queue, Snap());
    }

    /** Handles events in the order they come, each under the conditions its callers check. */
    method Run(events: seq<Event>) returns (end: Outcome)
      requires Valid() && forall i :: 0 <= i < |events| ==> FromWorld(w, events[i])
      modifies this`tip, this`height, db, db.cache
      ensures end != Halted ==> Valid()
      ensures end == Done && old(OnBest()) ==> OnBest() && HasMostWork(w, Snap())
      ensures end == Done ==> tip == old(tip) || tip.chainwork > old(tip).chainwork
      ensures end == Halted ==> exists y, queue :: HaltsAt(w, y, queue, Snap())
      decreases |events|
    {
      if events == [] {
        BestHasMostWork(w, Snap());
        return Done;
      }
      var first := Handle(events[0]);
      if first == Halted {
        return Halted;
      }
      var others := Run(events[1..]);
      end := if first == Failed && others == Done then Failed else others;
    }

    /** Whether a header that is not known may be added now. */
    predicate Admits(header: Header)
      reads this, db, db.cache
    {
      && header.hash !in db.cache.hash && header.prev in db.cache.hash
      && db.cache.hash[header.prev].height + 2 < HEIGHT_LIMIT
      && header.hash !in db.invalid && header.prev !in db.invalid
    }

    method Handle(event: Event) returns (end: Outcome)
      requires Valid() && FromWorld(w, event)
      modifies this`tip, this`height, db, db.cache
      ensures end != Halted ==> Valid()
      ensures end == Done && old(OnBest()) ==> OnBest()
      ensures end == Done ==> tip == old(tip) || tip.chainwork > old(tip).chainwork
      ensures end == Halted ==> exists y, queue :: HaltsAt(w, y, queue, Snap())
    {
      end := Done;
      match event {
        case HeaderArrives(header, now, otherChecks) =>
          if Admits(header) {
            var added := AddHeader(header, now, otherChecks);
          }
        case BlockArrives(block, now, otherChecks) =>
          if block.header.hash !in db.downloaded && (block.header.hash in db.cache.hash || Admits(block.header)) {
            var added, queue := Add(block, now, otherChecks);
            end := AsOutcome(added);
            assert end == Halted ==> HaltsAt(w, Received(WithEntry(old(Snap()), block.header), block.header.hash,
                                                         block), queue, Snap());
          }
        case BranchRetried(hash) =>
          if hash in db.cache.hash {
            StoredUnderItsHash(w, Snap(), hash);
            ghost var queue;
            end, queue := Attach(db.cache.hash[hash]);
            assert end == Halted ==> HaltsAt(w, old(Snap()), queue, Snap());
          }
      }
    }
  }
}
