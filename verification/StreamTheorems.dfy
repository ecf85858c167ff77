/** Batch assembly refines a simple grouping of the stream. */
module StreamTheorems {
  import opened Wrappers
  import opened Bytes
  import opened Transactions
  import opened BatchV2
  import opened BatchV2Theorems
  import opened StreamAssembly

  // ---------- runs ----------

  /** An entry, and what is answered should it end a batch. */
  datatype Input = Input(entry: Entry, answers: Answers)

  predicate InputsFit(inputs: seq<Input>) {
    forall i: nat | i < |inputs| :: EntryFits(inputs[i].entry)
  }

  function Entries(inputs: seq<Input>): (entries: seq<Entry>)
    ensures |entries| == |inputs|
  {
    seq(|inputs|, i requires 0 <= i < |inputs| => inputs[i].entry)
  }

  /** State and stored batches after the inputs; None when handling one of them failed. */
  function RunStream(a: Assembly, inputs: seq<Input>, useL1: bool): (r: Option<(Assembly, seq<StoredBatch>)>)
    requires Fits(a) && InputsFit(inputs)
    ensures r.Some? ==> Fits(r.value.0)
  {
    if |inputs| == 0 then Some((a, []))
    else
      var n := |inputs| - 1;
      match RunStream(a, inputs[..n], useL1)
      case None => None
      case Some((b, stored)) =>
        match Handle(b, inputs[n].entry, useL1, inputs[n].answers)
        case Failed(_) => None
        case Handled(c, None) => Some((c, stored))
        case Handled(c, Some(batch)) => Some((c, stored + [batch]))
  }

  /** No block, no transaction and no byte is held. */
  predicate Between(a: Assembly) {
    |a.blocks| == 0 && a.open.blockNumber == 0 && |a.streamData| == 0
  }

  // ---------- adding an entry to a group ----------

  function WithLast(blocks: seq<L2BlockRaw>, tx: L2TxRaw): seq<L2BlockRaw> {
    if |blocks| == 0 then [] else blocks[..|blocks| - 1] + [WithTx(blocks[|blocks| - 1], tx)]
  }

  predicate HasBlock(kinds: seq<Kind>) {
    exists i: nat | i < |kinds| :: IsBlock(kinds[i])
  }

  lemma {:induction false} TxsAheadSnoc(kinds: seq<Kind>, k: Kind)
    ensures TxsAhead(kinds + [k]) == TxsAhead(kinds) + if IsTx(k) && !HasBlock(kinds) then [TxOf(k)] else []
  {
    hide TxOf;
    if |kinds| > 0 && !IsBlock(kinds[0]) {
      TxsAheadSnoc(kinds[1..], k);
      assert (kinds + [k])[1..] == kinds[1..] + [k];
      HasBlockLater(kinds);
    }
  }

  lemma HasBlockLater(kinds: seq<Kind>)
    requires |kinds| > 0 && !IsBlock(kinds[0])
    ensures HasBlock(kinds) <==> HasBlock(kinds[1..])
  {
  }

  lemma {:induction false} HasBlockIff(kinds: seq<Kind>)
    ensures HasBlock(kinds) <==> |BlocksOf(kinds)| > 0
  {
    hide TxsAhead;
    if |kinds| > 0 && !IsBlock(kinds[0]) {
      HasBlockIff(kinds[1..]);
      HasBlockLater(kinds);
    }
  }

  /** A block opens a group, a transaction joins the last one, anything else changes nothing. */
  lemma {:induction false} BlocksOfSnoc(kinds: seq<Kind>, k: Kind)
    ensures IsBlock(k) ==> BlocksOf(kinds + [k]) == BlocksOf(kinds) + [L2BlockRaw(k.block.value.0, k.block.value.1, [])]
    ensures IsTx(k) ==> BlocksOf(kinds + [k]) == WithLast(BlocksOf(kinds), TxOf(k))
    ensures !IsBlock(k) && !IsTx(k) ==> BlocksOf(kinds + [k]) == BlocksOf(kinds)
  {
    hide TxsAhead, TxOf;
    if |kinds| == 0 {
      assert [k][1..] == [];
      assert TxsAhead([]) == [] by {
        NothingAhead();
      }
    } else {
      var rest, more := kinds[1..], kinds + [k];
      assert more[1..] == rest + [k] && more[0] == kinds[0];
      BlocksOfSnoc(rest, k);
      TxsAheadSnoc(rest, k);
      HasBlockIff(rest);
      if IsBlock(kinds[0]) {
        var (number, header) := kinds[0].block.value;
        var first := L2BlockRaw(number, header, TxsAhead(rest));
        assert BlocksOf(kinds) == [first] + BlocksOf(rest);
        assert BlocksOf(more) == [L2BlockRaw(number, header, TxsAhead(rest + [k]))] + BlocksOf(rest + [k]);
        if IsTx(k) {
          WithLastCons(first, BlocksOf(rest), TxOf(k));
          if |BlocksOf(rest)| == 0 {
            assert WithTx(first, TxOf(k)) == L2BlockRaw(number, header, TxsAhead(rest + [k]));
            assert [first] + BlocksOf(rest) == [first];
          } else {
            assert TxsAhead(rest + [k]) == TxsAhead(rest);
          }
        } else {
          assert TxsAhead(rest + [k]) == TxsAhead(rest);
        }
      }
    }
  }

  lemma WithLastCons(first: L2BlockRaw, blocks: seq<L2BlockRaw>, tx: L2TxRaw)
    ensures |blocks| > 0 ==> WithLast([first] + blocks, tx) == [first] + WithLast(blocks, tx)
    ensures |blocks| == 0 ==> WithLast([first] + blocks, tx) == [WithTx(first, tx)]
  {
  }

  lemma NothingAhead()
    ensures TxsAhead([]) == []
  {
  }

  // ---------- what is held is the group so far ----------

  predicate HoldsGroup(a: Assembly, blocks: seq<L2BlockRaw>) {
    if |blocks| == 0 then |a.blocks| == 0 && a.open.blockNumber == 0
    else a.blocks == Numbered(blocks[..|blocks| - 1]) && a.open == blocks[|blocks| - 1]
  }

  predicate Holds(a: Assembly, entries: seq<Entry>, initially: (Uint64, BatchType)) {
    && HoldsGroup(a, BlocksOf(Kinds(Since(entries))))
    && a.streamData == DataOf(Since(entries))
    && (a.number, a.batchType) == LastStart(entries, initially)
  }

  lemma ClosingGivesNumbered(a: Assembly, blocks: seq<L2BlockRaw>)
    requires HoldsGroup(a, blocks)
    ensures CloseBlock(a).blocks == Numbered(blocks)
  {
  }

  lemma OpeningKeepsGroup(a: Assembly, blocks: seq<L2BlockRaw>, block: L2BlockRaw)
    requires HoldsGroup(a, blocks)
    ensures HoldsGroup(CloseBlock(a).(open := block), blocks + [block])
  {
  }

  lemma AddingKeepsGroup(a: Assembly, blocks: seq<L2BlockRaw>, tx: L2TxRaw)
    requires HoldsGroup(a, blocks)
    ensures HoldsGroup(a.(open := WithTx(a.open, tx)), WithLast(blocks, tx))
  {
  }

  lemma SinceSnoc(entries: seq<Entry>, e: Entry)
    ensures Since(entries + [e]) == if EndsBatch(e.kind) then [] else Since(entries) + [e]
    ensures Kinds(Since(entries) + [e]) == Kinds(Since(entries)) + [e.kind]
    ensures DataOf(Since(entries) + [e]) == DataOf(Since(entries)) + if e.kind.Bookmark? then [] else e.encoded
  {
  }

  lemma LastStartSnoc(entries: seq<Entry>, e: Entry, initially: (Uint64, BatchType))
    ensures LastStart(entries + [e], initially)
         == if e.kind.BatchStart? && e.kind.start.Some? then e.kind.start.value else LastStart(entries, initially)
  {
  }

  /** Handling an entry keeps the group, and stores it when the entry ends the batch. */
  lemma HandleKeepsGroup(a: Assembly, entries: seq<Entry>, e: Entry, useL1: bool, answers: Answers,
                         initially: (Uint64, BatchType))
    requires Fits(a) && EntryFits(e) && Holds(a, entries, initially)
    requires Handle(a, e, useL1, answers).Handled?
    ensures Holds(Handle(a, e, useL1, answers).next, entries + [e], initially)
  {
    hide Fits, BlocksFit, TxFits, Since, LastStart, DataOf, Kinds, BlocksOf, HoldsGroup, TxOf, WithTx, L2Data;
    var blocks := BlocksOf(Kinds(Since(entries)));
    SinceSnoc(entries, e);
    LastStartSnoc(entries, e, initially);
    BlocksOfSnoc(Kinds(Since(entries)), e.kind);
    var b := if e.kind.Bookmark? then a else a.(streamData := a.streamData + e.encoded);
    SameGroup(a, b, blocks);
    if IsBlock(e.kind) {
      OpeningKeepsGroup(b, blocks, L2BlockRaw(e.kind.block.value.0, e.kind.block.value.1, []));
    } else if IsTx(e.kind) {
      AddingKeepsGroup(b, blocks, TxOf(e.kind));
    } else if EndsBatch(e.kind) {
      EmptyGroup(Reset(CloseBlock(b)));
    } else {
      SameGroup(a, Handle(a, e, useL1, answers).next, blocks);
    }
  }

  lemma SameGroup(a: Assembly, b: Assembly, blocks: seq<L2BlockRaw>)
    requires HoldsGroup(a, blocks) && a.blocks == b.blocks && a.open == b.open
    ensures HoldsGroup(b, blocks)
  {
  }

  lemma EmptyGroup(a: Assembly)
    requires |a.blocks| == 0 && a.open.blockNumber == 0
    ensures HoldsGroup(a, BlocksOf(Kinds([]))) && DataOf([]) == []
  {
  }

  // ---------- every stream is grouped ----------

  /** What the grouping finds for a batch, and the batch data L1 has for it. */
  datatype Group = Group(number: Uint64, batchType: BatchType, blocks: seq<L2BlockRaw>, datastream: bytes,
                         l1BatchData: bytes)

  /** The group that `end` completes. */
  function GroupAt(entries: seq<Entry>, end: Input, initially: (Uint64, BatchType)): Group {
    var (number, batchType) := LastStart(entries, initially);
    Group(number, batchType, Numbered(BlocksOf(Kinds(Since(entries)))), DataOf(Since(entries) + [end.entry]),
          if end.answers.Success? then end.answers.l1BatchData else [])
  }

  /** The groups of a stream: one for every end of a batch with a number. */
  function Groups(inputs: seq<Input>, initially: (Uint64, BatchType)): seq<Group> {
    if |inputs| == 0 then []
    else
      var n := |inputs| - 1;
      var before := Entries(inputs[..n]);
      Groups(inputs[..n], initially)
      + if EndsBatch(inputs[n].entry.kind) && LastStart(before, initially).0 != 0
        then [GroupAt(before, inputs[n], initially)] else []
  }

  predicate Stores(g: Group, s: StoredBatch, useL1: bool) {
    && s.number == g.number && s.batchType == g.batchType && s.datastream == g.datastream
    && BlocksFit(g.blocks)
    && L2Data(g.blocks, g.batchType, useL1, g.l1BatchData) == Some(s.batchL2Data)
  }

  predicate AllStored(groups: seq<Group>, stored: seq<StoredBatch>, useL1: bool) {
    && |groups| == |stored|
    && forall i: nat | i < |groups| :: Stores(groups[i], stored[i], useL1)
  }

  /** What one entry hands to AddBatch is the group it completes. */
  lemma StoresItsGroup(a: Assembly, entries: seq<Entry>, x: Input, useL1: bool, initially: (Uint64, BatchType))
    requires Fits(a) && EntryFits(x.entry) && Holds(a, entries, initially)
    requires Handle(a, x.entry, useL1, x.answers).Handled?
    ensures var stored := Handle(a, x.entry, useL1, x.answers).stored;
            && (stored.Some? <==> EndsBatch(x.entry.kind) && LastStart(entries, initially).0 != 0)
            && (stored.Some? ==> Stores(GroupAt(entries, x, initially), stored.value, useL1))
  {
    hide TxFits, Since, LastStart, DataOf, Kinds, BlocksOf, HoldsGroup, TxOf, WithTx, Numbered, EncodeBlocks;
    if EndsBatch(x.entry.kind) {
      var b := a.(streamData := a.streamData + x.entry.encoded);
      SinceSnoc(entries, x.entry);
      var blocks := BlocksOf(Kinds(Since(entries)));
      SameGroup(a, b, blocks);
      ClosingGivesNumbered(b, blocks);
    }
  }

  /** Assembly refines the grouping, for every stream whose entries are all handled. */
  lemma {:induction false} AssemblyRefinesGrouping(a: Assembly, inputs: seq<Input>, useL1: bool)
    requires Fits(a) && InputsFit(inputs) && Between(a) && RunStream(a, inputs, useL1).Some?
    ensures var (b, stored), initially := RunStream(a, inputs, useL1).value, (a.number, a.batchType);
            Holds(b, Entries(inputs), initially) && AllStored(Groups(inputs, initially), stored, useL1)
    decreases |inputs|
  {
    hide Fits, EntryFits, Holds, Handle, LastStart, EndsBatch, GroupAt, Stores, Between;
    var initially := (a.number, a.batchType);
    if |inputs| == 0 {
      NothingHeld(a);
    } else {
      var n := |inputs| - 1;
      assert Entries(inputs) == Entries(inputs[..n]) + [inputs[n].entry];
      AssemblyRefinesGrouping(a, inputs[..n], useL1);
      var b := RunStream(a, inputs[..n], useL1).value.0;
      HandleKeepsGroup(b, Entries(inputs[..n]), inputs[n].entry, useL1, inputs[n].answers, initially);
      StoresItsGroup(b, Entries(inputs[..n]), inputs[n], useL1, initially);
    }
  }

  lemma NothingHeld(a: Assembly)
    requires Between(a)
    ensures Holds(a, [], (a.number, a.batchType)) && Entries([]) == []
  {
  }

  // ---------- streams of whole batches ----------

  datatype Batch = Batch(number: Uint64, batchType: BatchType, blocks: seq<L2BlockRaw>)

  /** A batch a stream can show: numbered, with blocks, all of them numbered. */
  predicate WellFormedBatch(b: Batch) {
    && b.number != 0 && |b.blocks| > 0 && AllPlain(b.blocks) && BlocksFit(b.blocks)
    && forall i: nat | i < |b.blocks| :: b.blocks[i].blockNumber != 0
  }

  function TxKinds(txs: seq<L2TxRaw>): seq<Kind>
    requires TxsPlain(txs)
  {
    if |txs| == 0 then []
    else [Transaction(Some(txs[0].tx), txs[0].efficiencyPercentage)] + TxKinds(txs[1..])
  }

  function BlockKinds(blocks: seq<L2BlockRaw>): seq<Kind>
    requires AllPlain(blocks)
  {
    if |blocks| == 0 then []
    else [L2Block(Some((blocks[0].blockNumber, blocks[0].header)))] + TxKinds(blocks[0].transactions)
         + BlockKinds(blocks[1..])
  }

  /** The kinds of the entries that are no bookmarks. */
  function Spoken(kinds: seq<Kind>): seq<Kind> {
    if |kinds| == 0 then [] else (if kinds[0].Bookmark? then [] else [kinds[0]]) + Spoken(kinds[1..])
  }

  /** The entries show the batch, with bookmarks anywhere before its last entry. */
  predicate Shows(entries: seq<Entry>, b: Batch)
    requires WellFormedBatch(b)
  {
    && |entries| > 0 && EndsBatch(entries[|entries| - 1].kind)
    && Spoken(Kinds(entries[..|entries| - 1])) == [BatchStart(Some((b.number, b.batchType)))] + BlockKinds(b.blocks)
  }

  /** Bookmarks do not matter to the grouping. */
  lemma {:induction false} BookmarksAreSilent(kinds: seq<Kind>)
    ensures BlocksOf(Spoken(kinds)) == BlocksOf(kinds) && TxsAhead(Spoken(kinds)) == TxsAhead(kinds)
  {
    hide TxOf;
    if |kinds| > 0 {
      BookmarksAreSilent(kinds[1..]);
      if !kinds[0].Bookmark? {
        assert Spoken(kinds)[1..] == Spoken(kinds[1..]);
      } else {
        assert Spoken(kinds) == Spoken(kinds[1..]);
      }
    }
  }

  lemma GroupsOfTx(k: Kind, rest: seq<Kind>)
    requires IsTx(k)
    ensures TxsAhead([k] + rest) == [TxOf(k)] + TxsAhead(rest) && BlocksOf([k] + rest) == BlocksOf(rest)
  {
  }

  lemma HeadFirst(txs: seq<L2TxRaw>, tail: seq<L2TxRaw>)
    requires |txs| > 0
    ensures [txs[0]] + (txs[1..] + tail) == txs + tail
  {
  }

  lemma FirstTxKind(txs: seq<L2TxRaw>, rest: seq<Kind>) returns (k: Kind)
    requires |txs| > 0 && TxsPlain(txs)
    ensures IsTx(k) && TxOf(k) == txs[0] && TxsPlain(txs[1..])
    ensures TxKinds(txs) + rest == [k] + (TxKinds(txs[1..]) + rest)
  {
    k := Transaction(Some(txs[0].tx), txs[0].efficiencyPercentage);
  }

  lemma {:induction false} GroupsOfTxs(txs: seq<L2TxRaw>, rest: seq<Kind>)
    requires TxsPlain(txs)
    ensures TxsAhead(TxKinds(txs) + rest) == txs + TxsAhead(rest)
    ensures BlocksOf(TxKinds(txs) + rest) == BlocksOf(rest)
    decreases |txs|
  {
    hide TxsAhead, BlocksOf;
    if |txs| == 0 {
      assert TxKinds(txs) + rest == rest;
    } else {
      var k := FirstTxKind(txs, rest);
      hide TxKinds, TxOf, IsTx, TxsPlain;
      GroupsOfTxs(txs[1..], rest);
      GroupsOfTx(k, TxKinds(txs[1..]) + rest);
      HeadFirst(txs, TxsAhead(rest));
    }
  }

  /** Grouping the entries of blocks gives the blocks back. */
  lemma {:induction false} GroupsOfBlocks(blocks: seq<L2BlockRaw>)
    requires AllPlain(blocks)
    ensures BlocksOf(BlockKinds(blocks)) == blocks && TxsAhead(BlockKinds(blocks)) == []
  {
    hide TxKinds, TxsPlain;
    if |blocks| > 0 {
      var rest := TxKinds(blocks[0].transactions) + BlockKinds(blocks[1..]);
      assert BlockKinds(blocks)[1..] == rest;
      GroupsOfTxs(blocks[0].transactions, BlockKinds(blocks[1..]));
      GroupsOfBlocks(blocks[1..]);
      assert TxsAhead(rest) == blocks[0].transactions;
    }
  }

  lemma {:induction false} AllNumbered(blocks: seq<L2BlockRaw>)
    ensures Numbered(blocks) == blocks <==> forall i: nat | i < |blocks| :: blocks[i].blockNumber != 0
    ensures |Numbered(blocks)| <= |blocks|
  {
    if |blocks| > 0 {
      AllNumbered(blocks[..|blocks| - 1]);
      if Numbered(blocks) == blocks {
        assert blocks[|blocks| - 1].blockNumber != 0;
        assert Numbered(blocks)[..|blocks| - 1] == blocks[..|blocks| - 1];
      }
    }
  }

  // ---------- one batch ----------

  /** Entries inside a batch whose handling cannot fail. */
  predicate Plainly(k: Kind) {
    k.Bookmark? || (k.BatchStart? && k.start.Some?) || IsBlock(k) || IsTx(k)
  }

  lemma {:induction false} TxKindsArePlain(txs: seq<L2TxRaw>)
    requires TxsPlain(txs)
    ensures forall k | k in TxKinds(txs) :: IsTx(k)
  {
    if |txs| > 0 {
      TxKindsArePlain(txs[1..]);
    }
  }

  lemma {:induction false} BlockKindsArePlain(blocks: seq<L2BlockRaw>)
    requires AllPlain(blocks)
    ensures forall k | k in BlockKinds(blocks) :: IsBlock(k) || IsTx(k)
  {
    if |blocks| > 0 {
      TxKindsArePlain(blocks[0].transactions);
      BlockKindsArePlain(blocks[1..]);
    }
  }

  lemma {:induction false} SpokenMembers(kinds: seq<Kind>)
    ensures forall k | k in kinds :: k.Bookmark? || k in Spoken(kinds)
    ensures forall k | k in Spoken(kinds) :: k in kinds
  {
    if |kinds| > 0 {
      SpokenMembers(kinds[1..]);
    }
  }

  lemma PlainIsHandled(a: Assembly, x: Input, useL1: bool)
    requires Fits(a) && EntryFits(x.entry) && Plainly(x.entry.kind)
    ensures Handle(a, x.entry, useL1, x.answers).Handled? && Handle(a, x.entry, useL1, x.answers).stored.None?
    ensures !EndsBatch(x.entry.kind)
  {
  }

  /** Without a batch's end nothing is stored, and nothing is cut off. */
  lemma {:induction false} PlainRun(a: Assembly, inputs: seq<Input>, useL1: bool)
    requires Fits(a) && InputsFit(inputs)
    requires forall i: nat | i < |inputs| :: Plainly(inputs[i].entry.kind)
    ensures RunStream(a, inputs, useL1).Some? && RunStream(a, inputs, useL1).value.1 == []
    ensures Since(Entries(inputs)) == Entries(inputs)
    decreases |inputs|
  {
    hide Fits, EntryFits, Handle, EndsBatch, Plainly;
    if |inputs| > 0 {
      var n := |inputs| - 1;
      PlainRun(a, inputs[..n], useL1);
      assert Entries(inputs)[..n] == Entries(inputs[..n]);
      PlainIsHandled(RunStream(a, inputs[..n], useL1).value.0, inputs[n], useL1);
    }
  }

  lemma {:induction false} StartIsLast(entries: seq<Entry>, start: (Uint64, BatchType), initially: (Uint64, BatchType))
    requires forall i: nat | i < |entries| && entries[i].kind.BatchStart? :: entries[i].kind.start == Some(start)
    ensures initially == start || (exists i: nat :: i < |entries| && entries[i].kind.BatchStart?) ==>
              LastStart(entries, initially) == start
    decreases |entries|
  {
    if |entries| > 0 {
      var n := |entries| - 1;
      StartIsLast(entries[..n], start, initially);
      if exists i: nat :: i < n && entries[i].kind.BatchStart? {
        var i: nat :| i < n && entries[i].kind.BatchStart?;
        assert entries[..n][i].kind.BatchStart?;
      }
    }
  }

  /** The entries of a batch before its end. */
  lemma BodyOfBatch(body: seq<Entry>, b: Batch, initially: (Uint64, BatchType))
    requires WellFormedBatch(b)
    requires Spoken(Kinds(body)) == [BatchStart(Some((b.number, b.batchType)))] + BlockKinds(b.blocks)
    ensures forall i: nat | i < |body| :: Plainly(body[i].kind)
    ensures LastStart(body, initially) == (b.number, b.batchType)
    ensures Numbered(BlocksOf(Kinds(body))) == b.blocks
  {
    hide LastStart, Numbered, BlockKinds, Spoken;
    var first, rest := BatchStart(Some((b.number, b.batchType))), BlockKinds(b.blocks);
    SpokenMembers(Kinds(body));
    BlockKindsArePlain(b.blocks);
    forall i: nat | i < |body|
      ensures Plainly(body[i].kind)
      ensures body[i].kind.BatchStart? ==> body[i].kind == first
    {
      assert Kinds(body)[i] in Kinds(body);
    }
    assert first in [first] + rest;
    var i: nat :| i < |Kinds(body)| && Kinds(body)[i] == first;
    assert body[i].kind.BatchStart?;
    StartIsLast(body, (b.number, b.batchType), initially);
    BookmarksAreSilent(Kinds(body));
    GroupsOfBlocks(b.blocks);
    assert ([first] + rest)[1..] == rest;
    AllNumbered(b.blocks);
  }

  /**
    The stored batch has the stream of its own entries, and its own blocks encoded; an invalid or
    injected batch has the data of L1 instead, and so has every batch when so configured.
  */
  predicate StoresBatch(s: StoredBatch, b: Batch, useL1: bool, l1BatchData: bytes, entries: seq<Entry>)
    requires BlocksFit(b.blocks)
  {
    && s.number == b.number && s.batchType == b.batchType && s.datastream == DataOf(entries)
    && s.batchL2Data == if useL1 || b.batchType == Invalid || b.batchType == Injected then l1BatchData else EncodeBlocks(b.blocks)
  }

  /** The inputs show the batch, and L1 and the database answer at its end. */
  predicate Delivers(inputs: seq<Input>, b: Batch)
    requires WellFormedBatch(b)
  {
    InputsFit(inputs) && Shows(Entries(inputs), b) && inputs[|inputs| - 1].answers.Success?
  }

  /** A batch is stored at its end, exactly as the stream showed it, and nothing is left over. */
  lemma BatchIsStored(a: Assembly, inputs: seq<Input>, b: Batch, useL1: bool)
    requires Fits(a) && Between(a) && WellFormedBatch(b) && Delivers(inputs, b)
    ensures var r := RunStream(a, inputs, useL1);
            && r.Some? && Between(r.value.0) && |r.value.1| == 1
            && StoresBatch(r.value.1[0], b, useL1, inputs[|inputs| - 1].answers.l1BatchData, Entries(inputs))
  {
    hide Fits, EntryFits, LastStart, Numbered, BlocksOf, Spoken, BlockKinds, L2Data, Since, DataOf, EndBatch, BlocksFit,
      RunStream, Groups;
    var n, initially := |inputs| - 1, (a.number, a.batchType);
    var body := inputs[..n];
    assert Entries(inputs)[..n] == Entries(body);
    assert Entries(inputs) == Entries(body) + [inputs[n].entry];
    BodyOfBatch(Entries(body), b, initially);
    forall i: nat | i < |body|
      ensures Plainly(body[i].entry.kind)
    {
      assert Entries(body)[i].kind == body[i].entry.kind;
    }
    PlainRun(a, body, useL1);
    AssemblyRefinesGrouping(a, body, useL1);
    var before := RunStream(a, body, useL1).value.0;
    EndStores(before, Entries(body), inputs[n], useL1, initially, b);
    RunOneMore(a, inputs, useL1);
  }

  lemma RunOneMore(a: Assembly, inputs: seq<Input>, useL1: bool)
    requires Fits(a) && InputsFit(inputs) && |inputs| > 0
    requires RunStream(a, inputs[..|inputs| - 1], useL1).Some?
    ensures var (b, stored), x := RunStream(a, inputs[..|inputs| - 1], useL1).value, inputs[|inputs| - 1];
            var h := Handle(b, x.entry, useL1, x.answers);
            RunStream(a, inputs, useL1)
            == if h.Failed? then None else Some((h.next, stored + if h.stored.Some? then [h.stored.value] else []))
  {
    hide Handle;
    var stored := RunStream(a, inputs[..|inputs| - 1], useL1).value.1;
    assert stored + [] == stored;
  }

  lemma EndStores(a: Assembly, entries: seq<Entry>, end: Input, useL1: bool, initially: (Uint64, BatchType), b: Batch)
    requires Fits(a) && EntryFits(end.entry) && Holds(a, entries, initially) && WellFormedBatch(b)
    requires EndsBatch(end.entry.kind) && end.answers.Success? && Since(entries) == entries
    requires LastStart(entries, initially) == (b.number, b.batchType) && Numbered(BlocksOf(Kinds(entries))) == b.blocks
    ensures var h := Handle(a, end.entry, useL1, end.answers);
            && h.Handled? && Between(h.next) && h.stored.Some?
            && StoresBatch(h.stored.value, b, useL1, end.answers.l1BatchData, entries + [end.entry])
  {
    hide LastStart, Numbered, BlocksOf, Since, DataOf, Kinds, HoldsGroup, AllPlain, EncodeBlocks, TxFits;
    var next := a.(streamData := a.streamData + end.entry.encoded);
    SameGroup(a, next, BlocksOf(Kinds(entries)));
    ClosingGivesNumbered(next, BlocksOf(Kinds(entries)));
    SinceSnoc(entries, end.entry);
  }

  // ---------- a stream of batches ----------

  function Flat(chunks: seq<seq<Input>>): seq<Input> {
    if |chunks| == 0 then [] else Flat(chunks[..|chunks| - 1]) + chunks[|chunks| - 1]
  }

  predicate DeliversAll(chunks: seq<seq<Input>>, batches: seq<Batch>) {
    && |chunks| == |batches|
    && forall i: nat | i < |chunks| :: WellFormedBatch(batches[i]) && Delivers(chunks[i], batches[i])
  }

  lemma {:induction false} FlatFits(chunks: seq<seq<Input>>, batches: seq<Batch>)
    requires DeliversAll(chunks, batches)
    ensures InputsFit(Flat(chunks))
  {
    hide EntryFits, WellFormedBatch;
    if |chunks| > 0 {
      var n := |chunks| - 1;
      FlatFits(chunks[..n], batches[..n]);
      assert Delivers(chunks[n], batches[n]);
    }
  }

  lemma {:induction false} RunInTwo(a: Assembly, xs: seq<Input>, ys: seq<Input>, useL1: bool)
    requires Fits(a) && InputsFit(xs) && InputsFit(ys) && InputsFit(xs + ys)
    requires RunStream(a, xs, useL1).Some?
    ensures var (b, stored) := RunStream(a, xs, useL1).value;
            RunStream(a, xs + ys, useL1) == match RunStream(b, ys, useL1)
              case None => None
              case Some((c, more)) => Some((c, stored + more))
    decreases |ys|
  {
    hide Fits, EntryFits, Handle;
    var (b, stored) := RunStream(a, xs, useL1).value;
    if |ys| == 0 {
      assert xs + ys == xs;
      assert stored + [] == stored;
    } else {
      var n := |ys| - 1;
      assert (xs + ys)[..|xs| + n] == xs + ys[..n];
      assert InputsFit(xs + ys[..n]);
      RunInTwo(a, xs, ys[..n], useL1);
      if RunStream(b, ys[..n], useL1).Some? {
        var (c, more) := RunStream(b, ys[..n], useL1).value;
        var h := Handle(c, ys[n].entry, useL1, ys[n].answers);
        if h.Handled? && h.stored.Some? {
          assert stored + (more + [h.stored.value]) == (stored + more) + [h.stored.value];
        }
      }
    }
  }

  /**
    Whatever well-formed batches the stream shows, wherever its bookmarks are, exactly those
    batches are stored, in order, each with its own blocks, transactions and stream entries.
  */
  lemma {:induction false} StreamStoresItsBatches(a: Assembly, chunks: seq<seq<Input>>, batches: seq<Batch>, useL1: bool)
    requires Fits(a) && Between(a) && DeliversAll(chunks, batches)
    ensures InputsFit(Flat(chunks))
    ensures var r := RunStream(a, Flat(chunks), useL1);
            && r.Some? && Between(r.value.0) && |r.value.1| == |batches|
            && forall i: nat | i < |batches| ::
                 StoresBatch(r.value.1[i], batches[i], useL1, chunks[i][|chunks[i]| - 1].answers.l1BatchData,
                             Entries(chunks[i]))
    decreases |chunks|
  {
    hide Fits, EntryFits, Handle, WellFormedBatch, Delivers, StoresBatch, Between;
    FlatFits(chunks, batches);
    if |chunks| == 0 {
      RunNothing(a, useL1);
    } else {
      var n := |chunks| - 1;
      StreamStoresItsBatches(a, chunks[..n], batches[..n], useL1);
      var (b, stored) := RunStream(a, Flat(chunks[..n]), useL1).value;
      DeliveredFits(chunks[n], batches[n]);
      BatchIsStored(b, chunks[n], batches[n], useL1);
      RunInTwo(a, Flat(chunks[..n]), chunks[n], useL1);
    }
  }

  lemma RunNothing(a: Assembly, useL1: bool)
    requires Fits(a)
    ensures RunStream(a, [], useL1) == Some((a, []))
  {
  }

  lemma DeliveredFits(inputs: seq<Input>, b: Batch)
    requires WellFormedBatch(b) && Delivers(inputs, b)
    ensures InputsFit(inputs)
  {
  }

  // ---------- from the stream to the prover ----------

  /**
    The prover decodes the stored batch data. From the stream it finds the blocks shown, less their
    numbers, exactly when every signature has a V the format can carry; from L1, what L1 has.
  */
  lemma StoredDataDecodes(s: StoredBatch, b: Batch, useL1: bool, l1BatchData: bytes, entries: seq<Entry>)
    requires WellFormedBatch(b) && |EncodeBlocks(b.blocks)| <= MAX_LENGTH
    requires StoresBatch(s, b, useL1, l1BatchData, entries)
    ensures useL1 || b.batchType == Invalid || b.batchType == Injected ==> s.batchL2Data == l1BatchData
    ensures !useL1 && b.batchType != Invalid && b.batchType != Injected ==>
              && |s.batchL2Data| <= MAX_LENGTH
              && (DecodeBatchFrom(s.batchL2Data, 0, [], None) == Ok(WithoutNumbers(b.blocks)) <==> AllValid(b.blocks))
  {
    hide EncodeBlocks, DecodeBatchFrom, DataOf;
    DecodeUndoesEncodeIff(b.blocks);
  }

  // ---------- failures ----------

  /**
    Exactly when an entry cannot be handled: its data cannot be read, or it ends a numbered batch
    that L1 or the database fails on, or that has no block and is neither invalid nor injected.
    Its bytes are kept all the same, and the batch keeps its number and type.
  */
  lemma FailsIff(a: Assembly, e: Entry, useL1: bool, answers: Answers)
    requires Fits(a) && EntryFits(e)
    ensures var r := Handle(a, e, useL1, answers);
            && (r.Failed? <==>
                  || e.kind == BatchStart(None) || e.kind == BatchEnd(false) || e.kind == L2Block(None)
                  || (e.kind.Transaction? && e.kind.tx.None?)
                  || (e.kind == BatchEnd(true) && a.number != 0
                      && (answers.Failure?
                          || (|a.blocks| == 0 && a.open.blockNumber == 0 && a.batchType != Invalid && a.batchType != Injected))))
            && (r.Failed? ==> r.next.streamData == a.streamData + e.encoded && r.next.number == a.number && r.next.batchType == a.batchType)
  {
    hide TxFits, EncodeBlocks, BlocksFit, TxsFit;
  }

  /** A transaction joins the open block, its percentage cut to a byte. */
  lemma TransactionJoins(a: Assembly, e: Entry, useL1: bool, answers: Answers)
    requires Fits(a) && EntryFits(e) && e.kind.Transaction? && e.kind.tx.Some?
    ensures var r := Handle(a, e, useL1, answers);
            && r.Handled? && r.stored.None?
            && r.next == a.(streamData := a.streamData + e.encoded,
                            open := a.open.(transactions := a.open.transactions + [Plain(e.kind.tx.value, e.kind.percentage % 0x100)]))
  {
    hide TxFits, BlocksFit, TxsFit;
  }

  /**
    Exactly when a failure changes the blocks of the batch: when there is an open block and the entry
    is a block that cannot be read, or the end of a batch that cannot be stored. The open block then
    joins the batch, and stays open.
  */
  lemma FailureClosesBlockIff(a: Assembly, e: Entry, useL1: bool, answers: Answers)
    requires Fits(a) && EntryFits(e) && Handle(a, e, useL1, answers).Failed?
    ensures var next := Handle(a, e, useL1, answers).next;
            && next.open == a.open
            && (next.blocks != a.blocks <==> a.open.blockNumber != 0 && (e.kind == L2Block(None) || e.kind == BatchEnd(true)))
            && (next.blocks != a.blocks ==> next.blocks == a.blocks + [a.open])
  {
    hide TxFits, EncodeBlocks, BlocksFit, TxsFit;
  }

  /** Whatever closes that block again after the failure puts it into the batch a second time. */
  lemma RetryKeepsBlockTwice(a: Assembly, e: Entry, retry: Entry, useL1: bool, answers: Answers, answers': Answers)
    requires Fits(a) && EntryFits(e) && EntryFits(retry) && Handle(a, e, useL1, answers).Failed?
    requires Handle(a, e, useL1, answers).next.blocks != a.blocks
    ensures var failed, twice := Handle(a, e, useL1, answers).next, a.blocks + [a.open, a.open];
            var r := Handle(failed, retry, useL1, answers');
            && (IsBlock(retry.kind) ==> r.Handled? && r.next.blocks == twice)
            && (EndsBatch(retry.kind) && r.Handled? && r.stored.Some? ==>
                  BlocksFit(twice) && answers'.Success?
                  && r.stored.value.batchL2Data
                     == if useL1 || a.batchType == Invalid || a.batchType == Injected then answers'.l1BatchData else EncodeBlocks(twice))
  {
    FailureClosesBlockIff(a, e, useL1, answers);
    hide TxFits, EncodeBlocks, TxsFit;
    assert a.blocks + [a.open] + [a.open] == a.blocks + [a.open, a.open];
  }
}
