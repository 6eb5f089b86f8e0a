/**
  Block-to-indexer conversion of transactions: a payset of transaction trees
  becomes a forest of the same shape, with offsets from one counter that is
  threaded through the recursion.
 */
module Convert {
  import opened Basics
  import opened Deltas

  datatype TxType = Payment | KeyRegistration | AssetConfig | AssetTransfer | AssetFreeze | ApplicationCall | OtherType

  /** A signed transaction with its apply data; the ids are those of the transaction itself, the
      `applied` ones and the closing amount those of its apply data. */
  datatype Txn = Txn(
    kind: TxType, sender: Address, accounts: seq<Address>,
    appId: U64, configAsset: U64, xferAsset: U64, freezeAsset: U64,
    appliedApp: U64, appliedAsset: U64, closing: U64,
    globalDelta: StateDelta, localDeltas: map<U64, StateDelta>, inner: seq<Txn>)

  /** The indexer form, without the fields that are copied as they are. */
  datatype Transaction = Transaction(
    kind: TxType, confirmedRound: U64, roundTime: U64, intraRoundOffset: U64,
    createdAsset: Option<U64>, createdApp: Option<U64>, closeAmount: Option<U64>,
    globalDelta: Option<seq<KeyValue>>, localDelta: Option<seq<AccountDelta>>,
    inner: Inners)

  /** InnerTxns: nil, or a non-empty list. */
  datatype Inners = Absent | Present(txns: seq<Transaction>)

  datatype RowData = RowData(round: U64, roundTime: int, intra: U64, assetId: U64, closeAmount: U64)

  // ----- the specification of one tree

  /** The number of nodes of a tree, and of the first i trees of a list. */
  function Count(t: Txn): (n: nat)
    ensures n >= 1
    decreases t, 0
  {
    1 + CountUpTo(t.inner, |t.inner|)
  }

  function CountUpTo(ts: seq<Txn>, i: nat): nat
    requires i <= |ts|
    decreases ts, i
  {
    if i == 0 then 0 else CountUpTo(ts, i - 1) + Count(ts[i - 1])
  }

  /** The counter after a tree, incremented at each node as uint. */
  function NextIntra(t: Txn, intra: U64): U64
    decreases t, 0
  {
    NextUpTo(t.inner, |t.inner|, Wrap(intra + 1))
  }

  function NextUpTo(ts: seq<Txn>, i: nat, intra: U64): U64
    requires i <= |ts|
    decreases ts, i
  {
    if i == 0 then intra else NextIntra(ts[i - 1], NextUpTo(ts, i - 1, intra))
  }

  /** The counter moves on by the number of nodes of the tree. */
  lemma {:induction false} CounterCountsNodes(t: Txn, intra: U64)
    ensures NextIntra(t, intra) == Wrap(intra + Count(t))
    decreases t, 0
  {
    CounterCountsUpTo(t.inner, |t.inner|, Wrap(intra + 1));
    WrapAdds(intra + 1, CountUpTo(t.inner, |t.inner|));
  }

  lemma {:induction false} CounterCountsUpTo(ts: seq<Txn>, i: nat, intra: U64)
    requires i <= |ts|
    ensures NextUpTo(ts, i, intra) == Wrap(intra + CountUpTo(ts, i))
    decreases ts, i
  {
    if i > 0 {
      CounterCountsUpTo(ts, i - 1, intra);
      CounterCountsNodes(ts[i - 1], NextUpTo(ts, i - 1, intra));
      WrapAdds(intra + CountUpTo(ts, i - 1), Count(ts[i - 1]));
    }
  }

  lemma WrapAdds(x: int, y: int)
    ensures Wrap(Wrap(x) + y) == Wrap(x + y)
  {
  }

  /** The row of an inner transaction: its root's, but for the created id and the closing amount. */
  function InnerRow(row: RowData, t: Txn): RowData {
    row.(assetId := if t.kind.ApplicationCall? then t.appliedApp
                    else if t.kind.AssetConfig? then t.appliedAsset else 0,
         closeAmount := t.closing)
  }

  /** Everything of the output but the inner transactions. */
  ghost function Head(t: Txn, row: RowData, inner: Inners): Transaction {
    Transaction(
      t.kind, row.round, Wrap(row.roundTime), row.intra,
      if t.kind.AssetConfig? && t.configAsset == 0 then Some(row.assetId) else None,
      if t.kind.ApplicationCall? && t.appId == 0 && row.assetId > 0 then Some(row.assetId) else None,
      if t.kind.AssetTransfer? then Some(row.closeAmount) else None,
      DeltaOf(t.globalDelta), LocalsOf(t.localDeltas, t.sender, t.accounts), inner)
  }

  ghost function Converted(t: Txn, row: RowData): Transaction
    decreases t, 0
  {
    Head(t, row, if t.inner == [] then Absent else Present(ConvertedUpTo(t.inner, |t.inner|, row)))
  }

  ghost function ConvertedUpTo(ts: seq<Txn>, i: nat, row: RowData): (r: seq<Transaction>)
    requires i <= |ts|
    ensures |r| == i
    decreases ts, i
  {
    if i == 0 then []
    else ConvertedUpTo(ts, i - 1, row) + [Converted(ts[i - 1], InnerRow(row, ts[i - 1]))]
  }

  /** Every account index in the tree is in range; the source would panic on another. */
  predicate Indexed(t: Txn)
    decreases t
  {
    InRange(t.localDeltas, t.accounts) && forall i :: 0 <= i < |t.inner| ==> Indexed(t.inner[i])
  }

  /** signedTxnWithAdToTransaction: the counter moves on by the number of nodes of the tree. */
  method SignedTxnWithAdToTransaction(t: Txn, intra: U64, row: RowData) returns (out: Transaction, next: U64)
    requires Indexed(t)
    ensures out == Converted(t, row)
    ensures next == NextIntra(t, intra)
    decreases t, 1
  {
    var locals := LocalDeltas(t.localDeltas, t.sender, t.accounts);
    var global := StateDeltaToStateDelta(t.globalDelta);
    next := Wrap(intra + 1);
    var inners := Absent;
    if |t.inner| > 0 {
      var itxns;
      itxns, next := ConvertInners(t.inner, next, row);
      inners := Present(itxns);
    }
    var createdAsset: Option<U64>, createdApp: Option<U64> := None, None;
    if t.kind.AssetConfig? && t.configAsset == 0 {
      createdAsset := Some(row.assetId);
    }
    if t.kind.ApplicationCall? && t.appId == 0 && row.assetId > 0 {
      createdApp := Some(row.assetId);
    }
    out := Transaction(
      t.kind, row.round, Wrap(row.roundTime), row.intra, createdAsset, createdApp,
      if t.kind.AssetTransfer? then Some(row.closeAmount) else None, global, locals, inners);
  }

  /** Its loop over the inner transactions. */
  method ConvertInners(ts: seq<Txn>, intra: U64, row: RowData) returns (itxns: seq<Transaction>, next: U64)
    requires forall i :: 0 <= i < |ts| ==> Indexed(ts[i])
    ensures itxns == ConvertedUpTo(ts, |ts|, row)
    ensures next == NextUpTo(ts, |ts|, intra)
    decreases ts, 0
  {
    itxns, next := [], intra;
    for i := 0 to |ts|
      invariant itxns == ConvertedUpTo(ts, i, row)
      invariant next == NextUpTo(ts, i, intra)
    {
      var itxn;
      itxn, next := SignedTxnWithAdToTransaction(ts[i], next, InnerRow(row, ts[i]));
      itxns := itxns + [itxn];
    }
  }

  // ----- what the specification says of one tree

  /** Every node of the output tree carries the given offset, round and time. */
  predicate Carries(out: Transaction, offset: U64, round: U64, time: U64)
    decreases out
  {
    && out.intraRoundOffset == offset && out.confirmedRound == round && out.roundTime == time
    && (out.inner.Present? ==> forall i :: 0 <= i < |out.inner.txns| ==> Carries(out.inner.txns[i], offset, round, time))
  }

  /** The output tree has the shape of the input tree, node kinds included. */
  predicate SameShape(t: Txn, out: Transaction)
    decreases t
  {
    && out.kind == t.kind
    && (out.inner.Absent? <==> t.inner == [])
    && (out.inner.Present? ==>
          && |out.inner.txns| == |t.inner|
          && forall i :: 0 <= i < |t.inner| ==> SameShape(t.inner[i], out.inner.txns[i]))
  }

  /** Every inner transaction has the created id and the closing amount of its own apply data, and
      the canonical form of its own deltas. */
  ghost predicate InnersOwn(t: Txn, out: Transaction)
    decreases t
  {
    out.inner.Present? && |out.inner.txns| == |t.inner| ==>
      forall i :: 0 <= i < |t.inner| ==> OwnData(t.inner[i], out.inner.txns[i]) && InnersOwn(t.inner[i], out.inner.txns[i])
  }

  ghost predicate OwnData(t: Txn, out: Transaction) {
    && out.createdAsset == (if t.kind.AssetConfig? && t.configAsset == 0 then Some(t.appliedAsset) else None)
    && out.createdApp == (if t.kind.ApplicationCall? && t.appId == 0 && t.appliedApp > 0 then Some(t.appliedApp) else None)
    && OwnResult(t, out)
  }

  ghost predicate OwnResult(t: Txn, out: Transaction) {
    && out.closeAmount == (if t.kind.AssetTransfer? then Some(t.closing) else None)
    && out.globalDelta == DeltaOf(t.globalDelta)
    && out.localDelta == LocalsOf(t.localDeltas, t.sender, t.accounts)
  }

  lemma {:induction false} ConvertedAt(ts: seq<Txn>, n: nat, row: RowData, i: nat)
    requires i < n <= |ts|
    ensures ConvertedUpTo(ts, n, row)[i] == Converted(ts[i], InnerRow(row, ts[i]))
    decreases n
  {
    if i < n - 1 {
      ConvertedAt(ts, n - 1, row, i);
    }
  }

  /** One tree: same shape, and every node carries its root's offset, round and time. */
  lemma {:induction false} TreeIsNumberedByItsRoot(t: Txn, row: RowData)
    ensures SameShape(t, Converted(t, row)) && InnersOwn(t, Converted(t, row))
    ensures Carries(Converted(t, row), row.intra, row.round, Wrap(row.roundTime))
    decreases t
  {
    var outs := ConvertedUpTo(t.inner, |t.inner|, row);
    forall i | 0 <= i < |t.inner|
      ensures outs[i] == Converted(t.inner[i], InnerRow(row, t.inner[i]))
      ensures SameShape(t.inner[i], outs[i]) && InnersOwn(t.inner[i], outs[i]) && OwnData(t.inner[i], outs[i])
      ensures Carries(outs[i], row.intra, row.round, Wrap(row.roundTime))
    {
      ConvertedAt(t.inner, |t.inner|, row, i);
      TreeIsNumberedByItsRoot(t.inner[i], InnerRow(row, t.inner[i]));
    }
  }

  // ----- the payset

  /** A payset element: a decodable transaction, or the error of DecodeSignedTxn. */
  datatype Stib = Decodable(txn: Txn) | Undecodable(error: string)

  datatype Block = Block(round: U64, timeStamp: int, txnCounter: U64, payset: seq<Stib>)

  datatype Result = Ok(txns: seq<Transaction>, counter: U64) | Err(error: string)

  /** transactionAssetID with a block at hand, in uint64 arithmetic. */
  function AssetId(t: Txn, intra: U64, block: Block): U64 {
    match t.kind
    case ApplicationCall =>
      if t.appId != 0 then t.appId else if t.appliedApp != 0 then t.appliedApp else CounterId(block, intra)
    case AssetConfig =>
      if t.configAsset != 0 then t.configAsset else if t.appliedAsset != 0 then t.appliedAsset else CounterId(block, intra)
    case AssetTransfer => t.xferAsset
    case AssetFreeze => t.freezeAsset
    case _ => 0
  }

  /** TxnCounter - len(Payset) + intra + 1. */
  function CounterId(block: Block, intra: U64): U64 {
    Wrap(block.txnCounter - |block.payset| + intra + 1)
  }

  /** The first i elements decode. */
  predicate Decodes(block: Block, i: nat) {
    i <= |block.payset| && forall j :: 0 <= j < i ==> block.payset[j].Decodable?
  }

  /** The number of nodes of the first i trees. */
  function Total(block: Block, i: nat): nat
    requires Decodes(block, i)
  {
    if i == 0 then 0 else Total(block, i - 1) + Count(block.payset[i - 1].txn)
  }

  /** The counter when root i is reached. */
  function Intra(block: Block, i: nat): U64
    requires Decodes(block, i)
  {
    if i == 0 then 0 else NextIntra(block.payset[i - 1].txn, Intra(block, i - 1))
  }

  function RowOf(block: Block, t: Txn, intra: U64): RowData {
    RowData(block.round, block.timeStamp, intra, AssetId(t, intra, block), t.closing)
  }

  ghost function Root(block: Block, i: nat): Transaction
    requires Decodes(block, i + 1)
  {
    Converted(block.payset[i].txn, RowOf(block, block.payset[i].txn, Intra(block, i)))
  }

  ghost function Roots(block: Block, i: nat): (r: seq<Transaction>)
    requires Decodes(block, i)
    ensures |r| == i && forall j :: 0 <= j < i ==> r[j] == Root(block, j)
  {
    if i == 0 then [] else Roots(block, i - 1) + [Root(block, i - 1)]
  }

  /** genTransactions, with the final value of its counter: a root for every payset element, or the
      error of the first element that does not decode. */
  method GenTransactions(block: Block) returns (r: Result)
    requires forall i :: 0 <= i < |block.payset| && block.payset[i].Decodable? ==> Indexed(block.payset[i].txn)
    ensures r.Ok? <==> Decodes(block, |block.payset|)
    ensures r.Ok? ==>
      && |r.txns| == |block.payset| && r.counter == Wrap(Total(block, |block.payset|))
      && forall i :: 0 <= i < |block.payset| ==> RootOf(block, i, r.txns[i])
    ensures r.Err? ==> exists i :: 0 <= i < |block.payset| && Decodes(block, i) && block.payset[i] == Undecodable(r.error)
  {
    var intra: U64 := 0;
    var results: seq<Transaction> := [];
    for i := 0 to |block.payset|
      invariant Decodes(block, i) && intra == Intra(block, i) && results == Roots(block, i)
    {
      var stib := block.payset[i];
      if stib.Undecodable? {
        return Err(stib.error);
      }
      var tx;
      tx, intra := SignedTxnWithAdToTransaction(stib.txn, intra, RowOf(block, stib.txn, intra));
      results := results + [tx];
    }
    forall i | 0 <= i < |block.payset| ensures RootOf(block, i, results[i]) {
      IntraRoundNumbering(block, i);
    }
    IntraIsTotal(block, |block.payset|);
    r := Ok(results, intra);
  }

  /** The ids that root i creates.  The id in its apply data comes first; the counter is for the
      transactions without one, by the number of nodes before it.  A transaction that names an asset or
      an application of its own, or is of another kind, creates none. */
  predicate CreatesOwn(block: Block, i: nat, out: Transaction)
    requires Decodes(block, i + 1)
  {
    var t := block.payset[i].txn;
    var next := Wrap(block.txnCounter - |block.payset| + Total(block, i) + 1);
    && (t.kind.AssetConfig? && t.configAsset == 0 && t.appliedAsset != 0 ==> out.createdAsset == Some(t.appliedAsset))
    && (t.kind.AssetConfig? && t.configAsset == 0 && t.appliedAsset == 0 ==> out.createdAsset == Some(next))
    && (!t.kind.AssetConfig? || t.configAsset != 0 ==> out.createdAsset.None?)
    && (t.kind.ApplicationCall? && t.appId == 0 && t.appliedApp != 0 ==> out.createdApp == Some(t.appliedApp))
    && (t.kind.ApplicationCall? && t.appId == 0 && t.appliedApp == 0 ==> out.createdApp == if next > 0 then Some(next) else None)
    && (!t.kind.ApplicationCall? || t.appId != 0 ==> out.createdApp.None?)
  }

  /** What the output for payset element i has to be: its tree with its shape, every node with the
      number of all nodes before the root as its offset and with the round and time of the block, the root
      with its own created ids, results and deltas, and every inner transaction with its own. */
  ghost predicate RootOf(block: Block, i: nat, out: Transaction)
    requires Decodes(block, i + 1)
  {
    && Carries(out, Wrap(Total(block, i)), block.round, Wrap(block.timeStamp))
    && SameShape(block.payset[i].txn, out) && InnersOwn(block.payset[i].txn, out)
    && OwnResult(block.payset[i].txn, out) && CreatesOwn(block, i, out)
  }

  lemma RootCreatesOwn(block: Block, i: nat)
    requires i < |block.payset| && Decodes(block, i + 1)
    ensures CreatesOwn(block, i, Root(block, i))
  {
    IntraIsTotal(block, i);
    WrapAdds(Total(block, i), block.txnCounter - |block.payset| + 1);
    var t := block.payset[i].txn;
    CreatedIds(t, RowOf(block, t, Intra(block, i)));
  }

  lemma {:induction false} IntraIsTotal(block: Block, i: nat)
    requires Decodes(block, i)
    ensures Intra(block, i) == Wrap(Total(block, i))
  {
    if i > 0 {
      IntraIsTotal(block, i - 1);
      CounterCountsNodes(block.payset[i - 1].txn, Intra(block, i - 1));
      WrapAdds(Total(block, i - 1), Count(block.payset[i - 1].txn));
    }
  }

  lemma RootIsNumbered(block: Block, i: nat)
    requires Decodes(block, i + 1)
    ensures Carries(Root(block, i), Intra(block, i), block.round, Wrap(block.timeStamp))
    ensures SameShape(block.payset[i].txn, Root(block, i))
    ensures InnersOwn(block.payset[i].txn, Root(block, i)) && OwnResult(block.payset[i].txn, Root(block, i))
  {
    var t := block.payset[i].txn;
    TreeIsNumberedByItsRoot(t, RowOf(block, t, Intra(block, i)));
  }

  /** Intra-round numbering: root i has the node count of all earlier trees as its offset, every node
      of its tree carries that offset, the block's round and time and its own result, the tree keeps
      its shape, and the counter ends at the node count of the block, all modulo 2^64. */
  lemma IntraRoundNumbering(block: Block, i: nat)
    requires i < |block.payset| && Decodes(block, |block.payset|)
    ensures RootOf(block, i, Root(block, i))
    ensures Intra(block, |block.payset|) == Wrap(Total(block, |block.payset|))
  {
    RootIsNumbered(block, i);
    RootCreatesOwn(block, i);
    IntraIsTotal(block, i);
    IntraIsTotal(block, |block.payset|);
  }

  // ----- ids derived from the transaction counter

  predicate NoInners(block: Block, i: nat)
    requires Decodes(block, i)
  {
    forall j :: 0 <= j < i ==> block.payset[j].txn.inner == []
  }

  lemma CountOfLeaf(t: Txn)
    ensures Count(t) == 1 <==> t.inner == []
  {
    if t.inner != [] {
      assert Count(t.inner[|t.inner| - 1]) >= 1;
    }
  }

  lemma {:induction false} TotalOfLeaves(block: Block, i: nat)
    requires Decodes(block, i)
    ensures Total(block, i) >= i
    ensures Total(block, i) == i <==> NoInners(block, i)
  {
    if i > 0 {
      TotalOfLeaves(block, i - 1);
      CountOfLeaf(block.payset[i - 1].txn);
      assert NoInners(block, i) <==> NoInners(block, i - 1) && block.payset[i - 1].txn.inner == [];
    }
  }

  /** The counter formula gives the id by payset position exactly if no earlier transaction of the
      block has inner transactions. */
  lemma CounterIdIsPositional(block: Block, i: nat)
    requires i < |block.payset| && Decodes(block, i) && Total(block, i) < TWO64
    ensures CounterId(block, Intra(block, i)) == Wrap(block.txnCounter - |block.payset| + i + 1)
            <==> NoInners(block, i)
  {
    IntraIsTotal(block, i);
    TotalOfLeaves(block, i);
    WrapInjective(block.txnCounter - |block.payset| + 1, Intra(block, i), i);
  }

  lemma WrapInjective(x: int, a: int, b: int)
    requires 0 <= b <= a < TWO64
    ensures Wrap(x + a) == Wrap(x + b) <==> a == b
  {
    if Wrap(x + a) == Wrap(x + b) {
      var q, p := (x + a) / TWO64, (x + b) / TWO64;
      assert x + a == TWO64 * q + Wrap(x + a) && x + b == TWO64 * p + Wrap(x + b);
      assert a - b == TWO64 * (q - p);
    }
  }

  lemma CounterIsPosition(block: Block, i: nat)
    requires i < TWO64 && Decodes(block, i) && NoInners(block, i)
    ensures Intra(block, i) == i
  {
    IntraIsTotal(block, i);
    TotalOfLeaves(block, i);
  }

  lemma CreatedIds(t: Txn, row: RowData)
    ensures Converted(t, row).createdAsset ==
      if t.kind.AssetConfig? && t.configAsset == 0 then Some(row.assetId) else None
    ensures Converted(t, row).createdApp ==
      if t.kind.ApplicationCall? && t.appId == 0 && row.assetId > 0 then Some(row.assetId) else None
  {
  }

  /** In a block without inner transactions whose counter covers its payset of n, the id created at
      position i by counter is TxnCounter - n + i + 1: it never wraps, strictly increases with the
      position and lies in (TxnCounter - n, TxnCounter]. */
  lemma CreatedIdsByCounter(block: Block, i: nat)
    requires i < |block.payset| && Decodes(block, |block.payset|) && NoInners(block, |block.payset|)
    requires block.txnCounter >= |block.payset|
    ensures var t, id := block.payset[i].txn, block.txnCounter - |block.payset| + i + 1;
      && block.txnCounter - |block.payset| < id <= block.txnCounter
      && (t.kind.AssetConfig? && t.configAsset == 0 && t.appliedAsset == 0 ==> Root(block, i).createdAsset == Some(id))
      && (t.kind.ApplicationCall? && t.appId == 0 && t.appliedApp == 0 ==> Root(block, i).createdApp == Some(id))
  {
    CounterIsPosition(block, i);
    var t := block.payset[i].txn;
    CreatedIds(t, RowOf(block, t, i));
  }
}
