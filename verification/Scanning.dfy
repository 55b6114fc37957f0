/** What scanning finds: each owned output once, whichever scanner runs and whatever calls fail. */
module Scanning {
  import opened Text
  import opened StoreCodec
  import opened Coins
  import opened Node
  import opened Ledger

  /// The owned outputs, by definition

  /** Of the outputs of a transaction from the k-th on, those paying the wallet, as UTXOs. */
  function OwnedOutputs(env: Env, addresses: map<string, string>, tx: BlockTx, k: nat): seq<UTXO>
    requires k <= |tx.outs|
    decreases |tx.outs| - k
  {
    if k == |tx.outs| then []
    else if Owned(env, addresses, tx.outs[k])
    then [Received(env, addresses, tx.txid, k, tx.outs[k])] + OwnedOutputs(env, addresses, tx, k + 1)
    else OwnedOutputs(env, addresses, tx, k + 1)
  }

  function OwnedIn(env: Env, addresses: map<string, string>, block: Block, i: nat): seq<UTXO>
    requires i <= |block|
    decreases |block| - i
  {
    if i == |block| then []
    else OwnedOutputs(env, addresses, block[i], 0) + OwnedIn(env, addresses, block, i + 1)
  }

  /** Output `k` of transaction `i` pays an address of the wallet, by public key hash or as a witness, and
      `u` is its unspent record, under the path of the address. */
  ghost predicate RecordOf(env: Env, addresses: map<string, string>, tx: BlockTx, k: nat, u: UTXO) {
    && k < |tx.outs|
    && var out, info := tx.outs[k], env.info(tx.outs[k].script);
    && info.Pays? && (info.kind == PubKeyHash || info.kind == WitnessV0PubKeyHash) && info.address in addresses
    && u.txid == tx.txid && u.vout == k && u.value == out.value && u.script == out.script && !u.spent
    && u.path == addresses[info.address]
  }

  lemma {:induction false} OwnedOutputsAre(env: Env, addresses: map<string, string>, tx: BlockTx, k: nat, u: UTXO)
    requires k <= |tx.outs| < 0x1_0000_0000
    ensures u in OwnedOutputs(env, addresses, tx, k) <==> exists j :: k <= j && RecordOf(env, addresses, tx, j, u)
    decreases |tx.outs| - k
  {
    if k < |tx.outs| {
      OwnedOutputsAre(env, addresses, tx, k + 1, u);
      OneOutputIs(env, addresses, tx, k, u);
      if exists j :: k <= j && RecordOf(env, addresses, tx, j, u) {
        var j :| k <= j && RecordOf(env, addresses, tx, j, u);
        assert j == k || k + 1 <= j;
      }
    }
  }

  lemma OneOutputIs(env: Env, addresses: map<string, string>, tx: BlockTx, k: nat, u: UTXO)
    requires k < |tx.outs| < 0x1_0000_0000
    ensures RecordOf(env, addresses, tx, k, u)
       <==> Owned(env, addresses, tx.outs[k]) && u == Received(env, addresses, tx.txid, k, tx.outs[k])
  {
  }

  /** What is found in a block, told by its outputs alone. */
  lemma {:induction false} OwnedInAre(env: Env, addresses: map<string, string>, block: Block, i: nat, u: UTXO)
    requires i <= |block| && forall j :: 0 <= j < |block| ==> |block[j].outs| < 0x1_0000_0000
    ensures u in OwnedIn(env, addresses, block, i)
       <==> exists j, k :: i <= j < |block| && 0 <= k && RecordOf(env, addresses, block[j], k, u)
    decreases |block| - i
  {
    if i < |block| {
      OwnedOutputsAre(env, addresses, block[i], 0, u);
      OwnedInAre(env, addresses, block, i + 1, u);
      if exists j, k :: i <= j < |block| && 0 <= k && RecordOf(env, addresses, block[j], k, u) {
        var j, k :| i <= j < |block| && 0 <= k && RecordOf(env, addresses, block[j], k, u);
        assert j == i || i + 1 <= j;
      }
    }
  }

  /** The owned outputs of the blocks at heights `lo` to `hi - 1`. */
  function OwnedBetween(env: Env, addresses: map<string, string>, chain: seq<Block>, lo: nat, hi: nat): seq<UTXO>
    requires lo <= hi <= |chain|
    decreases hi
  {
    if lo == hi then []
    else OwnedBetween(env, addresses, chain, lo, hi - 1) + OwnedIn(env, addresses, chain[hi - 1], 0)
  }

  /** A wallet credited with some UTXOs, one after the other. */
  function Credited(w: Wallet, us: seq<UTXO>): Wallet
    decreases |us|
  {
    if us == [] then w
    else Credited(WithBalance(WithUTXO(w, us[0]), w.balance + us[0].value), us[1..])
  }

  function Stored(bucket: map<string, UTXO>, us: seq<UTXO>): map<string, UTXO>
    decreases |us|
  {
    if us == [] then bucket else Stored(bucket[Outpoint(us[0]) := us[0]], us[1..])
  }

  lemma {:induction false} CreditedConcat(w: Wallet, us: seq<UTXO>, vs: seq<UTXO>)
    ensures Credited(w, us + vs) == Credited(Credited(w, us), vs)
    decreases |us|
  {
    if us == [] {
      assert us + vs == vs;
    } else {
      assert (us + vs)[1..] == us[1..] + vs;
      CreditedConcat(WithBalance(WithUTXO(w, us[0]), w.balance + us[0].value), us[1..], vs);
    }
  }

  /** A wallet with the UTXOs appended and their sum added, in memory and but for the balance in the store. */
  function CreditedForm(w: Wallet, us: seq<UTXO>, stored: Bytes8): Wallet {
    w.(utxos := w.utxos + us, balance := w.balance + Sum(us),
       store := w.store.(utxos := Stored(w.store.utxos, us), balance := stored))
  }

  lemma CreditedFormNext(w: Wallet, us: seq<UTXO>, stored: Bytes8)
    requires us != []
    ensures var w1 := WithBalance(WithUTXO(w, us[0]), w.balance + us[0].value);
      CreditedForm(w1, us[1..], stored) == CreditedForm(w, us, stored)
  {
    SumFront(us);
    assert w.utxos + us == w.utxos + [us[0]] + us[1..];
  }

  /** Crediting appends the UTXOs, adds their sum to the balance, and writes both through. */
  lemma {:induction false} CreditedAll(w: Wallet, us: seq<UTXO>)
    ensures var c := Credited(w, us);
      && c == CreditedForm(w, us, c.store.balance)
      && (us == [] ==> c == w)
      && (us != [] || w.store.balance == Int64ToBytes(w.balance) ==> c.store.balance == Int64ToBytes(c.balance))
    decreases |us|
  {
    if us == [] {
      assert w.utxos + us == w.utxos;
    } else {
      CreditedAll(WithBalance(WithUTXO(w, us[0]), w.balance + us[0].value), us[1..]);
      CreditedFormNext(w, us, Credited(w, us).store.balance);
    }
  }

  lemma CreditedFields(w: Wallet, us: seq<UTXO>)
    ensures var c := Credited(w, us);
      && c.utxos == w.utxos + us && c.balance == w.balance + Sum(us)
      && c.store.utxos == Stored(w.store.utxos, us)
      && c.store.keys == w.store.keys && c.addresses == w.addresses && c.lastScanned == w.lastScanned
      && (w.store.balance == Int64ToBytes(w.balance) ==> c.store.balance == Int64ToBytes(c.balance))
  {
    CreditedAll(w, us);
  }

  /// One block, all writes succeeding

  predicate WellFormedTx(env: Env, tx: BlockTx) {
    forall k :: 0 <= k < |tx.outs| ==> !env.info(tx.outs[k].script).Malformed?
  }

  predicate WellFormed(env: Env, block: Block) {
    forall i :: 0 <= i < |block| ==> WellFormedTx(env, block[i])
  }

  lemma CreditSucceeds(s: Scan, u: UTXO, ok: Writes)
    requires AllSucceed(ok)
    ensures Credit(s, u, ok) == Scan(Credited(s.w, [u]), s.writes + 2, true)
  {
    assert ok(s.writes) && ok(s.writes + 1);
    assert [u][1..] == [];
  }

  lemma {:induction false} ScanOutputsFinds(env: Env, s: Scan, tx: BlockTx, k: nat, ok: Writes)
    requires AllSucceed(ok) && WellFormedTx(env, tx) && k <= |tx.outs| && s.running
    ensures var r := ScanOutputs(env, s, tx, k, ok);
      r.running && r.w == Credited(s.w, OwnedOutputs(env, s.w.addresses, tx, k)) && r.w.addresses == s.w.addresses
    decreases |tx.outs| - k
  {
    CreditedAll(s.w, OwnedOutputs(env, s.w.addresses, tx, k));
    if k < |tx.outs| {
      var out := tx.outs[k];
      var s1 := ScanOutput(env, s, tx.txid, k, out, ok);
      if Owned(env, s.w.addresses, out) {
        var u := Received(env, s.w.addresses, tx.txid, k, out);
        CreditSucceeds(s, u, ok);
        CreditedAll(s.w, [u]);
        CreditedConcat(s.w, [u], OwnedOutputs(env, s.w.addresses, tx, k + 1));
      }
      ScanOutputsFinds(env, s1, tx, k + 1, ok);
    }
  }

  lemma {:induction false} ScanTxsFinds(env: Env, s: Scan, block: Block, i: nat, ok: Writes)
    requires AllSucceed(ok) && WellFormed(env, block) && i <= |block| && s.running
    ensures var r := ScanTxs(env, s, block, i, ok);
      r.running && r.w == Credited(s.w, OwnedIn(env, s.w.addresses, block, i))
    decreases |block| - i
  {
    if i < |block| {
      var found := OwnedOutputs(env, s.w.addresses, block[i], 0);
      var s1 := ScanOutputs(env, s, block[i], 0, ok);
      ScanOutputsFinds(env, s, block[i], 0, ok);
      CreditedConcat(s.w, found, OwnedIn(env, s.w.addresses, block, i + 1));
      ScanTxsFinds(env, s1, block, i + 1, ok);
    }
  }

  /** A well-formed block credits exactly its owned outputs, and counts as scanned. */
  lemma ScanBlockFinds(env: Env, w: Wallet, block: Block, ok: Writes)
    requires AllSucceed(ok) && WellFormed(env, block)
    ensures ScanBlock(env, w, block, ok)
         == WithLastScanned(Credited(w, OwnedIn(env, w.addresses, block, 0)), w.lastScanned + 1)
  {
    var s := ScanTxs(env, Scan(w, 0, true), block, 0, ok);
    ScanTxsFinds(env, Scan(w, 0, true), block, 0, ok);
    CreditedAll(w, OwnedIn(env, w.addresses, block, 0));
    assert ok(s.writes);
  }

  /// Blocks that stop the scan

  lemma {:induction false} MalformedTxStops(env: Env, s: Scan, tx: BlockTx, k: nat, ok: Writes)
    requires k <= |tx.outs|
    requires exists j :: k <= j < |tx.outs| && env.info(tx.outs[j].script).Malformed?
    ensures !ScanOutputs(env, s, tx, k, ok).running
    decreases |tx.outs| - k
  {
    if s.running {
      var s1 := ScanOutput(env, s, tx.txid, k, tx.outs[k], ok);
      if s1.running {
        MalformedTxStops(env, s1, tx, k + 1, ok);
      }
    }
  }

  lemma {:induction false} MalformedBlockStops(env: Env, s: Scan, block: Block, i: nat, ok: Writes)
    requires i <= |block|
    requires exists j :: i <= j < |block| && !WellFormedTx(env, block[j])
    ensures !ScanTxs(env, s, block, i, ok).running
    decreases |block| - i
  {
    if s.running {
      var s1 := ScanOutputs(env, s, block[i], 0, ok);
      if !WellFormedTx(env, block[i]) {
        MalformedTxStops(env, s, block[i], 0, ok);
      } else if s1.running {
        MalformedBlockStops(env, s1, block, i + 1, ok);
      }
    }
  }

  ghost predicate SameHeight(w: Wallet, w': Wallet) {
    w'.lastScanned == w.lastScanned && w'.store.lastScanned == w.store.lastScanned
  }

  lemma {:induction false} OutputsKeepHeight(env: Env, s: Scan, tx: BlockTx, k: nat, ok: Writes)
    requires k <= |tx.outs|
    ensures SameHeight(s.w, ScanOutputs(env, s, tx, k, ok).w)
    decreases |tx.outs| - k
  {
    if s.running && k < |tx.outs| {
      OutputsKeepHeight(env, ScanOutput(env, s, tx.txid, k, tx.outs[k], ok), tx, k + 1, ok);
    }
  }

  lemma {:induction false} TxsKeepHeight(env: Env, s: Scan, block: Block, i: nat, ok: Writes)
    requires i <= |block|
    ensures SameHeight(s.w, ScanTxs(env, s, block, i, ok).w)
    decreases |block| - i
  {
    if s.running && i < |block| {
      OutputsKeepHeight(env, s, block[i], 0, ok);
      TxsKeepHeight(env, ScanOutputs(env, s, block[i], 0, ok), block, i + 1, ok);
    }
  }

  /** With a working store, the height moves on exactly when every script of the block parses;
      otherwise the loop of scanMissingBlocks would come back to the same block for ever. */
  lemma BlockAdvancesIffWellFormed(env: Env, w: Wallet, block: Block, ok: Writes)
    requires AllSucceed(ok)
    ensures ScanBlock(env, w, block, ok).lastScanned == w.lastScanned + 1 <==> WellFormed(env, block)
    ensures ScanBlock(env, w, block, ok).lastScanned == w.lastScanned <==> !WellFormed(env, block)
  {
    if WellFormed(env, block) {
      ScanBlockFinds(env, w, block, ok);
    } else {
      MalformedBlockStops(env, Scan(w, 0, true), block, 0, ok);
      TxsKeepHeight(env, Scan(w, 0, true), block, 0, ok);
    }
  }

  /// Many blocks, with calls that fail

  /** What may go wrong in one round of scanMissingBlocks. A failed hash call leaves a nil hash, which
      the block call then refuses. */
  datatype Fault = HashCallFails | BlockCallFails | StoreFails(ok: Writes)

  /** How one round goes: well, or with a fault. */
  type Outcome = Option<Fault>

  ghost predicate NodeFaultsOnly(outcomes: seq<Outcome>) {
    forall i :: 0 <= i < |outcomes| ==> outcomes[i].None? || !outcomes[i].value.StoreFails?
  }

  /** Every script of the blocks from above `low` up to `high` parses. */
  ghost predicate ParsesBetween(env: Env, chain: seq<Block>, low: int, high: int)
    requires high < |chain|
  {
    forall h: nat :: low < h <= high ==> WellFormed(env, chain[h])
  }

  function Working(): Writes {
    n => true
  }

  /** The scan up to a height, as one credit. */
  function ScannedTo(env: Env, w: Wallet, chain: seq<Block>, height: int): Wallet
    requires -1 <= w.lastScanned && height < |chain|
  {
    if height <= w.lastScanned then w
    else WithLastScanned(Credited(w, OwnedBetween(env, w.addresses, chain, w.lastScanned + 1, height + 1)), height)
  }

  lemma {:induction false} OwnedBetweenSplits(env: Env, addresses: map<string, string>, chain: seq<Block>, a: nat,
                                              b: nat, c: nat)
    requires a <= b <= c <= |chain|
    ensures OwnedBetween(env, addresses, chain, a, c)
         == OwnedBetween(env, addresses, chain, a, b) + OwnedBetween(env, addresses, chain, b, c)
    decreases c
  {
    if b < c {
      OwnedBetweenSplits(env, addresses, chain, a, b, c - 1);
    }
  }

  lemma OwnedBetweenOne(env: Env, addresses: map<string, string>, chain: seq<Block>, h: nat)
    requires h < |chain|
    ensures OwnedBetween(env, addresses, chain, h, h + 1) == OwnedIn(env, addresses, chain[h], 0)
  {
    assert OwnedBetween(env, addresses, chain, h, h) == [];
  }

  lemma {:induction false} CreditedKeeps(w: Wallet, us: seq<UTXO>)
    ensures Credited(w, us).addresses == w.addresses && Credited(w, us).lastScanned == w.lastScanned
    ensures forall height :: Credited(WithLastScanned(w, height), us) == WithLastScanned(Credited(w, us), height)
    decreases |us|
  {
    if us != [] {
      CreditedKeeps(WithBalance(WithUTXO(w, us[0]), w.balance + us[0].value), us[1..]);
    }
  }

  lemma CreditedInTwo(w: Wallet, first: seq<UTXO>, second: seq<UTXO>, mid: int, height: int)
    ensures WithLastScanned(Credited(WithLastScanned(Credited(w, first), mid), second), height)
         == WithLastScanned(Credited(w, first + second), height)
  {
    CreditedConcat(w, first, second);
    CreditedKeeps(Credited(w, first), second);
  }

  lemma ScannedToIs(env: Env, w: Wallet, chain: seq<Block>, height: int, found: seq<UTXO>)
    requires -1 <= w.lastScanned < height < |chain|
    requires found == OwnedBetween(env, w.addresses, chain, w.lastScanned + 1, height + 1)
    ensures ScannedTo(env, w, chain, height) == WithLastScanned(Credited(w, found), height)
  {
  }

  lemma ScannedOn(env: Env, w: Wallet, w1: Wallet, first: seq<UTXO>, chain: seq<Block>, mid: nat, height: nat)
    requires -1 <= w.lastScanned < mid < height < |chain|
    requires first == OwnedBetween(env, w.addresses, chain, w.lastScanned + 1, mid + 1)
    requires w1 == WithLastScanned(Credited(w, first), mid)
    ensures ScannedTo(env, w1, chain, height) == ScannedTo(env, w, chain, height)
  {
    CreditedFields(w, first);
    JoinScans(env, w, w1, first, OwnedBetween(env, w1.addresses, chain, mid + 1, height + 1), chain, mid, height);
  }

  lemma JoinScans(env: Env, w: Wallet, w1: Wallet, first: seq<UTXO>, second: seq<UTXO>, chain: seq<Block>, mid: nat,
                  height: nat)
    requires -1 <= w.lastScanned < mid < height < |chain|
    requires first == OwnedBetween(env, w.addresses, chain, w.lastScanned + 1, mid + 1)
    requires second == OwnedBetween(env, w1.addresses, chain, mid + 1, height + 1)
    requires w1 == WithLastScanned(Credited(w, first), mid) && w1.addresses == w.addresses
    ensures ScannedTo(env, w1, chain, height) == ScannedTo(env, w, chain, height)
  {
    OwnedBetweenSplits(env, w.addresses, chain, w.lastScanned + 1, mid + 1, height + 1);
    ScannedToIs(env, w1, chain, height, second);
    ScannedToIs(env, w, chain, height, first + second);
    CreditedInTwo(w, first, second, mid, height);
  }

  /** Scanning in two goes is scanning in one. */
  lemma ScannedToComposes(env: Env, w: Wallet, chain: seq<Block>, mid: int, height: int)
    requires -1 <= w.lastScanned <= mid <= height < |chain|
    ensures ScannedTo(env, w, chain, mid).lastScanned == mid
    ensures ScannedTo(env, ScannedTo(env, w, chain, mid), chain, height) == ScannedTo(env, w, chain, height)
  {
    if w.lastScanned < mid < height {
      var first := OwnedBetween(env, w.addresses, chain, w.lastScanned + 1, mid + 1);
      ScannedToIs(env, w, chain, mid, first);
      ScannedOn(env, w, ScannedTo(env, w, chain, mid), first, chain, mid, height);
    }
  }

  lemma OneBlockIsOneStep(env: Env, w: Wallet, chain: seq<Block>, h: nat, ok: Writes)
    requires AllSucceed(ok) && h == w.lastScanned + 1 && h < |chain| && WellFormed(env, chain[h])
    ensures ScanBlock(env, w, chain[h], ok) == ScannedTo(env, w, chain, h)
  {
    ScanBlockFinds(env, w, chain[h], ok);
    OwnedBetweenOne(env, w.addresses, chain, h);
  }

  /** One round of scanMissingBlocks. A height the chain does not have, below zero say, has no hash. */
  function ScanRound(env: Env, w: Wallet, chain: seq<Block>, outcome: Outcome): Wallet {
    var h := w.lastScanned + 1;
    if !(0 <= h < |chain|) then w
    else
      match outcome
      case None => ScanBlock(env, w, chain[h], Working())
      case Some(StoreFails(ok)) => ScanBlock(env, w, chain[h], ok)
      case _ => w
  }

  /** The loop of scanMissingBlocks, as far as the outcomes given go. */
  function ScanRounds(env: Env, w: Wallet, chain: seq<Block>, height: int, outcomes: seq<Outcome>): Wallet
    decreases |outcomes|
  {
    if height <= w.lastScanned || outcomes == [] then w
    else ScanRounds(env, ScanRound(env, w, chain, outcomes[0]), chain, height, outcomes[1..])
  }

  function Successes(outcomes: seq<Outcome>): nat {
    if outcomes == [] then 0 else (if outcomes[0].None? then 1 else 0) + Successes(outcomes[1..])
  }

  /** How far a number of good rounds gets. */
  function Reach(from: int, height: int, rounds: nat): int {
    if from + rounds < height then from + rounds else height
  }

  /** There is a next block, every missing one parses, and nothing but the node fails. */
  ghost predicate Undisturbed(env: Env, from: int, chain: seq<Block>, height: int, outcomes: seq<Outcome>) {
    -1 <= from && height < |chain| && ParsesBetween(env, chain, from, height) && NodeFaultsOnly(outcomes)
  }

  /** However the node's calls fail, and in whatever order, each good round credits the owned outputs of
      the next block exactly once, and the others change nothing; the loop is over once there have been
      as many good rounds as blocks were missing. */
  lemma {:induction false} ExactlyOnce(env: Env, w: Wallet, chain: seq<Block>, height: int, outcomes: seq<Outcome>)
    requires Undisturbed(env, w.lastScanned, chain, height, outcomes)
    ensures ScanRounds(env, w, chain, height, outcomes)
         == ScannedTo(env, w, chain, Reach(w.lastScanned, height, Successes(outcomes)))
    decreases |outcomes|
  {
    if w.lastScanned < height && outcomes != [] {
      var h := w.lastScanned + 1;
      if outcomes[0].None? {
        OneBlockIsOneStep(env, w, chain, h, Working());
        ExactlyOnce(env, ScannedTo(env, w, chain, h), chain, height, outcomes[1..]);
        ScannedToComposes(env, w, chain, h, Reach(h, height, Successes(outcomes[1..])));
      } else {
        ExactlyOnce(env, w, chain, height, outcomes[1..]);
      }
    }
  }

  /** The same for a loop that got to its end, spelled out. */
  lemma ExactlyOnceLedger(env: Env, w: Wallet, chain: seq<Block>, height: int, outcomes: seq<Outcome>)
    requires Undisturbed(env, w.lastScanned, chain, height, outcomes)
    requires w.lastScanned <= height && Successes(outcomes) >= height - w.lastScanned
    ensures var r := ScanRounds(env, w, chain, height, outcomes);
      var found := OwnedBetween(env, w.addresses, chain, w.lastScanned + 1, height + 1);
      && r.utxos == w.utxos + found
      && r.balance == w.balance + Sum(found)
      && r.store.utxos == Stored(w.store.utxos, found)
      && r.lastScanned == height
  {
    var found := OwnedBetween(env, w.addresses, chain, w.lastScanned + 1, height + 1);
    ExactlyOnce(env, w, chain, height, outcomes);
    if w.lastScanned < height {
      ScannedToIs(env, w, chain, height, found);
      CreditedFields(w, found);
    } else {
      assert found == [];
    }
  }

  /// The two scanners

  /** Scripts that pay a wallet address are of a class scanBlock looks at. */
  ghost predicate WitnessOnly(env: Env, addresses: map<string, string>) {
    forall script :: env.info(script).Pays? && env.info(script).address in addresses ==>
      env.info(script).kind != OtherClass
  }

  predicate AllPay(env: Env, tx: BlockTx) {
    forall k :: 0 <= k < |tx.outs| ==> env.info(tx.outs[k].script).Pays?
  }

  predicate PaysWallet(env: Env, addresses: map<string, string>, tx: BlockTx) {
    exists k :: 0 <= k < |tx.outs| && Owned(env, addresses, tx.outs[k])
  }

  /** What is left of a list when only some transactions are let through. */
  function Kept(txs: Block, keep: seq<bool>): Block
    requires |keep| == |txs|
  {
    if txs == [] then []
    else if keep[0] then [txs[0]] + Kept(txs[1..], keep[1..]) else Kept(txs[1..], keep[1..])
  }

  lemma {:induction false} NotifiedOutputsFind(env: Env, s: Scan, tx: BlockTx, k: nat, ok: Writes)
    requires AllSucceed(ok) && AllPay(env, tx) && WitnessOnly(env, s.w.addresses) && k <= |tx.outs| && s.running
    ensures var r := NotifiedOutputs(env, s, tx, k, ok);
      r.running && r.w == Credited(s.w, OwnedOutputs(env, s.w.addresses, tx, k)) && r.w.addresses == s.w.addresses
    decreases |tx.outs| - k
  {
    CreditedKeeps(s.w, OwnedOutputs(env, s.w.addresses, tx, k));
    if k < |tx.outs| {
      var out := tx.outs[k];
      var s1 := NotifiedOutput(env, s, tx.txid, k, out, ok);
      assert ok(s.writes) && ok(s.writes + 1);
      assert Owned(env, s.w.addresses, out) <==> env.info(out.script).address in s.w.addresses;
      NotifiedOutputsFind(env, s1, tx, k + 1, ok);
    }
  }

  lemma {:induction false} NotifiedTxsFind(env: Env, s: Scan, txs: Block, i: nat, ok: Writes)
    requires AllSucceed(ok) && WitnessOnly(env, s.w.addresses) && i <= |txs| && s.running
    requires forall j :: 0 <= j < |txs| ==> AllPay(env, txs[j])
    ensures var r := NotifiedTxs(env, s, txs, i, ok);
      r.running && r.w == Credited(s.w, OwnedIn(env, s.w.addresses, txs, i))
    decreases |txs| - i
  {
    if i < |txs| {
      var found := OwnedOutputs(env, s.w.addresses, txs[i], 0);
      NotifiedOutputsFind(env, s, txs[i], 0, ok);
      CreditedConcat(s.w, found, OwnedIn(env, s.w.addresses, txs, i + 1));
      NotifiedTxsFind(env, NotifiedOutputs(env, s, txs[i], 0, ok), txs, i + 1, ok);
    }
  }

  lemma NotifiedFinds(env: Env, w: Wallet, txs: Block, ok: Writes)
    requires AllSucceed(ok) && WitnessOnly(env, w.addresses)
    requires forall j :: 0 <= j < |txs| ==> AllPay(env, txs[j])
    ensures ScanBlockTxs(env, w, txs, ok).running
    ensures ScanBlockTxs(env, w, txs, ok).w
         == WithLastScanned(Credited(w, OwnedIn(env, w.addresses, txs, 0)), w.lastScanned + 1)
  {
    var s := NotifiedTxs(env, Scan(w, 0, true), txs, 0, ok);
    NotifiedTxsFind(env, Scan(w, 0, true), txs, 0, ok);
    CreditedKeeps(w, OwnedIn(env, w.addresses, txs, 0));
    assert ok(s.writes);
  }

  lemma {:induction false} NothingOwned(env: Env, addresses: map<string, string>, tx: BlockTx, k: nat)
    requires k <= |tx.outs| && !PaysWallet(env, addresses, tx)
    ensures OwnedOutputs(env, addresses, tx, k) == []
    decreases |tx.outs| - k
  {
    if k < |tx.outs| {
      NothingOwned(env, addresses, tx, k + 1);
    }
  }

  lemma {:induction false} OwnedInTail(env: Env, addresses: map<string, string>, block: Block, i: nat)
    requires 0 < |block| && 1 <= i <= |block|
    ensures OwnedIn(env, addresses, block, i) == OwnedIn(env, addresses, block[1..], i - 1)
    decreases |block| - i
  {
    if i < |block| {
      OwnedInTail(env, addresses, block, i + 1);
    }
  }

  lemma {:induction false} KeptOwnTheSame(env: Env, addresses: map<string, string>, block: Block, keep: seq<bool>)
    requires |keep| == |block|
    requires forall j :: 0 <= j < |block| && !keep[j] ==> !PaysWallet(env, addresses, block[j])
    ensures OwnedIn(env, addresses, Kept(block, keep), 0) == OwnedIn(env, addresses, block, 0)
  {
    if block != [] {
      KeptOwnTheSame(env, addresses, block[1..], keep[1..]);
      OwnedInTail(env, addresses, block, 1);
      var rest := Kept(block[1..], keep[1..]);
      if keep[0] {
        assert ([block[0]] + rest)[1..] == rest;
        OwnedInTail(env, addresses, [block[0]] + rest, 1);
      } else {
        NothingOwned(env, addresses, block[0], 0);
      }
    }
  }

  lemma {:induction false} KeptAllPay(env: Env, block: Block, keep: seq<bool>)
    requires |keep| == |block|
    requires forall j :: 0 <= j < |block| && keep[j] ==> AllPay(env, block[j])
    ensures forall j :: 0 <= j < |Kept(block, keep)| ==> AllPay(env, Kept(block, keep)[j])
  {
    if block != [] {
      KeptAllPay(env, block[1..], keep[1..]);
    }
  }

  /** scanBlockTxs on any sub-list keeping every transaction that pays the wallet does exactly what
      scanBlock does on the whole block, as long as each output in that sub-list has an address; what is
      not passed on, a coinbase with its commitment say, need only parse. */
  lemma ScannersAgree(env: Env, w: Wallet, block: Block, keep: seq<bool>, ok: Writes, ok': Writes)
    requires AllSucceed(ok) && AllSucceed(ok') && WitnessOnly(env, w.addresses) && |keep| == |block|
    requires WellFormed(env, block)
    requires forall j :: 0 <= j < |block| && keep[j] ==> AllPay(env, block[j])
    requires forall j :: 0 <= j < |block| && !keep[j] ==> !PaysWallet(env, w.addresses, block[j])
    ensures ScanBlockTxs(env, w, Kept(block, keep), ok').running
    ensures ScanBlockTxs(env, w, Kept(block, keep), ok').w == ScanBlock(env, w, block, ok)
  {
    KeptAllPay(env, block, keep);
    NotifiedFinds(env, w, Kept(block, keep), ok');
    KeptOwnTheSame(env, w.addresses, block, keep);
    ScanBlockFinds(env, w, block, ok);
  }

  lemma {:induction false} NotifiedOutputsRun(env: Env, s: Scan, tx: BlockTx, k: nat, ok: Writes)
    requires k <= |tx.outs| && s.running
    ensures NotifiedOutputs(env, s, tx, k, ok).running
       <==> forall j :: k <= j < |tx.outs| ==> env.info(tx.outs[j].script).Pays?
    decreases |tx.outs| - k
  {
    if k < |tx.outs| {
      var s1 := NotifiedOutput(env, s, tx.txid, k, tx.outs[k], ok);
      if s1.running {
        NotifiedOutputsRun(env, s1, tx, k + 1, ok);
      }
    }
  }

  lemma {:induction false} NotifiedTxsRun(env: Env, s: Scan, txs: Block, i: nat, ok: Writes)
    requires i <= |txs| && s.running
    ensures NotifiedTxs(env, s, txs, i, ok).running <==> forall j :: i <= j < |txs| ==> AllPay(env, txs[j])
    decreases |txs| - i
  {
    if i < |txs| {
      NotifiedOutputsRun(env, s, txs[i], 0, ok);
      var s1 := NotifiedOutputs(env, s, txs[i], 0, ok);
      if s1.running {
        NotifiedTxsRun(env, s1, txs, i + 1, ok);
      }
    }
  }

  /** scanBlockTxs gets through a list exactly when every output in it has an address: a null-data
      output, which scanBlock skips, makes it panic. */
  lemma NotifiedRunsIffAllPay(env: Env, w: Wallet, txs: Block, ok: Writes)
    ensures ScanBlockTxs(env, w, txs, ok).running <==> forall j :: 0 <= j < |txs| ==> AllPay(env, txs[j])
  {
    NotifiedTxsRun(env, Scan(w, 0, true), txs, 0, ok);
  }
}
