/** What a panic halfway through scanBlockTxs costs: the height has not moved, so after the restart the
    block is scanned again from its start (wallet/scan.go). */
module NotifiedPanics {
  import opened Text
  import opened StoreCodec
  import opened Coins
  import opened Node
  import opened Ledger
  import opened Scanning
  import opened KeyInvariants
  import opened Reload

  /** The outputs of a transaction that pay the wallet, up to the first output without an address. */
  function PaidOutputs(env: Env, addresses: map<string, string>, tx: BlockTx, k: nat): seq<UTXO>
    requires k <= |tx.outs|
    decreases |tx.outs| - k
  {
    if k == |tx.outs| || !env.info(tx.outs[k].script).Pays? then []
    else if Owned(env, addresses, tx.outs[k])
    then [Received(env, addresses, tx.txid, k, tx.outs[k])] + PaidOutputs(env, addresses, tx, k + 1)
    else PaidOutputs(env, addresses, tx, k + 1)
  }

  function PaidIn(env: Env, addresses: map<string, string>, txs: Block, i: nat): seq<UTXO>
    requires i <= |txs|
    decreases |txs| - i
  {
    if i == |txs| then []
    else if !AllPay(env, txs[i]) then PaidOutputs(env, addresses, txs[i], 0)
    else PaidOutputs(env, addresses, txs[i], 0) + PaidIn(env, addresses, txs, i + 1)
  }

  lemma {:induction false} NotifiedOutputsCredit(env: Env, s: Scan, tx: BlockTx, k: nat, ok: Writes)
    requires AllSucceed(ok) && WitnessOnly(env, s.w.addresses) && k <= |tx.outs| && s.running
    ensures NotifiedOutputs(env, s, tx, k, ok).w == Credited(s.w, PaidOutputs(env, s.w.addresses, tx, k))
    decreases |tx.outs| - k
  {
    if k < |tx.outs| && env.info(tx.outs[k].script).Pays? {
      var out := tx.outs[k];
      var s1 := NotifiedOutput(env, s, tx.txid, k, out, ok);
      assert ok(s.writes) && ok(s.writes + 1);
      assert Owned(env, s.w.addresses, out) <==> env.info(out.script).address in s.w.addresses;
      NotifiedOutputsCredit(env, s1, tx, k + 1, ok);
    }
  }

  lemma {:induction false} NotifiedTxsCredit(env: Env, s: Scan, txs: Block, i: nat, ok: Writes)
    requires AllSucceed(ok) && WitnessOnly(env, s.w.addresses) && i <= |txs| && s.running
    ensures NotifiedTxs(env, s, txs, i, ok).w == Credited(s.w, PaidIn(env, s.w.addresses, txs, i))
    decreases |txs| - i
  {
    if i < |txs| {
      var here := PaidOutputs(env, s.w.addresses, txs[i], 0);
      var s1 := NotifiedOutputs(env, s, txs[i], 0, ok);
      NotifiedOutputsCredit(env, s, txs[i], 0, ok);
      NotifiedOutputsRun(env, s, txs[i], 0, ok);
      CreditedFields(s.w, here);
      if AllPay(env, txs[i]) {
        NotifiedTxsCredit(env, s1, txs, i + 1, ok);
        CreditedConcat(s.w, here, PaidIn(env, s.w.addresses, txs, i + 1));
      }
    }
  }

  /** A panic leaves what was paid before it, in memory and in the store, and the height as it was. */
  lemma PanicLeaves(env: Env, w: Wallet, txs: Block, ok: Writes)
    requires AllSucceed(ok) && WitnessOnly(env, w.addresses)
    requires exists j :: 0 <= j < |txs| && !AllPay(env, txs[j])
    ensures var r := ScanBlockTxs(env, w, txs, ok);
      !r.running && r.w == Credited(w, PaidIn(env, w.addresses, txs, 0)) && r.w.lastScanned == w.lastScanned
  {
    NotifiedTxsCredit(env, Scan(w, 0, true), txs, 0, ok);
    NotifiedRunsIffAllPay(env, w, txs, ok);
    NotifiedTxsRun(env, Scan(w, 0, true), txs, 0, ok);
    CreditedFields(w, PaidIn(env, w.addresses, txs, 0));
  }

  lemma {:induction false} PaidOutputsUnspent(env: Env, addresses: map<string, string>, tx: BlockTx, k: nat)
    requires k <= |tx.outs|
    ensures forall u :: u in PaidOutputs(env, addresses, tx, k) ==> !u.spent
    decreases |tx.outs| - k
  {
    if k < |tx.outs| {
      PaidOutputsUnspent(env, addresses, tx, k + 1);
    }
  }

  lemma {:induction false} PaidInUnspent(env: Env, addresses: map<string, string>, txs: Block, i: nat)
    requires i <= |txs|
    ensures forall u :: u in PaidIn(env, addresses, txs, i) ==> !u.spent
    decreases |txs| - i
  {
    if i < |txs| {
      PaidOutputsUnspent(env, addresses, txs[i], 0);
      PaidInUnspent(env, addresses, txs, i + 1);
    }
  }

  /** What the restarted process loads: everything credited before the panic. */
  lemma LoadedAfterPanic(env: Env, w: Wallet, paid: seq<UTXO>, keyCursor: seq<string>, utxoCursor: seq<string>)
    requires KeysSound(env, w) && AddressesDistinct(env) && WrittenThrough(w) && DistinctOutpoints(w.utxos + paid)
    requires forall i :: 0 <= i < |paid| ==> !paid[i].spent
    requires IsInt64(w.balance + Sum(paid)) && IsInt64(w.lastScanned) && w.lastScanned != 0
    requires Visits(keyCursor, w.store.keys) && Visits(utxoCursor, Credited(w, paid).store.utxos)
    ensures var r := Loaded(Credited(w, paid).store, keyCursor, utxoCursor, None, true);
      && r.Some? && r.value.addresses == w.addresses && r.value.lastScanned == w.lastScanned
      && r.value.balance == w.balance + Sum(paid)
      && multiset(r.value.utxos) == multiset(Unflagged(w.utxos)) + multiset(paid)
  {
    var w1 := Credited(w, paid);
    CreditedFields(w, paid);
    CreditedKeepsWrittenThrough(w, paid, w.lastScanned);
    assert WithLastScanned(w1, w.lastScanned) == w1 by { CreditedAll(w, paid); }
    LoadedAfterScans(env, w1, keyCursor, utxoCursor);
    UnflaggedAppend(w.utxos, paid);
  }

  /** Restarted and scanned again, the block's outputs are listed and added on top of those paid before
      the panic; nothing is counted twice exactly when the panic came before the first of them. */
  lemma PanickedBlockIsCountedAgain(env: Env, w: Wallet, txs: Block, block: Block, ok: Writes, ok': Writes,
                                    keyCursor: seq<string>, utxoCursor: seq<string>)
    requires KeysSound(env, w) && AddressesDistinct(env) && WrittenThrough(w) && WitnessOnly(env, w.addresses)
    requires AllSucceed(ok) && AllSucceed(ok') && WellFormed(env, block)
    requires exists j :: 0 <= j < |txs| && !AllPay(env, txs[j])
    requires var paid := PaidIn(env, w.addresses, txs, 0);
      && DistinctOutpoints(w.utxos + paid)
      && IsInt64(w.balance + Sum(paid)) && IsInt64(w.lastScanned) && w.lastScanned != 0
      && Visits(keyCursor, w.store.keys) && Visits(utxoCursor, Credited(w, paid).store.utxos)
    ensures var paid, found := PaidIn(env, w.addresses, txs, 0), OwnedIn(env, w.addresses, block, 0);
      var r := Loaded(ScanBlockTxs(env, w, txs, ok).w.store, keyCursor, utxoCursor, None, true);
      && r.Some?
      && var again := ScanBlock(env, r.value, block, ok');
      && again.lastScanned == w.lastScanned + 1
      && multiset(again.utxos) == multiset(Unflagged(w.utxos)) + multiset(paid) + multiset(found)
      && again.balance == w.balance + Sum(paid) + Sum(found)
      && (multiset(again.utxos) == multiset(Unflagged(w.utxos)) + multiset(found) <==> paid == [])
  {
    var paid, found := PaidIn(env, w.addresses, txs, 0), OwnedIn(env, w.addresses, block, 0);
    PanicLeaves(env, w, txs, ok);
    PaidInUnspent(env, w.addresses, txs, 0);
    forall i | 0 <= i < |paid| ensures !paid[i].spent {
      assert paid[i] in paid;
    }
    LoadedAfterPanic(env, w, paid, keyCursor, utxoCursor);
    var r := Loaded(Credited(w, paid).store, keyCursor, utxoCursor, None, true).value;
    ScanBlockFinds(env, r, block, ok');
    CreditedFields(r, found);
    NothingTwiceIffNone(multiset(Unflagged(w.utxos)), paid, multiset(found));
  }

  lemma NothingTwiceIffNone(before: multiset<UTXO>, paid: seq<UTXO>, found: multiset<UTXO>)
    ensures before + multiset(paid) + found == before + found <==> paid == []
  {
    if paid != [] {
      var u := paid[0];
      assert multiset(paid)[u] > 0;
      assert (before + multiset(paid) + found)[u] > (before + found)[u];
    }
  }
}
