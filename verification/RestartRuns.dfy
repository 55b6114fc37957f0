/** Memory and store over whole runs, and what a restart therefore restores in every reachable state. */
module RestartRuns {
  import opened Text
  import opened StoreCodec
  import opened Coins
  import opened Node
  import opened Ledger
  import opened Settlement
  import opened Scanning
  import opened KeyInvariants
  import opened KeyDensity
  import opened Reload
  import opened Accounts
  import opened Runs
  import opened SoundRuns
  import opened LedgerRuns

  /// Counters and height

  ghost predicate HeightStored(w: Wallet) {
    w.store.lastScanned == Int64ToBytes(w.lastScanned)
  }

  ghost predicate MetadataStored(w: Wallet) {
    CountersStored(w) && HeightStored(w)
  }

  lemma {:induction false} NotifiedOutputsKeepHeight(env: Env, s: Scan, tx: BlockTx, k: nat, ok: Writes)
    requires k <= |tx.outs|
    ensures SameHeight(s.w, NotifiedOutputs(env, s, tx, k, ok).w)
    decreases |tx.outs| - k
  {
    if s.running && k < |tx.outs| {
      NotifiedOutputsKeepHeight(env, NotifiedOutput(env, s, tx.txid, k, tx.outs[k], ok), tx, k + 1, ok);
    }
  }

  lemma {:induction false} NotifiedTxsKeepHeight(env: Env, s: Scan, txs: Block, i: nat, ok: Writes)
    requires i <= |txs|
    ensures SameHeight(s.w, NotifiedTxs(env, s, txs, i, ok).w)
    decreases |txs| - i
  {
    if s.running && i < |txs| {
      NotifiedOutputsKeepHeight(env, s, txs[i], 0, ok);
      NotifiedTxsKeepHeight(env, NotifiedOutputs(env, s, txs[i], 0, ok), txs, i + 1, ok);
    }
  }

  lemma ScansKeepMetadata(env: Env, w: Wallet, block: Block, ok: Writes)
    requires MetadataStored(w)
    ensures MetadataStored(ScanBlock(env, w, block, ok))
    ensures MetadataStored(ScanBlockTxs(env, w, block, ok).w)
  {
    ScanKeepsFrame(env, w, block, ok);
    NotifiedKeepsFrame(env, w, block, ok);
    TxsKeepHeight(env, Scan(w, 0, true), block, 0, ok);
    NotifiedTxsKeepHeight(env, Scan(w, 0, true), block, 0, ok);
  }

  lemma SendKeepsMetadata(env: Env, s: System, call: SendCall)
    requires MetadataStored(s.w)
    ensures MetadataStored(SendStep(env, s, call).w)
  {
    var w1 := CreateRaw(env, s.w, call.address, call.amount, DEFAULT_FEE, call.used, call.draw).1;
    CreateRawOnlyDraws(env, s.w, call.address, call.amount, DEFAULT_FEE, call.used, call.draw);
    assert SendStep(env, s, call).w == s.w || SendStep(env, s, call).w == w1;
  }

  lemma RestartKeepsMetadata(s: System, e: Event)
    requires MetadataStored(s.w) && e.Restart?
    ensures MetadataStored(RestartStep(s, e).w)
  {
    BytesSurvive(s.w.store.lastScanned);
    Uint32RoundTrip(s.w.externalIdx, s.w.store.externalIdx);
    Uint32RoundTrip(s.w.internalIdx, s.w.store.internalIdx);
  }

  lemma ExecKeepsMetadata(env: Env, s: System, e: Event)
    requires MetadataStored(s.w)
    ensures MetadataStored(Exec(env, s, e).w)
  {
    match e
    case Restart(_, _, _, _) => RestartKeepsMetadata(s, e);
    case ScanNext(block, ok) => ScansKeepMetadata(env, s.w, block, ok);
    case NotifyBlock(txs, ok) => ScansKeepMetadata(env, s.w, txs, ok);
    case Send(call) => SendKeepsMetadata(env, s, call);
    case NewAddress(_) =>
    case LockWallet =>
    case UnlockWallet =>
    case _ =>
      TaskMovesBooks(env, s, e, Exec(env, s, e));
  }

  lemma {:induction false} RunKeepsMetadata(env: Env, s: System, events: seq<Event>)
    requires MetadataStored(s.w)
    ensures MetadataStored(Run(env, s, events).w)
    decreases |events|
  {
    if events != [] {
      ExecKeepsMetadata(env, s, events[0]);
      RunKeepsMetadata(env, Exec(env, s, events[0]), events[1..]);
    }
  }

  /** In every reachable state, whatever fails and whatever is under way, both counters and the height
      are in the store as they are in memory. */
  lemma MetadataIsAlwaysStored(env: Env, encodedHash: string, height: int, saved: bool, events: seq<Event>)
    ensures MetadataStored(Run(env, Initial(NewWallet(encodedHash, height, saved)), events).w)
  {
    RunKeepsMetadata(env, Initial(NewWallet(encodedHash, height, saved)), events);
  }

  /// The whole store, at rest

  /** At rest, everything in memory is in the store, the Spent flags apart. */
  lemma AtRestAllIsStored(env: Env, encodedHash: string, height: int, saved: bool, events: seq<Event>)
    requires Laws(env) && AllowedRun(env, Initial(NewWallet(encodedHash, height, saved)), events)
    ensures var s := Run(env, Initial(NewWallet(encodedHash, height, saved)), events);
      s.flights == [] ==> WrittenThrough(s.w) && DistinctOutpoints(s.w.utxos) && KeysSound(env, s.w)
  {
    var s := Run(env, Initial(NewWallet(encodedHash, height, saved)), events);
    MetadataIsAlwaysStored(env, encodedHash, height, saved, events);
    BalanceIsWhatIsLeft(env, encodedHash, height, saved, events);
    EveryUTXOIsOwned(env, encodedHash, height, saved, events);
  }

  /** A restart in any reachable state at rest restores balance, counters, addresses, the list as a
      multiset up to its flags, and the height unless that is zero. */
  lemma RestartRestoresEveryRun(env: Env, encodedHash: string, height: int, saved: bool, events: seq<Event>,
                                keyCursor: seq<string>, utxoCursor: seq<string>, now: Option<int>, ok: bool)
    requires Laws(env) && AllowedRun(env, Initial(NewWallet(encodedHash, height, saved)), events)
    requires var s := Run(env, Initial(NewWallet(encodedHash, height, saved)), events);
      && s.flights == [] && IsInt64(s.w.balance) && IsInt64(s.w.lastScanned)
      && Visits(keyCursor, s.w.store.keys) && Visits(utxoCursor, s.w.store.utxos)
    ensures var w := Run(env, Initial(NewWallet(encodedHash, height, saved)), events).w;
      var r := Loaded(w.store, keyCursor, utxoCursor, now, ok);
      && (r.None? <==> w.lastScanned == 0 && now.None?)
      && (r.Some? ==> Restores(w, r.value))
      && (r.Some? && w.lastScanned != 0 ==> r.value.lastScanned == w.lastScanned && r.value.store == w.store)
  {
    var w := Run(env, Initial(NewWallet(encodedHash, height, saved)), events).w;
    AtRestAllIsStored(env, encodedHash, height, saved, events);
    RestartRestores(env, w, keyCursor, utxoCursor, now, ok);
  }

  ghost predicate Restores(w: Wallet, r: Wallet) {
    && multiset(r.utxos) == multiset(Unflagged(w.utxos))
    && r.balance == w.balance && r.externalIdx == w.externalIdx && r.internalIdx == w.internalIdx
    && r.addresses == w.addresses && r.locked
  }

  /** From any reachable state at rest, sends and earlier restarts included: scanning to h1, restarting
      and scanning to h2 is scanning to h2, flags and the order of the list apart. */
  lemma RestartIsTransparentInEveryRun(env: Env, encodedHash: string, height: int, saved: bool, events: seq<Event>,
                                       chain: seq<Block>, h1: int, h2: int, keyCursor: seq<string>,
                                       utxoCursor: seq<string>)
    requires Laws(env) && AllowedRun(env, Initial(NewWallet(encodedHash, height, saved)), events)
    requires var s := Run(env, Initial(NewWallet(encodedHash, height, saved)), events);
      && s.flights == [] && -1 <= s.w.lastScanned < h1 <= h2 < |chain| && h1 != 0
      && var w1 := ScannedTo(env, s.w, chain, h1);
      && DistinctOutpoints(w1.utxos) && IsInt64(w1.balance) && IsInt64(h1)
      && Visits(keyCursor, w1.store.keys) && Visits(utxoCursor, w1.store.utxos)
    ensures var w := Run(env, Initial(NewWallet(encodedHash, height, saved)), events).w;
      var r := Loaded(ScannedTo(env, w, chain, h1).store, keyCursor, utxoCursor, None, true);
      var whole := ScannedTo(env, w, chain, h2);
      && r.Some? && r.value.lastScanned == h1
      && var parts := ScannedTo(env, r.value, chain, h2);
      && parts == whole.(utxos := parts.utxos, locked := true)
      && multiset(parts.utxos) == multiset(Unflagged(whole.utxos))
  {
    var w := Run(env, Initial(NewWallet(encodedHash, height, saved)), events).w;
    AtRestAllIsStored(env, encodedHash, height, saved, events);
    RestartIsTransparentToScans(env, w, chain, h1, h2, keyCursor, utxoCursor);
  }
}
