/** What every operation keeps about keys, addresses and the UTXOs they own. */
module KeyInvariants {
  import opened Text
  import opened StoreCodec
  import opened Coins
  import opened Node
  import opened KeyChain
  import opened Transactions
  import opened Ledger

  /// The keys bucket

  /** The key stored under path (c, i) is the child key of that path, sealed. */
  ghost predicate DerivedAt(env: Env, keys: Keys, path: string, c: Branch, i: uint32)
    requires path in keys
  {
    && path == Path(c, i)
    && env.child(c, i).Some?
    && keys[path].address == env.addressOf(env.child(c, i).value)
    && env.unseal(keys[path].sealed) == env.child(c, i)
  }

  ghost predicate KeysDerived(env: Env, keys: Keys) {
    forall path :: path in keys ==> exists c, i: uint32 :: DerivedAt(env, keys, path, c, i)
  }

  /** The address map holds external addresses only, each with the path of its key... */
  ghost predicate AddressesBacked(keys: Keys, addresses: map<string, string>) {
    forall a :: a in addresses ==>
      && addresses[a] in keys && keys[addresses[a]].address == a
      && exists i: uint32 :: addresses[a] == Path(External, i)
  }

  /** ... and misses none. */
  ghost predicate AddressesComplete(keys: Keys, addresses: map<string, string>) {
    forall path :: path in keys && Contains(path, EXTERNAL_MARK) ==> keys[path].address in addresses
  }

  /** The UTXO's path is in the bucket and the key there has the address its script pays. */
  ghost predicate OwnedBy(env: Env, keys: Keys, u: UTXO) {
    && u.path in keys
    && env.info(u.script).Pays?
    && env.info(u.script).address == keys[u.path].address
  }

  ghost predicate AllOwned(env: Env, w: Wallet) {
    && (forall i :: 0 <= i < |w.utxos| ==> OwnedBy(env, w.store.keys, w.utxos[i]))
    && (forall k :: k in w.store.utxos ==> OwnedBy(env, w.store.keys, w.store.utxos[k]))
  }

  ghost predicate KeysSound(env: Env, w: Wallet) {
    && KeysDerived(env, w.store.keys)
    && AddressesBacked(w.store.keys, w.addresses)
    && AddressesComplete(w.store.keys, w.addresses)
  }

  ghost predicate Sound(env: Env, w: Wallet) {
    KeysSound(env, w) && AllOwned(env, w)
  }

  /** Keys are only added, and no path ever changes the address it maps to. */
  ghost predicate KeysGrow(keys: Keys, keys': Keys) {
    forall path :: path in keys ==> path in keys' && keys'[path].address == keys[path].address
  }

  /** Every owned UTXO can be spent: this is what signing needs. */
  lemma OwnedIsSpendable(env: Env, keys: Keys, u: UTXO)
    requires KeysDerived(env, keys) && OwnedBy(env, keys, u)
    ensures Spendable(env, keys, u)
  {
    var c, i: uint32 :| DerivedAt(env, keys, u.path, c, i);
  }

  /** A new key under its path, whether or not the path was taken before. */
  lemma KeyAdded(env: Env, keys: Keys, c: Branch, i: uint32, nonce: nat)
    requires CipherLaw(env) && KeysDerived(env, keys) && env.child(c, i).Some?
    ensures var keys' := keys[Path(c, i) := NewKeyPair(env, env.child(c, i).value, nonce)];
      KeysDerived(env, keys') && KeysGrow(keys, keys')
  {
    var key := NewKeyPair(env, env.child(c, i).value, nonce);
    var keys' := keys[Path(c, i) := key];
    forall path | path in keys' ensures exists d, j: uint32 :: DerivedAt(env, keys', path, d, j) {
      if path == Path(c, i) {
        assert DerivedAt(env, keys', path, c, i);
      } else {
        var d, j: uint32 :| DerivedAt(env, keys, path, d, j);
        assert DerivedAt(env, keys', path, d, j);
      }
    }
    if Path(c, i) in keys {
      var d, j: uint32 :| DerivedAt(env, keys, Path(c, i), d, j);
      PathInjective(c, i, d, j);
    }
  }

  lemma GrowthKeepsOwned(env: Env, keys: Keys, keys': Keys, u: UTXO)
    requires KeysGrow(keys, keys') && OwnedBy(env, keys, u)
    ensures OwnedBy(env, keys', u)
  {
  }

  lemma GrowthKeepsAllOwned(env: Env, w: Wallet, w': Wallet)
    requires KeysGrow(w.store.keys, w'.store.keys) && AllOwned(env, w)
    requires w'.utxos == w.utxos && w'.store.utxos == w.store.utxos
    ensures AllOwned(env, w')
  {
  }

  lemma ExternalKeyKeepsSound(env: Env, w: Wallet, draw: KeyDraw)
    requires CipherLaw(env) && Sound(env, w)
    ensures Sound(env, ExternalKey(env, w, draw).1)
    ensures KeysGrow(w.store.keys, ExternalKey(env, w, draw).1.store.keys)
  {
    var w1 := ExternalKey(env, w, draw).1;
    if env.child(External, w.externalIdx).Some? && draw.keySaved {
      var path := Path(External, w.externalIdx);
      KeyAdded(env, w.store.keys, External, w.externalIdx, draw.nonce);
      GrowthKeepsAllOwned(env, w, w1);
      AddressAdded(w.store.keys, w.addresses, w1.store.keys, w.externalIdx);
    }
  }

  lemma AddressAdded(keys: Keys, addresses: map<string, string>, keys': Keys, i: uint32)
    requires AddressesBacked(keys, addresses) && AddressesComplete(keys, addresses) && KeysGrow(keys, keys')
    requires Path(External, i) in keys' && keys'.Keys == keys.Keys + {Path(External, i)}
    ensures var addresses' := addresses[keys'[Path(External, i)].address := Path(External, i)];
      AddressesBacked(keys', addresses') && AddressesComplete(keys', addresses')
  {
  }

  lemma InternalKeyKeepsSound(env: Env, w: Wallet, draw: KeyDraw)
    requires CipherLaw(env) && Sound(env, w)
    ensures Sound(env, InternalKey(env, w, draw).1)
    ensures KeysGrow(w.store.keys, InternalKey(env, w, draw).1.store.keys)
  {
    var w1 := InternalKey(env, w, draw).1;
    if env.child(Internal, w.internalIdx).Some? && draw.keySaved {
      KeyAdded(env, w.store.keys, Internal, w.internalIdx, draw.nonce);
      GrowthKeepsAllOwned(env, w, w1);
      MarkTellsBranch(Internal, w.internalIdx);
    }
  }

  /** Building changes the wallet at most as far as drawing a change key does. */
  lemma CreateRawOnlyDraws(env: Env, w: Wallet, address: string, amount: int, feeRate: int, used: seq<UTXO>,
                           draw: KeyDraw)
    ensures var w1 := CreateRaw(env, w, address, amount, feeRate, used, draw).1;
      w1 == w || w1 == InternalKey(env, w, draw).1
  {
  }

  lemma InternalKeyTouches(env: Env, w: Wallet, draw: KeyDraw)
    ensures var w1 := InternalKey(env, w, draw).1;
      w1 == w.(internalIdx := w1.internalIdx,
               store := w.store.(keys := w1.store.keys, internalIdx := w1.store.internalIdx))
  {
  }

  lemma CreateRawTouches(env: Env, w: Wallet, address: string, amount: int, feeRate: int, used: seq<UTXO>,
                         draw: KeyDraw)
    ensures var w1 := CreateRaw(env, w, address, amount, feeRate, used, draw).1;
      w1 == w.(internalIdx := w1.internalIdx,
               store := w.store.(keys := w1.store.keys, internalIdx := w1.store.internalIdx))
  {
    CreateRawOnlyDraws(env, w, address, amount, feeRate, used, draw);
    InternalKeyTouches(env, w, draw);
  }

  lemma CreateRawKeepsSound(env: Env, w: Wallet, address: string, amount: int, feeRate: int, used: seq<UTXO>,
                            draw: KeyDraw)
    requires CipherLaw(env) && Sound(env, w)
    ensures Sound(env, CreateRaw(env, w, address, amount, feeRate, used, draw).1)
    ensures KeysGrow(w.store.keys, CreateRaw(env, w, address, amount, feeRate, used, draw).1.store.keys)
  {
    CreateRawOnlyDraws(env, w, address, amount, feeRate, used, draw);
    InternalKeyKeepsSound(env, w, draw);
  }

  /** Signing never fails on the wallet's own UTXOs, and signs each input for the UTXO it spends. */
  lemma OwnUTXOsAlwaysSign(env: Env, w: Wallet, address: string, amount: int, feeRate: int, used: seq<UTXO>,
                           draw: KeyDraw)
    requires CipherLaw(env) && Sound(env, w)
    requires forall i :: 0 <= i < |used| ==> used[i] in w.utxos
    ensures var raw := CreateRaw(env, w, address, amount, feeRate, used, draw);
      var sent := Prepared(env, w, address, amount, feeRate, used, draw);
      && sent.1 == raw.1
      && (raw.0.Err? ==> sent.0 == raw.0)
      && (raw.0.Ok? ==>
            && sent.0.Ok? && sent.0.value.outs == raw.0.value.outs && |sent.0.value.ins| == |used|
            && forall i :: 0 <= i < |used| ==> SignedFor(env, sent.0.value.ins[i], used[i], i))
  {
    var raw := CreateRaw(env, w, address, amount, feeRate, used, draw);
    CreateRawKeepsSound(env, w, address, amount, feeRate, used, draw);
    if raw.0.Ok? {
      forall i | 0 <= i < |used| ensures Spendable(env, raw.1.store.keys, used[i]) {
        assert OwnedBy(env, w.store.keys, used[i]);
        GrowthKeepsOwned(env, w.store.keys, raw.1.store.keys, used[i]);
        OwnedIsSpendable(env, raw.1.store.keys, used[i]);
      }
      BuiltAndSigned(env, w, address, amount, feeRate, used, draw);
    }
  }

  lemma BuiltAndSigned(env: Env, w: Wallet, address: string, amount: int, feeRate: int, used: seq<UTXO>, draw: KeyDraw)
    requires CreateRaw(env, w, address, amount, feeRate, used, draw).0.Ok?
    requires var keys := CreateRaw(env, w, address, amount, feeRate, used, draw).1.store.keys;
      forall i :: 0 <= i < |used| ==> Spendable(env, keys, used[i])
    ensures var (raw, w1) := CreateRaw(env, w, address, amount, feeRate, used, draw);
      var signed := Signed(env, w1.store.keys, raw.value, used);
      && signed.Some? && signed.value.outs == raw.value.outs && |signed.value.ins| == |used|
      && forall i :: 0 <= i < |used| ==> SignedFor(env, signed.value.ins[i], used[i], i)
  {
    var w1 := CreateRaw(env, w, address, amount, feeRate, used, draw).1;
    var key := InternalKey(env, w, draw).0.value;
    SpendableIsSigned(env, w1.store.keys, env.payTo(address).value, amount, used,
                      env.payTo(key.address).value, feeRate);
  }

  /// Scanning

  lemma ReceivedIsOwned(env: Env, keys: Keys, addresses: map<string, string>, txid: string, k: nat, out: TxOut)
    requires AddressesBacked(keys, addresses) && Owned(env, addresses, out)
    ensures OwnedBy(env, keys, Received(env, addresses, txid, k, out))
  {
  }

  /** Everything but the UTXOs, the balance and the height. */
  function Frame(w: Wallet): Wallet {
    w.(utxos := [], balance := 0, lastScanned := 0,
       store := w.store.(utxos := map[], balance := Int64ToBytes(0), lastScanned := Int64ToBytes(0)))
  }

  lemma WithUTXOKeepsOwned(env: Env, w: Wallet, u: UTXO, balance: int)
    requires AllOwned(env, w) && OwnedBy(env, w.store.keys, u)
    ensures AllOwned(env, WithUTXO(w, u)) && AllOwned(env, WithBalance(WithUTXO(w, u), balance))
  {
  }

  lemma ScanOutputKeepsOwned(env: Env, s: Scan, txid: string, k: nat, out: TxOut, ok: Writes)
    requires AllOwned(env, s.w) && AddressesBacked(s.w.store.keys, s.w.addresses)
    ensures AllOwned(env, ScanOutput(env, s, txid, k, out, ok).w)
    ensures Frame(ScanOutput(env, s, txid, k, out, ok).w) == Frame(s.w)
  {
    if Owned(env, s.w.addresses, out) {
      var u := Received(env, s.w.addresses, txid, k, out);
      ReceivedIsOwned(env, s.w.store.keys, s.w.addresses, txid, k, out);
      WithUTXOKeepsOwned(env, s.w, u, s.w.balance + u.value);
    }
  }

  lemma SameFrame(w: Wallet, w': Wallet)
    requires Frame(w) == Frame(w')
    ensures w.store.keys == w'.store.keys && w.addresses == w'.addresses && w.locked == w'.locked
    ensures w.externalIdx == w'.externalIdx && w.internalIdx == w'.internalIdx
    ensures w.store.externalIdx == w'.store.externalIdx && w.store.internalIdx == w'.store.internalIdx
  {
    assert Frame(w).store.keys == w.store.keys && Frame(w').store.keys == w'.store.keys;
  }

  lemma {:induction false} ScanOutputsKeepOwned(env: Env, s: Scan, tx: BlockTx, k: nat, ok: Writes)
    requires AllOwned(env, s.w) && AddressesBacked(s.w.store.keys, s.w.addresses) && k <= |tx.outs|
    ensures AllOwned(env, ScanOutputs(env, s, tx, k, ok).w)
    decreases |tx.outs| - k
  {
    if s.running && k < |tx.outs| {
      var s1 := ScanOutput(env, s, tx.txid, k, tx.outs[k], ok);
      ScanOutputKeepsOwned(env, s, tx.txid, k, tx.outs[k], ok);
      SameFrame(s.w, s1.w);
      ScanOutputsKeepOwned(env, s1, tx, k + 1, ok);
    }
  }

  lemma {:induction false} ScanTxsKeepOwned(env: Env, s: Scan, block: Block, i: nat, ok: Writes)
    requires AllOwned(env, s.w) && AddressesBacked(s.w.store.keys, s.w.addresses) && i <= |block|
    ensures AllOwned(env, ScanTxs(env, s, block, i, ok).w)
    decreases |block| - i
  {
    if s.running && i < |block| {
      var s1 := ScanOutputs(env, s, block[i], 0, ok);
      ScanOutputsKeepOwned(env, s, block[i], 0, ok);
      ScanOutputsKeepFrame(env, s, block[i], 0, ok);
      SameFrame(s.w, s1.w);
      ScanTxsKeepOwned(env, s1, block, i + 1, ok);
    }
  }

  lemma {:induction false} ScanOutputsKeepFrame(env: Env, s: Scan, tx: BlockTx, k: nat, ok: Writes)
    requires k <= |tx.outs|
    ensures Frame(ScanOutputs(env, s, tx, k, ok).w) == Frame(s.w)
    decreases |tx.outs| - k
  {
    if s.running && k < |tx.outs| {
      ScanOutputsKeepFrame(env, ScanOutput(env, s, tx.txid, k, tx.outs[k], ok), tx, k + 1, ok);
    }
  }

  lemma {:induction false} ScanTxsKeepFrame(env: Env, s: Scan, block: Block, i: nat, ok: Writes)
    requires i <= |block|
    ensures Frame(ScanTxs(env, s, block, i, ok).w) == Frame(s.w)
    decreases |block| - i
  {
    if s.running && i < |block| {
      ScanOutputsKeepFrame(env, s, block[i], 0, ok);
      ScanTxsKeepFrame(env, ScanOutputs(env, s, block[i], 0, ok), block, i + 1, ok);
    }
  }

  /** A scan leaves keys, addresses, counters and the lock alone. */
  lemma ScanKeepsFrame(env: Env, w: Wallet, block: Block, ok: Writes)
    ensures Frame(ScanBlock(env, w, block, ok)) == Frame(w)
    ensures var w1 := ScanBlock(env, w, block, ok);
      && w1.store.keys == w.store.keys && w1.addresses == w.addresses
      && w1.externalIdx == w.externalIdx && w1.internalIdx == w.internalIdx
      && w1.store.externalIdx == w.store.externalIdx && w1.store.internalIdx == w.store.internalIdx
  {
    ScanTxsKeepFrame(env, Scan(w, 0, true), block, 0, ok);
    SameFrame(w, ScanBlock(env, w, block, ok));
  }

  lemma ScanBlockKeepsSound(env: Env, w: Wallet, block: Block, ok: Writes)
    requires Sound(env, w)
    ensures Sound(env, ScanBlock(env, w, block, ok))
  {
    ScanTxsKeepOwned(env, Scan(w, 0, true), block, 0, ok);
    ScanKeepsFrame(env, w, block, ok);
  }

  /// Scanning what a notification brings, whichever writes fail and wherever it panics

  lemma NotifiedOutputKeepsFrame(env: Env, s: Scan, txid: string, k: nat, out: TxOut, ok: Writes)
    ensures Frame(NotifiedOutput(env, s, txid, k, out, ok).w) == Frame(s.w)
  {
  }

  lemma NotifiedOutputKeepsOwned(env: Env, s: Scan, txid: string, k: nat, out: TxOut, ok: Writes)
    requires AllOwned(env, s.w) && AddressesBacked(s.w.store.keys, s.w.addresses)
    ensures AllOwned(env, NotifiedOutput(env, s, txid, k, out, ok).w)
  {
    if env.info(out.script).Pays? && env.info(out.script).address in s.w.addresses {
      var u := NewUTXO(txid, Index32(k), out.value, out.script, s.w.addresses[env.info(out.script).address]);
      var w1 := if ok(s.writes) then WithUTXO(s.w, u) else s.w;
      WithUTXOKeepsOwned(env, s.w, u, s.w.balance);
      BalanceKeepsOwned(env, w1, w1.balance + u.value);
    }
  }

  lemma BalanceKeepsOwned(env: Env, w: Wallet, balance: int)
    requires AllOwned(env, w)
    ensures AllOwned(env, WithBalance(w, balance))
  {
  }

  lemma {:induction false} NotifiedOutputsKeepOwned(env: Env, s: Scan, tx: BlockTx, k: nat, ok: Writes)
    requires AllOwned(env, s.w) && AddressesBacked(s.w.store.keys, s.w.addresses) && k <= |tx.outs|
    ensures AllOwned(env, NotifiedOutputs(env, s, tx, k, ok).w)
    decreases |tx.outs| - k
  {
    if s.running && k < |tx.outs| {
      var s1 := NotifiedOutput(env, s, tx.txid, k, tx.outs[k], ok);
      NotifiedOutputKeepsOwned(env, s, tx.txid, k, tx.outs[k], ok);
      NotifiedOutputKeepsFrame(env, s, tx.txid, k, tx.outs[k], ok);
      SameFrame(s.w, s1.w);
      NotifiedOutputsKeepOwned(env, s1, tx, k + 1, ok);
    }
  }

  lemma {:induction false} NotifiedTxsKeepOwned(env: Env, s: Scan, txs: Block, i: nat, ok: Writes)
    requires AllOwned(env, s.w) && AddressesBacked(s.w.store.keys, s.w.addresses) && i <= |txs|
    ensures AllOwned(env, NotifiedTxs(env, s, txs, i, ok).w)
    decreases |txs| - i
  {
    if s.running && i < |txs| {
      var s1 := NotifiedOutputs(env, s, txs[i], 0, ok);
      NotifiedOutputsKeepOwned(env, s, txs[i], 0, ok);
      NotifiedOutputsKeepFrame(env, s, txs[i], 0, ok);
      SameFrame(s.w, s1.w);
      NotifiedTxsKeepOwned(env, s1, txs, i + 1, ok);
    }
  }

  lemma {:induction false} NotifiedOutputsKeepFrame(env: Env, s: Scan, tx: BlockTx, k: nat, ok: Writes)
    requires k <= |tx.outs|
    ensures Frame(NotifiedOutputs(env, s, tx, k, ok).w) == Frame(s.w)
    decreases |tx.outs| - k
  {
    if s.running && k < |tx.outs| {
      NotifiedOutputKeepsFrame(env, s, tx.txid, k, tx.outs[k], ok);
      NotifiedOutputsKeepFrame(env, NotifiedOutput(env, s, tx.txid, k, tx.outs[k], ok), tx, k + 1, ok);
    }
  }

  lemma {:induction false} NotifiedTxsKeepFrame(env: Env, s: Scan, txs: Block, i: nat, ok: Writes)
    requires i <= |txs|
    ensures Frame(NotifiedTxs(env, s, txs, i, ok).w) == Frame(s.w)
    decreases |txs| - i
  {
    if s.running && i < |txs| {
      NotifiedOutputsKeepFrame(env, s, txs[i], 0, ok);
      NotifiedTxsKeepFrame(env, NotifiedOutputs(env, s, txs[i], 0, ok), txs, i + 1, ok);
    }
  }

  /** A notified scan leaves keys, addresses, counters and the lock alone, panicking or not. */
  lemma NotifiedKeepsFrame(env: Env, w: Wallet, txs: Block, ok: Writes)
    ensures Frame(ScanBlockTxs(env, w, txs, ok).w) == Frame(w)
    ensures var w1 := ScanBlockTxs(env, w, txs, ok).w;
      && w1.store.keys == w.store.keys && w1.addresses == w.addresses
      && w1.externalIdx == w.externalIdx && w1.internalIdx == w.internalIdx
      && w1.store.externalIdx == w.store.externalIdx && w1.store.internalIdx == w.store.internalIdx
  {
    NotifiedTxsKeepFrame(env, Scan(w, 0, true), txs, 0, ok);
    SameFrame(w, ScanBlockTxs(env, w, txs, ok).w);
  }

  lemma ScanBlockTxsKeepsSound(env: Env, w: Wallet, txs: Block, ok: Writes)
    requires Sound(env, w)
    ensures Sound(env, ScanBlockTxs(env, w, txs, ok).w)
  {
    NotifiedTxsKeepOwned(env, Scan(w, 0, true), txs, 0, ok);
    NotifiedKeepsFrame(env, w, txs, ok);
  }

  /// The change output

  /** The path comes before every other in the cursor's order with the address. */
  ghost predicate FirstWithAddress(keys: Keys, cursor: seq<string>, address: string, path: string) {
    exists i :: 0 <= i < |cursor| && cursor[i] == path
      && forall j :: 0 <= j < i ==> cursor[j] !in keys || keys[cursor[j]].address != address
  }

  lemma {:induction false} PathForIsFirst(keys: Keys, cursor: seq<string>, address: string)
    requires PathFor(keys, cursor, address) != ""
    ensures FirstWithAddress(keys, cursor, address, PathFor(keys, cursor, address))
  {
    if cursor[0] !in keys || keys[cursor[0]].address != address {
      PathForIsFirst(keys, cursor[1..], address);
      var path := PathFor(keys, cursor, address);
      var i :| 0 <= i < |cursor[1..]| && cursor[1..][i] == path
        && forall j :: 0 <= j < i ==> cursor[1..][j] !in keys || keys[cursor[1..][j]].address != address;
      forall j | 0 <= j < i + 1 ensures cursor[j] !in keys || keys[cursor[j]].address != address {
        if j > 0 { assert cursor[j] == cursor[1..][j - 1]; }
      }
      assert cursor[i + 1] == path;
    }
  }

  lemma PathForFinds(keys: Keys, cursor: seq<string>, address: string)
    requires "" !in keys
    ensures var path := PathFor(keys, cursor, address);
      && (path != "" ==> path in keys && keys[path].address == address && FirstWithAddress(keys, cursor, address, path))
      && (path == "" && Visits(cursor, keys) ==> forall p :: p in keys ==> keys[p].address != address)
  {
    PathForFound(keys, cursor, address);
    if PathFor(keys, cursor, address) != "" { PathForIsFirst(keys, cursor, address); }
    if PathFor(keys, cursor, address) == "" && Visits(cursor, keys) {
      forall p | p in keys ensures keys[p].address != address {
        if keys[p].address == address {
          PathForMisses(keys, cursor, address, p);
        }
      }
    }
  }

  lemma {:induction false} PathForFound(keys: Keys, cursor: seq<string>, address: string)
    ensures var path := PathFor(keys, cursor, address);
      path != "" ==> path in keys && keys[path].address == address
  {
    if cursor != [] {
      PathForFound(keys, cursor[1..], address);
    }
  }

  lemma {:induction false} PathForMisses(keys: Keys, cursor: seq<string>, address: string, p: string)
    requires p in keys && p in cursor && "" !in keys && keys[p].address == address
    ensures PathFor(keys, cursor, address) != ""
  {
    if cursor[0] != p {
      assert p in cursor[1..];
      PathForMisses(keys, cursor[1..], address, p);
    }
  }
}
