/** What a restart restores from the store (wallet/setup.go, wallet/db.go). */
module Reload {
  import opened Text
  import opened StoreCodec
  import opened Coins
  import opened Node
  import opened KeyChain
  import opened Transactions
  import opened Ledger
  import opened KeyInvariants
  import opened CoinSelection
  import opened Scanning

  /** No two child keys share an address. */
  ghost predicate AddressesDistinct(env: Env) {
    forall c, i: uint32, d, j: uint32 :: SameAddress(env, c, i, d, j) ==> c == d && i == j
  }

  predicate SameAddress(env: Env, c: Branch, i: uint32, d: Branch, j: uint32) {
    && env.child(c, i).Some? && env.child(d, j).Some?
    && env.addressOf(env.child(c, i).value) == env.addressOf(env.child(d, j).value)
  }

  /// The address map

  lemma {:induction false} ReadAddresses(keys: Keys, cursor: seq<string>)
    ensures forall a :: a in ExternalAddresses(keys, cursor) ==> ReadFrom(keys, cursor, a)
    ensures forall k :: k in cursor && k in keys && Contains(k, EXTERNAL_MARK) ==>
      keys[k].address in ExternalAddresses(keys, cursor)
  {
    if cursor != [] {
      var n := |cursor| - 1;
      var before := ExternalAddresses(keys, cursor[..n]);
      var read := ExternalAddresses(keys, cursor);
      ReadAddresses(keys, cursor[..n]);
      assert cursor == cursor[..n] + [cursor[n]];
      forall a | a in read ensures ReadFrom(keys, cursor, a) {
        if a in before { assert ReadFrom(keys, cursor[..n], a); }
      }
    }
  }

  /** The path read for an address is that of an external key with the address. */
  ghost predicate ReadFrom(keys: Keys, cursor: seq<string>, a: string)
    requires a in ExternalAddresses(keys, cursor)
  {
    var path := ExternalAddresses(keys, cursor)[a];
    path in cursor && path in keys && Contains(path, EXTERNAL_MARK) && keys[path].address == a
  }

  lemma MarkedPathIsExternal(env: Env, keys: Keys, path: string)
    requires KeysDerived(env, keys) && path in keys && Contains(path, EXTERNAL_MARK)
    ensures exists i: uint32 :: path == Path(External, i) && DerivedAt(env, keys, path, External, i)
  {
    var c, i: uint32 :| DerivedAt(env, keys, path, c, i);
    MarkTellsBranch(c, i);
  }

  /** Whatever order the cursor goes in, the map read back is sound: it never holds an internal address. */
  lemma ReadAddressesSound(env: Env, keys: Keys, cursor: seq<string>)
    requires KeysDerived(env, keys) && Visits(cursor, keys)
    ensures AddressesBacked(keys, ExternalAddresses(keys, cursor))
    ensures AddressesComplete(keys, ExternalAddresses(keys, cursor))
  {
    var read := ExternalAddresses(keys, cursor);
    ReadAddresses(keys, cursor);
    forall a | a in read ensures exists i: uint32 :: read[a] == Path(External, i) {
      assert ReadFrom(keys, cursor, a);
      MarkedPathIsExternal(env, keys, read[a]);
    }
  }

  lemma ReadAddressIsBacked(env: Env, keys: Keys, addresses: map<string, string>, cursor: seq<string>, a: string)
    requires KeysDerived(env, keys) && AddressesDistinct(env)
    requires AddressesBacked(keys, addresses) && AddressesComplete(keys, addresses)
    requires a in ExternalAddresses(keys, cursor)
    ensures a in addresses && addresses[a] == ExternalAddresses(keys, cursor)[a]
  {
    ReadAddresses(keys, cursor);
    assert ReadFrom(keys, cursor, a);
    var path := ExternalAddresses(keys, cursor)[a];
    assert keys[path].address in addresses;
    SameAddressSamePath(env, keys, addresses[a], path);
  }

  /** With distinct addresses it is the very map the wallet had. */
  lemma ReadAddressesExact(env: Env, keys: Keys, addresses: map<string, string>, cursor: seq<string>)
    requires KeysDerived(env, keys) && Visits(cursor, keys) && AddressesDistinct(env)
    requires AddressesBacked(keys, addresses) && AddressesComplete(keys, addresses)
    ensures ExternalAddresses(keys, cursor) == addresses
  {
    forall a | a in ExternalAddresses(keys, cursor)
      ensures a in addresses && addresses[a] == ExternalAddresses(keys, cursor)[a]
    {
      ReadAddressIsBacked(env, keys, addresses, cursor, a);
    }
    forall a | a in addresses ensures a in ExternalAddresses(keys, cursor) {
      BackedAddressIsRead(keys, addresses, cursor, a);
    }
    SameMap(ExternalAddresses(keys, cursor), addresses);
  }

  lemma SameMap(m: map<string, string>, n: map<string, string>)
    requires forall a :: a in m ==> a in n && n[a] == m[a]
    requires forall a :: a in n ==> a in m
    ensures m == n
  {
  }

  lemma BackedAddressIsRead(keys: Keys, addresses: map<string, string>, cursor: seq<string>, a: string)
    requires AddressesBacked(keys, addresses) && Visits(cursor, keys) && a in addresses
    ensures a in ExternalAddresses(keys, cursor)
  {
    ReadAddresses(keys, cursor);
    var i: uint32 :| addresses[a] == Path(External, i);
    MarkTellsBranch(External, i);
    assert addresses[a] in cursor;
  }

  lemma SameAddressSamePath(env: Env, keys: Keys, p: string, q: string)
    requires KeysDerived(env, keys) && AddressesDistinct(env)
    requires p in keys && q in keys && keys[p].address == keys[q].address
    ensures p == q
  {
    var c, i: uint32 :| DerivedAt(env, keys, p, c, i);
    var d, j: uint32 :| DerivedAt(env, keys, q, d, j);
    assert SameAddress(env, c, i, d, j);
  }

  /// The UTXO list

  /** The bucket holds the list's entries, each under its outpoint and as it was when unspent. */
  ghost predicate ListStored(us: seq<UTXO>, bucket: map<string, UTXO>) {
    && bucket.Keys == Outpoints(us)
    && forall i :: 0 <= i < |us| ==> Outpoint(us[i]) in bucket && bucket[Outpoint(us[i])] == us[i].(spent := false)
  }

  function Unflagged(us: seq<UTXO>): (r: seq<UTXO>)
    ensures |r| == |us| && forall i :: 0 <= i < |us| ==> r[i] == us[i].(spent := false)
  {
    seq(|us|, i requires 0 <= i < |us| => us[i].(spent := false))
  }

  lemma {:induction false} ReadUTXOs(bucket: map<string, UTXO>, cursor: seq<string>)
    requires forall i :: 0 <= i < |cursor| ==> cursor[i] in bucket
    ensures |StoredUTXOs(bucket, cursor)| == |cursor|
    ensures forall i :: 0 <= i < |cursor| ==> StoredUTXOs(bucket, cursor)[i] == bucket[cursor[i]]
  {
    if cursor != [] {
      ReadUTXOs(bucket, cursor[..|cursor| - 1]);
    }
  }

  lemma {:induction false} DistinctCounts(us: seq<UTXO>, u: UTXO)
    requires DistinctOutpoints(us)
    ensures multiset(us)[u] == if u in us then 1 else 0
  {
    OnceIn(us, u);
  }

  lemma SameEntriesSameMultiset(us: seq<UTXO>, vs: seq<UTXO>)
    requires DistinctOutpoints(us) && DistinctOutpoints(vs)
    requires forall u :: u in us <==> u in vs
    ensures multiset(us) == multiset(vs)
  {
    forall u ensures multiset(us)[u] == multiset(vs)[u] {
      DistinctCounts(us, u);
      DistinctCounts(vs, u);
    }
  }

  lemma ReadEntry(us: seq<UTXO>, bucket: map<string, UTXO>, key: string)
    requires ListStored(us, bucket) && key in bucket
    ensures Outpoint(bucket[key]) == key && !bucket[key].spent && bucket[key] in Unflagged(us)
  {
    assert key in Outpoints(us);
    var k :| 0 <= k < |us| && Outpoint(us[k]) == key;
    assert Unflagged(us)[k] == bucket[key];
  }

  lemma EntryIsRead(us: seq<UTXO>, bucket: map<string, UTXO>, cursor: seq<string>, k: nat)
    requires ListStored(us, bucket) && Visits(cursor, bucket) && k < |us|
    ensures Unflagged(us)[k] in StoredUTXOs(bucket, cursor)
  {
    ReadUTXOs(bucket, cursor);
    assert Outpoint(us[k]) in cursor;
    var i :| 0 <= i < |cursor| && cursor[i] == Outpoint(us[k]);
    assert StoredUTXOs(bucket, cursor)[i] == Unflagged(us)[k];
  }

  lemma UnflaggedDistinct(us: seq<UTXO>)
    requires DistinctOutpoints(us)
    ensures DistinctOutpoints(Unflagged(us))
  {
    forall i, j | 0 <= i < j < |us| ensures Outpoint(Unflagged(us)[i]) != Outpoint(Unflagged(us)[j]) {
      assert Outpoint(us[i]) != Outpoint(us[j]);
    }
  }

  /** The list read back is the list, unflagged, in some order. */
  lemma ReadUTXOsExact(us: seq<UTXO>, bucket: map<string, UTXO>, cursor: seq<string>)
    requires ListStored(us, bucket) && DistinctOutpoints(us) && Visits(cursor, bucket)
    ensures var read := StoredUTXOs(bucket, cursor);
      && multiset(read) == multiset(Unflagged(us))
      && DistinctOutpoints(read)
      && (forall i :: 0 <= i < |read| ==> !read[i].spent)
  {
    var read := StoredUTXOs(bucket, cursor);
    ReadUTXOs(bucket, cursor);
    forall i | 0 <= i < |read| ensures Outpoint(read[i]) == cursor[i] && !read[i].spent && read[i] in Unflagged(us) {
      ReadEntry(us, bucket, cursor[i]);
    }
    assert DistinctOutpoints(read);
    forall u | u in Unflagged(us) ensures u in read {
      var k :| 0 <= k < |us| && Unflagged(us)[k] == u;
      EntryIsRead(us, bucket, cursor, k);
    }
    UnflaggedDistinct(us);
    SameEntriesSameMultiset(read, Unflagged(us));
  }

  /// Loading

  lemma LoadedKeys(env: Env, w: Wallet, keyCursor: seq<string>, r: Wallet)
    requires KeysDerived(env, w.store.keys) && Visits(keyCursor, w.store.keys)
    requires r.store.keys == w.store.keys && r.addresses == ExternalAddresses(w.store.keys, keyCursor)
    ensures KeysSound(env, r)
  {
    ReadAddressesSound(env, w.store.keys, keyCursor);
  }

  lemma LoadedOwned(env: Env, w: Wallet, utxoCursor: seq<string>, r: Wallet)
    requires AllOwned(env, w) && Visits(utxoCursor, w.store.utxos)
    requires r.store.keys == w.store.keys && r.store.utxos == w.store.utxos
    requires r.utxos == StoredUTXOs(w.store.utxos, utxoCursor)
    ensures AllOwned(env, r)
  {
    ReadUTXOs(w.store.utxos, utxoCursor);
  }

  lemma LoadedFields(w: Wallet, keyCursor: seq<string>, utxoCursor: seq<string>, height: Option<int>, saved: bool)
    ensures var r := Loaded(w.store, keyCursor, utxoCursor, height, saved);
      r.Some? ==>
        && r.value.store.keys == w.store.keys && r.value.store.utxos == w.store.utxos
        && r.value.addresses == ExternalAddresses(w.store.keys, keyCursor)
        && r.value.utxos == StoredUTXOs(w.store.utxos, utxoCursor)
  {
  }

  /** A loaded wallet is sound whenever the one that wrote the store was. */
  lemma LoadKeepsSound(env: Env, w: Wallet, keyCursor: seq<string>, utxoCursor: seq<string>, height: Option<int>,
                       saved: bool)
    requires Sound(env, w) && Visits(keyCursor, w.store.keys) && Visits(utxoCursor, w.store.utxos)
    ensures var r := Loaded(w.store, keyCursor, utxoCursor, height, saved);
      r.Some? ==> Sound(env, r.value) && r.value.store.keys == w.store.keys
  {
    LoadedFields(w, keyCursor, utxoCursor, height, saved);
    var r := Loaded(w.store, keyCursor, utxoCursor, height, saved);
    if r.Some? {
      LoadedKeys(env, w, keyCursor, r.value);
      LoadedOwned(env, w, utxoCursor, r.value);
    }
  }

  /** Memory and store agree, metadata and list. */
  ghost predicate WrittenThrough(w: Wallet) {
    && w.store.balance == Int64ToBytes(w.balance)
    && w.store.lastScanned == Int64ToBytes(w.lastScanned)
    && w.store.externalIdx == Uint32ToBytes(w.externalIdx)
    && w.store.internalIdx == Uint32ToBytes(w.internalIdx)
    && ListStored(w.utxos, w.store.utxos)
  }

  /** A restart restores everything but the Spent flags, the order of the list and the lock; a height
      of zero is not restored, but replaced by the chain's height less ten. */
  lemma RestartRestores(env: Env, w: Wallet, keyCursor: seq<string>, utxoCursor: seq<string>, height: Option<int>,
                        saved: bool)
    requires KeysSound(env, w) && AddressesDistinct(env) && WrittenThrough(w) && DistinctOutpoints(w.utxos)
    requires IsInt64(w.balance) && IsInt64(w.lastScanned)
    requires Visits(keyCursor, w.store.keys) && Visits(utxoCursor, w.store.utxos)
    ensures var r := Loaded(w.store, keyCursor, utxoCursor, height, saved);
      && (r.None? <==> w.lastScanned == 0 && height.None?)
      && (r.Some? ==>
            && multiset(r.value.utxos) == multiset(Unflagged(w.utxos))
            && r.value.balance == w.balance
            && r.value.externalIdx == w.externalIdx && r.value.internalIdx == w.internalIdx
            && r.value.addresses == w.addresses && r.value.locked
            && r.value.lastScanned == (if w.lastScanned != 0 || !saved then w.lastScanned else height.value - 10)
            && r.value.store == w.store.(lastScanned := Int64ToBytes(r.value.lastScanned)))
  {
    ReadAddressesExact(env, w.store.keys, w.addresses, keyCursor);
    ReadUTXOsExact(w.utxos, w.store.utxos, utxoCursor);
    Int64Survives(w.balance);
    Int64Survives(w.lastScanned);
    Uint32Survives(w.externalIdx);
    Uint32Survives(w.internalIdx);
  }

  /// Scanning across a restart

  lemma {:induction false} StoredKeepsList(us: seq<UTXO>, bucket: map<string, UTXO>, more: seq<UTXO>)
    requires ListStored(us, bucket) && DistinctOutpoints(us + more)
    requires forall i :: 0 <= i < |more| ==> !more[i].spent
    ensures ListStored(us + more, Stored(bucket, more))
    decreases |more|
  {
    if more == [] {
      assert us + more == us;
    } else {
      forall i | 0 <= i < |us| ensures Outpoint(us[i]) != Outpoint(more[0]) {
        assert (us + more)[i] == us[i] && (us + more)[|us|] == more[0];
      }
      StoreOne(us, bucket, more[0]);
      assert (us + [more[0]]) + more[1..] == us + more;
      StoredKeepsList(us + [more[0]], bucket[Outpoint(more[0]) := more[0]], more[1..]);
    }
  }

  lemma StoreOne(us: seq<UTXO>, bucket: map<string, UTXO>, u: UTXO)
    requires ListStored(us, bucket) && !u.spent
    requires forall i :: 0 <= i < |us| ==> Outpoint(us[i]) != Outpoint(u)
    ensures ListStored(us + [u], bucket[Outpoint(u) := u])
  {
    assert Outpoints(us + [u]) == Outpoints(us) + {Outpoint(u)} by {
      forall v | v in us + [u] ensures Outpoint(v) in Outpoints(us) + {Outpoint(u)} {
      }
      assert u in us + [u];
      forall v | v in us ensures v in us + [u] {
      }
    }
  }

  /** Crediting does not look at the list or the lock. */
  lemma {:induction false} CreditedBlindly(w: Wallet, w': Wallet, us: seq<UTXO>)
    requires w' == w.(utxos := w'.utxos, locked := w'.locked)
    ensures Credited(w', us) == Credited(w, us).(utxos := w'.utxos + us, locked := w'.locked)
    decreases |us|
  {
    if us == [] {
      assert w'.utxos + us == w'.utxos;
    } else {
      var next := WithBalance(WithUTXO(w, us[0]), w.balance + us[0].value);
      var next' := WithBalance(WithUTXO(w', us[0]), w'.balance + us[0].value);
      NextBlindly(w, w', us[0], next, next');
      CreditedBlindly(next, next', us[1..]);
      assert (w'.utxos + [us[0]]) + us[1..] == w'.utxos + us;
    }
  }

  lemma NextBlindly(w: Wallet, w': Wallet, u: UTXO, next: Wallet, next': Wallet)
    requires w' == w.(utxos := w'.utxos, locked := w'.locked)
    requires next == WithBalance(WithUTXO(w, u), w.balance + u.value)
    requires next' == WithBalance(WithUTXO(w', u), w'.balance + u.value)
    ensures next' == next.(utxos := w'.utxos + [u], locked := w'.locked)
  {
  }

  lemma CreditedKeepsWrittenThrough(w: Wallet, us: seq<UTXO>, height: int)
    requires WrittenThrough(w) && DistinctOutpoints(w.utxos + us)
    requires forall i :: 0 <= i < |us| ==> !us[i].spent
    ensures var w1 := WithLastScanned(Credited(w, us), height);
      WrittenThrough(w1) && w1.store.keys == w.store.keys && w1.addresses == w.addresses
  {
    CreditedAll(w, us);
    StoredKeepsList(w.utxos, w.store.utxos, us);
  }

  lemma UnflaggedAppend(us: seq<UTXO>, more: seq<UTXO>)
    requires forall i :: 0 <= i < |more| ==> !more[i].spent
    ensures Unflagged(us + more) == Unflagged(us) + more
  {
    assert forall i :: 0 <= i < |more| ==> more[i] == more[i].(spent := false);
  }

  lemma LoadedAfterScans(env: Env, w: Wallet, keyCursor: seq<string>, utxoCursor: seq<string>)
    requires KeysSound(env, w) && AddressesDistinct(env) && WrittenThrough(w) && DistinctOutpoints(w.utxos)
    requires IsInt64(w.balance) && IsInt64(w.lastScanned) && w.lastScanned != 0
    requires Visits(keyCursor, w.store.keys) && Visits(utxoCursor, w.store.utxos)
    ensures var r := Loaded(w.store, keyCursor, utxoCursor, None, true);
      && r.Some? && r.value == w.(utxos := r.value.utxos, locked := true)
      && multiset(r.value.utxos) == multiset(Unflagged(w.utxos))
  {
    RestartRestores(env, w, keyCursor, utxoCursor, None, true);
  }

  lemma ScannedKeepsWrittenThrough(env: Env, w: Wallet, chain: seq<Block>, height: int, w1: Wallet)
    requires WrittenThrough(w) && -1 <= w.lastScanned < height < |chain|
    requires w1 == ScannedTo(env, w, chain, height) && DistinctOutpoints(w1.utxos)
    ensures WrittenThrough(w1) && w1.lastScanned == height
    ensures w1.store.keys == w.store.keys && w1.addresses == w.addresses
  {
    var found := OwnedBetween(env, w.addresses, chain, w.lastScanned + 1, height + 1);
    ScannedToIs(env, w, chain, height, found);
    UnspentBetween(env, w.addresses, chain, w.lastScanned + 1, height + 1, found);
    CreditedIsWrittenThrough(w, found, height, w1);
  }

  lemma CreditedIsWrittenThrough(w: Wallet, us: seq<UTXO>, height: int, w1: Wallet)
    requires WrittenThrough(w) && w1 == WithLastScanned(Credited(w, us), height) && DistinctOutpoints(w1.utxos)
    requires forall i :: 0 <= i < |us| ==> !us[i].spent
    ensures WrittenThrough(w1) && w1.lastScanned == height
    ensures w1.store.keys == w.store.keys && w1.addresses == w.addresses
  {
    CreditedFields(w, us);
    CreditedKeepsWrittenThrough(w, us, height);
  }

  lemma UnspentBetween(env: Env, addresses: map<string, string>, chain: seq<Block>, lo: nat, hi: nat, found: seq<UTXO>)
    requires lo <= hi <= |chain| && found == OwnedBetween(env, addresses, chain, lo, hi)
    ensures forall i :: 0 <= i < |found| ==> !found[i].spent
  {
    OwnedBetweenUnspent(env, addresses, chain, lo, hi);
    forall i | 0 <= i < |found| ensures !found[i].spent {
      assert found[i] in found;
    }
  }

  /** Scanning up to h1, restarting and scanning on to h2 is scanning to h2 in one go: only the Spent
      flags and the order of the list may differ, and the wallet is locked. */
  lemma RestartIsTransparentToScans(env: Env, w: Wallet, chain: seq<Block>, h1: int, h2: int,
                                    keyCursor: seq<string>, utxoCursor: seq<string>)
    requires KeysSound(env, w) && AddressesDistinct(env) && WrittenThrough(w)
    requires -1 <= w.lastScanned < h1 <= h2 < |chain| && h1 != 0
    requires var w1 := ScannedTo(env, w, chain, h1);
      && DistinctOutpoints(w1.utxos) && IsInt64(w1.balance) && IsInt64(h1)
      && Visits(keyCursor, w1.store.keys) && Visits(utxoCursor, w1.store.utxos)
    ensures var w1 := ScannedTo(env, w, chain, h1);
      var r := Loaded(w1.store, keyCursor, utxoCursor, None, true);
      var whole := ScannedTo(env, w, chain, h2);
      && r.Some? && r.value.lastScanned == h1
      && var parts := ScannedTo(env, r.value, chain, h2);
      && parts == whole.(utxos := parts.utxos, locked := true)
      && multiset(parts.utxos) == multiset(Unflagged(whole.utxos))
  {
    var w1 := ScannedTo(env, w, chain, h1);
    ScannedKeepsWrittenThrough(env, w, chain, h1, w1);
    LoadedAfterScans(env, w1, keyCursor, utxoCursor);
    ScannedToComposes(env, w, chain, h1, h2);
    ResumedScan(env, w1, Loaded(w1.store, keyCursor, utxoCursor, None, true).value, chain, h2);
  }

  lemma ResumedScan(env: Env, w: Wallet, r: Wallet, chain: seq<Block>, height: int)
    requires r == w.(utxos := r.utxos, locked := r.locked) && multiset(r.utxos) == multiset(Unflagged(w.utxos))
    requires -1 <= w.lastScanned && height < |chain|
    ensures var parts, whole := ScannedTo(env, r, chain, height), ScannedTo(env, w, chain, height);
      && parts == whole.(utxos := parts.utxos, locked := r.locked)
      && multiset(parts.utxos) == multiset(Unflagged(whole.utxos))
  {
    if w.lastScanned < height {
      var found := OwnedBetween(env, w.addresses, chain, w.lastScanned + 1, height + 1);
      UnspentBetween(env, w.addresses, chain, w.lastScanned + 1, height + 1, found);
      CreditedAlike(w, r, found);
      ScannedToIs(env, w, chain, height, found);
      ScannedToIs(env, r, chain, height, found);
    }
  }

  lemma CreditedAlike(w: Wallet, r: Wallet, found: seq<UTXO>)
    requires r == w.(utxos := r.utxos, locked := r.locked) && multiset(r.utxos) == multiset(Unflagged(w.utxos))
    requires forall i :: 0 <= i < |found| ==> !found[i].spent
    ensures var parts, whole := Credited(r, found), Credited(w, found);
      && parts == whole.(utxos := parts.utxos, locked := r.locked)
      && multiset(parts.utxos) == multiset(Unflagged(whole.utxos))
  {
    CreditedBlindly(w, r, found);
    CreditedFields(w, found);
    UnflaggedAppend(w.utxos, found);
  }

  lemma {:induction false} OwnedOutputsUnspent(env: Env, addresses: map<string, string>, tx: BlockTx, k: nat)
    requires k <= |tx.outs|
    ensures forall u :: u in OwnedOutputs(env, addresses, tx, k) ==> !u.spent
    decreases |tx.outs| - k
  {
    if k < |tx.outs| {
      OwnedOutputsUnspent(env, addresses, tx, k + 1);
    }
  }

  lemma {:induction false} OwnedInUnspent(env: Env, addresses: map<string, string>, block: Block, i: nat)
    requires i <= |block|
    ensures forall u :: u in OwnedIn(env, addresses, block, i) ==> !u.spent
    decreases |block| - i
  {
    if i < |block| {
      OwnedOutputsUnspent(env, addresses, block[i], 0);
      OwnedInUnspent(env, addresses, block, i + 1);
    }
  }

  lemma {:induction false} OwnedBetweenUnspent(env: Env, addresses: map<string, string>, chain: seq<Block>, lo: nat,
                                               hi: nat)
    requires lo <= hi <= |chain|
    ensures forall u :: u in OwnedBetween(env, addresses, chain, lo, hi) ==> !u.spent
    decreases hi
  {
    if lo < hi {
      OwnedBetweenUnspent(env, addresses, chain, lo, hi - 1);
      OwnedInUnspent(env, addresses, chain[hi - 1], 0);
    }
  }
}
