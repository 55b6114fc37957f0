/** Which paths the keys bucket holds: no index is skipped and none runs ahead. */
module KeyDensity {
  import opened StoreCodec
  import opened Node
  import opened KeyChain
  import opened Transactions
  import opened Ledger

  /** Paths 0 to idx - 1 of a branch are there, perhaps path idx, and no other. */
  ghost predicate Dense(keys: Keys, c: Branch, idx: nat) {
    && (forall i: nat :: i < idx ==> Path(c, i) in keys)
    && (forall i: nat :: Path(c, i) in keys ==> i <= idx)
  }

  ghost predicate KeysDense(w: Wallet) {
    Dense(w.store.keys, External, w.externalIdx) && Dense(w.store.keys, Internal, w.internalIdx)
  }

  /** The counters in the store are those in memory. */
  ghost predicate CountersStored(w: Wallet) {
    && w.store.externalIdx == Uint32ToBytes(w.externalIdx)
    && w.store.internalIdx == Uint32ToBytes(w.internalIdx)
  }

  lemma DenseAfterPut(keys: Keys, c: Branch, idx: nat, key: KeyPair, d: Branch, other: nat)
    requires Dense(keys, c, idx) && c != d && Dense(keys, d, other)
    ensures var keys' := keys[Path(c, idx) := key];
      Dense(keys', c, idx) && Dense(keys', c, idx + 1) && Dense(keys', d, other)
  {
    var keys' := keys[Path(c, idx) := key];
    forall i: nat | Path(c, i) in keys' ensures i <= idx {
      if Path(c, i) !in keys { PathInjective(c, i, c, idx); }
    }
    forall i: nat | Path(d, i) in keys' ensures i <= other {
      if Path(d, i) !in keys { PathInjective(d, i, c, idx); }
    }
  }

  /** Below wrap-around, both draws keep the bucket dense whichever of their writes fail. */
  lemma DrawsKeepDense(env: Env, w: Wallet, draw: KeyDraw)
    requires KeysDense(w) && CountersStored(w)
    requires w.externalIdx < 0xffff_ffff && w.internalIdx < 0xffff_ffff
    ensures KeysDense(ExternalKey(env, w, draw).1) && CountersStored(ExternalKey(env, w, draw).1)
    ensures KeysDense(InternalKey(env, w, draw).1) && CountersStored(InternalKey(env, w, draw).1)
  {
    ExternalKeepsDense(env, w, draw);
    InternalKeepsDense(env, w, draw);
  }

  lemma ExternalKeepsDense(env: Env, w: Wallet, draw: KeyDraw)
    requires KeysDense(w) && CountersStored(w) && w.externalIdx < 0xffff_ffff
    ensures KeysDense(ExternalKey(env, w, draw).1) && CountersStored(ExternalKey(env, w, draw).1)
  {
    if env.child(External, w.externalIdx).Some? && draw.keySaved {
      var key := NewKeyPair(env, env.child(External, w.externalIdx).value, draw.nonce);
      DenseAfterPut(w.store.keys, External, w.externalIdx, key, Internal, w.internalIdx);
    }
  }

  lemma InternalKeepsDense(env: Env, w: Wallet, draw: KeyDraw)
    requires KeysDense(w) && CountersStored(w) && w.internalIdx < 0xffff_ffff
    ensures KeysDense(InternalKey(env, w, draw).1) && CountersStored(InternalKey(env, w, draw).1)
  {
    if env.child(Internal, w.internalIdx).Some? && draw.keySaved {
      var key := NewKeyPair(env, env.child(Internal, w.internalIdx).value, draw.nonce);
      DenseAfterPut(w.store.keys, Internal, w.internalIdx, key, External, w.externalIdx);
    }
  }

  /** A draw whose index write failed is drawn again: same path, same address, and this time the
      counter moves on. */
  lemma RetryDrawsTheSameAddress(env: Env, w: Wallet, failed: KeyDraw, retry: KeyDraw)
    requires env.child(External, w.externalIdx).Some? && failed.keySaved && !failed.indexSaved
    requires retry.keySaved && retry.indexSaved && w.externalIdx < 0xffff_ffff
    ensures var w1 := ExternalKey(env, w, failed).1;
      var path := Path(External, w.externalIdx);
      var (key, w2) := ExternalKey(env, w1, retry);
      && w1.externalIdx == w.externalIdx && path in w1.store.keys
      && key.Some? && key.value.address == w1.store.keys[path].address
      && w2.addresses == w1.addresses && w2.externalIdx == w.externalIdx + 1
  {
    var w1 := ExternalKey(env, w, failed).1;
    var a := w1.store.keys[Path(External, w.externalIdx)].address;
    assert w1.addresses[a := Path(External, w.externalIdx)] == w1.addresses;
  }
}
