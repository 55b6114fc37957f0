/** A block whose scan a failed write cut short is scanned again from its start (wallet/scan.go). */
module StoreFailures {
  import opened Text
  import opened StoreCodec
  import opened Coins
  import opened Node
  import opened Ledger
  import opened Scanning

  /** One credit after the other, up to the first failed write. */
  function CreditUntilFailure(s: Scan, us: seq<UTXO>, ok: Writes): Scan
    decreases |us|
  {
    if !s.running || us == [] then s else CreditUntilFailure(Credit(s, us[0], ok), us[1..], ok)
  }

  lemma {:induction false} CreditUntilFailureConcat(s: Scan, us: seq<UTXO>, vs: seq<UTXO>, ok: Writes)
    ensures CreditUntilFailure(s, us + vs, ok) == CreditUntilFailure(CreditUntilFailure(s, us, ok), vs, ok)
    decreases |us|
  {
    if us == [] {
      assert us + vs == vs;
    } else if s.running {
      assert (us + vs)[1..] == us[1..] + vs;
      CreditUntilFailureConcat(Credit(s, us[0], ok), us[1..], vs, ok);
    }
  }

  lemma {:induction false} CreditsKeepAddresses(s: Scan, us: seq<UTXO>, ok: Writes)
    ensures CreditUntilFailure(s, us, ok).w.addresses == s.w.addresses
    ensures CreditUntilFailure(s, us, ok).w.lastScanned == s.w.lastScanned
    decreases |us|
  {
    if us != [] && s.running {
      CreditsKeepAddresses(Credit(s, us[0], ok), us[1..], ok);
    }
  }

  lemma {:induction false} OutputsAreCredits(env: Env, s: Scan, tx: BlockTx, k: nat, ok: Writes)
    requires WellFormedTx(env, tx) && k <= |tx.outs|
    ensures ScanOutputs(env, s, tx, k, ok) == CreditUntilFailure(s, OwnedOutputs(env, s.w.addresses, tx, k), ok)
    decreases |tx.outs| - k
  {
    if s.running && k < |tx.outs| {
      OutputsAreCredits(env, ScanOutput(env, s, tx.txid, k, tx.outs[k], ok), tx, k + 1, ok);
    }
  }

  lemma {:induction false} BlockIsCredits(env: Env, s: Scan, block: Block, i: nat, ok: Writes)
    requires WellFormed(env, block) && i <= |block|
    ensures ScanTxs(env, s, block, i, ok) == CreditUntilFailure(s, OwnedIn(env, s.w.addresses, block, i), ok)
    decreases |block| - i
  {
    if s.running && i < |block| {
      var here := OwnedOutputs(env, s.w.addresses, block[i], 0);
      OutputsAreCredits(env, s, block[i], 0, ok);
      CreditsKeepAddresses(s, here, ok);
      BlockIsCredits(env, ScanOutputs(env, s, block[i], 0, ok), block, i + 1, ok);
      CreditUntilFailureConcat(s, here, OwnedIn(env, s.w.addresses, block, i + 1), ok);
    }
  }

  /** `m` UTXOs were saved, the first `k` of them with their balance. */
  ghost predicate CutShort(w: Wallet, w': Wallet, us: seq<UTXO>, k: nat, m: nat) {
    && k <= m <= |us| && m <= k + 1
    && w'.utxos == w.utxos + us[..m]
    && w'.balance == w.balance + Sum(us[..k])
  }

  lemma CutShortNext(w: Wallet, w': Wallet, us: seq<UTXO>, k: nat, m: nat)
    requires us != [] && CutShort(WithBalance(WithUTXO(w, us[0]), w.balance + us[0].value), w', us[1..], k, m)
    ensures CutShort(w, w', us, k + 1, m + 1)
  {
    SavedNext(w.utxos, us, m);
    assert us[..k + 1][1..] == us[1..][..k];
    SumFront(us[..k + 1]);
  }

  lemma SavedNext(listed: seq<UTXO>, us: seq<UTXO>, m: nat)
    requires m < |us|
    ensures listed + us[..m + 1] == listed + [us[0]] + us[1..][..m]
  {
    assert us[..m + 1] == [us[0]] + us[1..][..m];
  }

  /** How many of the UTXOs are saved, and how many credited in full, when writes go from the n-th on. */
  function SavedCount(us: seq<UTXO>, ok: Writes, n: nat): (m: nat)
    ensures m <= |us|
    decreases |us|
  {
    if us == [] || !ok(n) then 0 else if !ok(n + 1) then 1 else 1 + SavedCount(us[1..], ok, n + 2)
  }

  function CreditedCount(us: seq<UTXO>, ok: Writes, n: nat): (k: nat)
    ensures k <= |us|
    decreases |us|
  {
    if us == [] || !ok(n) || !ok(n + 1) then 0 else 1 + CreditedCount(us[1..], ok, n + 2)
  }

  lemma NoneSaved(w: Wallet, us: seq<UTXO>)
    ensures CutShort(w, w, us, 0, 0)
  {
    assert us[..0] == [] && w.utxos + [] == w.utxos;
  }

  lemma OneSaved(w: Wallet, us: seq<UTXO>)
    requires us != []
    ensures CutShort(w, WithUTXO(w, us[0]), us, 0, 1)
  {
    assert us[..1] == [us[0]] && us[..0] == [];
  }

  lemma {:induction false} CreditsCutShort(s: Scan, us: seq<UTXO>, ok: Writes)
    requires s.running
    ensures CutShort(s.w, CreditUntilFailure(s, us, ok).w, us,
                     CreditedCount(us, ok, s.writes), SavedCount(us, ok, s.writes))
    decreases |us|
  {
    if us == [] || !ok(s.writes) {
      NoneSaved(s.w, us);
    } else if !ok(s.writes + 1) {
      OneSaved(s.w, us);
    } else {
      CreditsCutShort(Credit(s, us[0], ok), us[1..], ok);
      CutShortNext(s.w, CreditUntilFailure(s, us, ok).w, us,
                   CreditedCount(us[1..], ok, s.writes + 2), SavedCount(us[1..], ok, s.writes + 2));
    }
  }

  /** A balance credited is in the store. */
  lemma {:induction false} CreditedIsStored(s: Scan, us: seq<UTXO>, ok: Writes)
    requires s.running
    ensures var w1 := CreditUntilFailure(s, us, ok).w;
      && (CreditedCount(us, ok, s.writes) == 0 ==> w1.store.balance == s.w.store.balance && w1.balance == s.w.balance)
      && (CreditedCount(us, ok, s.writes) > 0 ==> w1.store.balance == Int64ToBytes(w1.balance))
    decreases |us|
  {
    if us != [] && ok(s.writes) && ok(s.writes + 1) {
      CreditedIsStored(Credit(s, us[0], ok), us[1..], ok);
    }
  }

  /** What was saved is in the bucket. */
  lemma {:induction false} SavedIsStored(s: Scan, us: seq<UTXO>, ok: Writes)
    requires s.running
    ensures CreditUntilFailure(s, us, ok).w.store.utxos
         == Stored(s.w.store.utxos, us[..SavedCount(us, ok, s.writes)])
    decreases |us|
  {
    if us == [] || !ok(s.writes) {
      assert us[..0] == [];
    } else {
      var m := SavedCount(us, ok, s.writes);
      StoredNext(s.w.store.utxos, us, m);
      if ok(s.writes + 1) {
        SavedIsStored(Credit(s, us[0], ok), us[1..], ok);
      } else {
        assert us[1..][..0] == [];
      }
    }
  }

  lemma StoredNext(bucket: map<string, UTXO>, us: seq<UTXO>, m: nat)
    requires 0 < m <= |us|
    ensures Stored(bucket, us[..m]) == Stored(bucket[Outpoint(us[0]) := us[0]], us[1..][..m - 1])
  {
    assert us[..m][1..] == us[1..][..m - 1];
  }

  lemma {:induction false} RunsOnIffAllWritten(s: Scan, us: seq<UTXO>, ok: Writes)
    requires s.running
    ensures var r := CreditUntilFailure(s, us, ok);
      && (r.running <==> forall j :: s.writes <= j < s.writes + 2 * |us| ==> ok(j))
      && (r.running ==> r.writes == s.writes + 2 * |us|)
    decreases |us|
  {
    if us != [] && ok(s.writes) && ok(s.writes + 1) {
      RunsOnIffAllWritten(Credit(s, us[0], ok), us[1..], ok);
    }
  }

  /** Scanning a block takes two writes for each output found, and one for the height. */
  ghost predicate SomeWriteFails(found: seq<UTXO>, ok: Writes) {
    exists j: nat :: j <= 2 * |found| && !ok(j)
  }

  /** One attempt: it counts as scanned unless one of its writes fails, and what it leaves is then what it
      had saved and credited before. */
  lemma OneAttempt(env: Env, w: Wallet, block: Block, ok: Writes)
    requires WellFormed(env, block)
    ensures var found := OwnedIn(env, w.addresses, block, 0);
      var w1 := ScanBlock(env, w, block, ok);
      && w1.lastScanned == (if SomeWriteFails(found, ok) then w.lastScanned else w.lastScanned + 1)
      && w1.addresses == w.addresses
      && CutShort(w, w1, found, CreditedCount(found, ok, 0), SavedCount(found, ok, 0))
      && w1.store.utxos == Stored(w.store.utxos, found[..SavedCount(found, ok, 0)])
      && w1.store.balance == (if CreditedCount(found, ok, 0) == 0 then w.store.balance else Int64ToBytes(w1.balance))
  {
    var found := OwnedIn(env, w.addresses, block, 0);
    var s := Scan(w, 0, true);
    BlockIsCredits(env, s, block, 0, ok);
    CreditsKeepAddresses(s, found, ok);
    CreditsCutShort(s, found, ok);
    SavedIsStored(s, found, ok);
    CreditedIsStored(s, found, ok);
    RunsOnIffAllWritten(s, found, ok);
  }

  /// Any number of attempts

  /** A round that leaves the height where it is: the node fails, or a write of the block's scan does. */
  ghost predicate Fails(found: seq<UTXO>, outcome: Outcome) {
    outcome.Some? && (outcome.value.StoreFails? ==> SomeWriteFails(found, outcome.value.ok))
  }

  /** What a failed round saves of the block's outputs, and the value it credits. */
  function SavedIn(found: seq<UTXO>, outcome: Outcome): seq<UTXO> {
    match outcome
    case Some(StoreFails(ok)) => found[..SavedCount(found, ok, 0)]
    case _ => []
  }

  function CreditedInRound(found: seq<UTXO>, outcome: Outcome): int {
    match outcome
    case Some(StoreFails(ok)) => Sum(found[..CreditedCount(found, ok, 0)])
    case _ => 0
  }

  function SavedBy(found: seq<UTXO>, outcomes: seq<Outcome>): seq<UTXO> {
    if outcomes == [] then [] else SavedIn(found, outcomes[0]) + SavedBy(found, outcomes[1..])
  }

  function CreditedBy(found: seq<UTXO>, outcomes: seq<Outcome>): int {
    if outcomes == [] then 0 else CreditedInRound(found, outcomes[0]) + CreditedBy(found, outcomes[1..])
  }

  lemma FailedRound(env: Env, w: Wallet, chain: seq<Block>, outcome: Outcome)
    requires 0 <= w.lastScanned + 1 < |chain| && WellFormed(env, chain[w.lastScanned + 1])
    requires Fails(OwnedIn(env, w.addresses, chain[w.lastScanned + 1], 0), outcome)
    ensures var found := OwnedIn(env, w.addresses, chain[w.lastScanned + 1], 0);
      var w1 := ScanRound(env, w, chain, outcome);
      && w1.lastScanned == w.lastScanned && w1.addresses == w.addresses
      && w1.utxos == w.utxos + SavedIn(found, outcome)
      && w1.balance == w.balance + CreditedInRound(found, outcome)
  {
    if outcome.value.StoreFails? {
      OneAttempt(env, w, chain[w.lastScanned + 1], outcome.value.ok);
    }
  }

  /** The next block is through; `before` was saved and `extra` credited by failed rounds. */
  ghost predicate AddedUp(w: Wallet, r: Wallet, before: seq<UTXO>, extra: int, found: seq<UTXO>) {
    && r.lastScanned == w.lastScanned + 1
    && r.utxos == w.utxos + before + found
    && r.balance == w.balance + extra + Sum(found)
  }

  lemma AddedUpFirst(w: Wallet, w1: Wallet, r: Wallet, first: seq<UTXO>, before: seq<UTXO>, more: int, extra: int,
                     found: seq<UTXO>)
    requires AddedUp(w1, r, before, extra, found) && w1.lastScanned == w.lastScanned
    requires w1.utxos == w.utxos + first && w1.balance == w.balance + more
    ensures AddedUp(w, r, first + before, more + extra, found)
  {
    assert w.utxos + (first + before) + found == w.utxos + first + before + found;
  }

  lemma GoodRoundScans(env: Env, w: Wallet, chain: seq<Block>, found: seq<UTXO>)
    requires 0 <= w.lastScanned + 1 < |chain| && WellFormed(env, chain[w.lastScanned + 1])
    requires found == OwnedIn(env, w.addresses, chain[w.lastScanned + 1], 0)
    ensures ScanRound(env, w, chain, None) == WithLastScanned(Credited(w, found), w.lastScanned + 1)
  {
    ScanBlockFinds(env, w, chain[w.lastScanned + 1], Working());
  }

  lemma CreditedAddsUp(w: Wallet, found: seq<UTXO>)
    ensures AddedUp(w, WithLastScanned(Credited(w, found), w.lastScanned + 1), [], 0, found)
  {
    CreditedFields(w, found);
    assert w.utxos + [] + found == w.utxos + found;
  }

  /** The round that succeeds. */
  lemma LastRound(env: Env, w: Wallet, chain: seq<Block>, found: seq<UTXO>)
    requires 0 <= w.lastScanned + 1 < |chain| && WellFormed(env, chain[w.lastScanned + 1])
    requires found == OwnedIn(env, w.addresses, chain[w.lastScanned + 1], 0)
    ensures AddedUp(w, ScanRound(env, w, chain, None), [], 0, found)
  {
    GoodRoundScans(env, w, chain, found);
    CreditedAddsUp(w, found);
  }

  lemma RoundsFirst(env: Env, w: Wallet, chain: seq<Block>, height: int, outcome: Outcome, rest: seq<Outcome>)
    requires w.lastScanned < height
    ensures ScanRounds(env, w, chain, height, [outcome] + rest)
         == ScanRounds(env, ScanRound(env, w, chain, outcome), chain, height, rest)
  {
    assert ([outcome] + rest)[1..] == rest;
  }

  /** However many rounds fail before a block is through, and however they fail: each leaves in the list
      what it had saved, and in the balance what it had credited, on top of the round that succeeds. */
  lemma {:induction false} FailedRoundsAddUp(env: Env, w: Wallet, chain: seq<Block>, outcomes: seq<Outcome>,
                                             found: seq<UTXO>)
    requires 0 <= w.lastScanned + 1 < |chain| && WellFormed(env, chain[w.lastScanned + 1])
    requires found == OwnedIn(env, w.addresses, chain[w.lastScanned + 1], 0)
    requires forall i :: 0 <= i < |outcomes| ==> Fails(found, outcomes[i])
    ensures AddedUp(w, ScanRounds(env, w, chain, w.lastScanned + 1, outcomes + [None]),
                    SavedBy(found, outcomes), CreditedBy(found, outcomes), found)
    decreases |outcomes|
  {
    var h := w.lastScanned + 1;
    if outcomes == [] {
      var none: seq<Outcome> := [];
      assert outcomes + [None] == [None] + none;
      LastRound(env, w, chain, found);
      RoundsFirst(env, w, chain, h, None, none);
    } else {
      var w1 := ScanRound(env, w, chain, outcomes[0]);
      assert outcomes + [None] == [outcomes[0]] + (outcomes[1..] + [None]);
      FailedRound(env, w, chain, outcomes[0]);
      FailedRoundsAddUp(env, w1, chain, outcomes[1..], found);
      RoundsFirst(env, w, chain, h, outcomes[0], outcomes[1..] + [None]);
      AddedUpFirst(w, w1, ScanRounds(env, w1, chain, h, outcomes[1..] + [None]),
                   SavedIn(found, outcomes[0]), SavedBy(found, outcomes[1..]),
                   CreditedInRound(found, outcomes[0]), CreditedBy(found, outcomes[1..]), found);
    }
  }

  ghost predicate FirstWriteFails(outcome: Outcome) {
    outcome.Some? && outcome.value.StoreFails? ==> !outcome.value.ok(0)
  }

  lemma {:induction false} NothingSavedIff(found: seq<UTXO>, outcomes: seq<Outcome>)
    ensures SavedBy(found, outcomes) == []
       <==> found == [] || forall i :: 0 <= i < |outcomes| ==> FirstWriteFails(outcomes[i])
    decreases |outcomes|
  {
    if outcomes != [] {
      NothingSavedIff(found, outcomes[1..]);
      assert SavedIn(found, outcomes[0]) == [] <==> found == [] || FirstWriteFails(outcomes[0]);
      assert forall i :: 0 <= i < |outcomes| ==> outcomes[i] == if i == 0 then outcomes[0] else outcomes[1..][i - 1];
    }
  }

  /** Exactly-once survives failed writes in exactly two cases: the block pays the wallet nothing, or each
      attempt that failed in the store failed at its very first write. */
  lemma OnceIffFirstWritesFailed(env: Env, w: Wallet, chain: seq<Block>, outcomes: seq<Outcome>, found: seq<UTXO>)
    requires 0 <= w.lastScanned + 1 < |chain| && WellFormed(env, chain[w.lastScanned + 1])
    requires found == OwnedIn(env, w.addresses, chain[w.lastScanned + 1], 0)
    requires forall i :: 0 <= i < |outcomes| ==> Fails(found, outcomes[i])
    ensures ScanRounds(env, w, chain, w.lastScanned + 1, outcomes + [None]).utxos == w.utxos + found
       <==> found == [] || forall i :: 0 <= i < |outcomes| ==> FirstWriteFails(outcomes[i])
  {
    FailedRoundsAddUp(env, w, chain, outcomes, found);
    NothingSavedIff(found, outcomes);
    NothingBetween(w.utxos, SavedBy(found, outcomes), found);
  }

  lemma NothingBetween(us: seq<UTXO>, saved: seq<UTXO>, found: seq<UTXO>)
    ensures us + saved + found == us + found <==> saved == []
  {
    if saved == [] {
      assert us + saved + found == us + found;
    } else {
      assert |us + saved + found| > |us + found|;
    }
  }

  /// Failed writes of a notified scan, which goes on

  /** Each UTXO takes two writes. Of the UTXOs, those whose write goes through if that of the first is the
      n-th: its own from an even n on, that of the balance from an odd one. */
  function Through(us: seq<UTXO>, ok: Writes, n: nat): seq<UTXO>
    decreases |us|
  {
    if us == [] then [] else One(us[0], ok(n)) + Through(us[1..], ok, n + 2)
  }

  function One(u: UTXO, through: bool): seq<UTXO> {
    if through then [u] else []
  }

  lemma {:induction false} ThroughConcat(us: seq<UTXO>, vs: seq<UTXO>, ok: Writes, n: nat, m: nat)
    requires m == n + 2 * |us|
    ensures Through(us + vs, ok, n) == Through(us, ok, n) + Through(vs, ok, m)
    decreases |us|
  {
    if us == [] {
      assert us + vs == vs;
    } else {
      ThroughConcat(us[1..], vs, ok, n + 2, m);
      ThroughFirst(us[0], us[1..] + vs, ok, n);
      ThroughFirst(us[0], us[1..], ok, n);
      assert us + vs == [us[0]] + (us[1..] + vs) && us == [us[0]] + us[1..];
    }
  }

  lemma ThroughFirst(u: UTXO, us: seq<UTXO>, ok: Writes, n: nat)
    ensures Through([u] + us, ok, n) == One(u, ok(n)) + Through(us, ok, n + 2)
  {
    assert ([u] + us)[1..] == us;
  }

  /** Some UTXOs were saved, and some were added to the balance. */
  ghost predicate Mixed(w: Wallet, w': Wallet, saved: seq<UTXO>, credited: seq<UTXO>) {
    && w'.utxos == w.utxos + saved
    && w'.balance == w.balance + Sum(credited)
    && w'.store.balance == (if credited == [] then w.store.balance else Int64ToBytes(w'.balance))
    && w'.addresses == w.addresses && w'.lastScanned == w.lastScanned && w'.store.lastScanned == w.store.lastScanned
  }

  lemma {:induction false} StoredConcat(bucket: map<string, UTXO>, us: seq<UTXO>, vs: seq<UTXO>)
    ensures Stored(bucket, us + vs) == Stored(Stored(bucket, us), vs)
    decreases |us|
  {
    if us == [] {
      assert us + vs == vs;
    } else {
      assert (us + vs)[1..] == us[1..] + vs;
      StoredConcat(bucket[Outpoint(us[0]) := us[0]], us[1..], vs);
    }
  }

  lemma MixedThen(w: Wallet, w1: Wallet, w2: Wallet, saved: seq<UTXO>, credited: seq<UTXO>, saved': seq<UTXO>,
                  credited': seq<UTXO>)
    requires Mixed(w, w1, saved, credited) && Mixed(w1, w2, saved', credited')
    ensures Mixed(w, w2, saved + saved', credited + credited')
  {
    SumConcat(credited, credited');
    JoinedAgain(w.utxos, saved, saved');
    if credited' == [] { JoinedAgain(credited, [], []); }
  }

  lemma JoinedAgain(us: seq<UTXO>, vs: seq<UTXO>, more: seq<UTXO>)
    ensures us + vs + more == us + (vs + more)
    ensures us + [] == us
  {
  }

  lemma MaybeSaved(w: Wallet, u: UTXO, saved: bool)
    ensures Mixed(w, if saved then WithUTXO(w, u) else w, One(u, saved), [])
  {
    assert w.utxos + [] == w.utxos;
  }

  lemma MaybeCredited(w: Wallet, u: UTXO, credited: bool)
    ensures Mixed(w, if credited then WithBalance(w, w.balance + u.value) else w, [], One(u, credited))
  {
    SumPush([], u);
    assert [] + [u] == [u] && w.utxos + [] == w.utxos;
  }

  lemma NotifiedOutputWrites(env: Env, s: Scan, txid: string, k: nat, out: TxOut, ok: Writes)
    requires s.running && Owned(env, s.w.addresses, out)
    ensures var u := Received(env, s.w.addresses, txid, k, out);
      var s1 := NotifiedOutput(env, s, txid, k, out, ok);
      && s1.running && s1.writes == s.writes + 2
      && Mixed(s.w, s1.w, One(u, ok(s.writes)), One(u, ok(s.writes + 1)))
  {
    var u := Received(env, s.w.addresses, txid, k, out);
    var saved, credited := ok(s.writes), ok(s.writes + 1);
    var w1 := if saved then WithUTXO(s.w, u) else s.w;
    var w2 := if credited then WithBalance(w1, w1.balance + u.value) else w1;
    MaybeSaved(s.w, u, saved);
    MaybeCredited(w1, u, credited);
    MixedThen(s.w, w1, w2, One(u, saved), [], [], One(u, credited));
    assert One(u, saved) + [] == One(u, saved) && [] + One(u, credited) == One(u, credited);
  }

  /** A notified scan that went on over these outputs. */
  ghost predicate WroteThrough(s: Scan, r: Scan, us: seq<UTXO>, ok: Writes) {
    && r.running && r.writes == s.writes + 2 * |us|
    && Mixed(s.w, r.w, Through(us, ok, s.writes), Through(us, ok, s.writes + 1))
  }

  lemma NothingToWrite(s: Scan, ok: Writes)
    requires s.running
    ensures WroteThrough(s, s, [], ok)
  {
    assert s.w.utxos + [] == s.w.utxos;
  }

  /** Two stretches of writes, and what the names of the UTXOs they let through are. */
  lemma WritesJoin(s: Scan, s1: Scan, r: Scan, us: seq<UTXO>, ok: Writes, saved: seq<UTXO>, credited: seq<UTXO>,
                   saved': seq<UTXO>, credited': seq<UTXO>)
    requires Mixed(s.w, s1.w, saved, credited) && Mixed(s1.w, r.w, saved', credited')
    requires r.running && r.writes == s.writes + 2 * |us|
    requires Through(us, ok, s.writes) == saved + saved' && Through(us, ok, s.writes + 1) == credited + credited'
    ensures WroteThrough(s, r, us, ok)
  {
    MixedThen(s.w, s1.w, r.w, saved, credited, saved', credited');
  }

  lemma FirstWrites(s: Scan, s1: Scan, r: Scan, u: UTXO, later: seq<UTXO>, ok: Writes)
    requires s1.writes == s.writes + 2 && Mixed(s.w, s1.w, One(u, ok(s.writes)), One(u, ok(s.writes + 1)))
    requires WroteThrough(s1, r, later, ok)
    ensures WroteThrough(s, r, [u] + later, ok)
  {
    ThroughFirst(u, later, ok, s.writes);
    ThroughFirst(u, later, ok, s.writes + 1);
    WritesJoin(s, s1, r, [u] + later, ok, One(u, ok(s.writes)), One(u, ok(s.writes + 1)),
               Through(later, ok, s1.writes), Through(later, ok, s1.writes + 1));
  }

  lemma WritesThen(s: Scan, s1: Scan, r: Scan, here: seq<UTXO>, later: seq<UTXO>, ok: Writes)
    requires WroteThrough(s, s1, here, ok) && WroteThrough(s1, r, later, ok)
    ensures WroteThrough(s, r, here + later, ok)
  {
    BothConcat(here, later, ok, s.writes, s1.writes);
    WritesJoin(s, s1, r, here + later, ok, Through(here, ok, s.writes), Through(here, ok, s.writes + 1),
               Through(later, ok, s1.writes), Through(later, ok, s1.writes + 1));
  }

  lemma BothConcat(here: seq<UTXO>, later: seq<UTXO>, ok: Writes, n: nat, m: nat)
    requires m == n + 2 * |here|
    ensures Through(here + later, ok, n) == Through(here, ok, n) + Through(later, ok, m)
    ensures Through(here + later, ok, n + 1) == Through(here, ok, n + 1) + Through(later, ok, m + 1)
    ensures n + 2 * |here + later| == m + 2 * |later|
  {
    ThroughConcat(here, later, ok, n, m);
    ThroughConcat(here, later, ok, n + 1, m + 1);
  }

  lemma {:induction false} NotifiedOutputsWrite(env: Env, s: Scan, tx: BlockTx, k: nat, ok: Writes, r: Scan)
    requires s.running && AllPay(env, tx) && WitnessOnly(env, s.w.addresses) && k <= |tx.outs|
    requires r == NotifiedOutputs(env, s, tx, k, ok)
    ensures WroteThrough(s, r, OwnedOutputs(env, s.w.addresses, tx, k), ok)
    decreases |tx.outs| - k
  {
    if k == |tx.outs| {
      NothingToWrite(s, ok);
    } else {
      var out := tx.outs[k];
      var s1 := NotifiedOutput(env, s, tx.txid, k, out, ok);
      if Owned(env, s.w.addresses, out) {
        NotifiedOutputWrites(env, s, tx.txid, k, out, ok);
        NotifiedOutputsWrite(env, s1, tx, k + 1, ok, r);
        FirstWrites(s, s1, r, Received(env, s.w.addresses, tx.txid, k, out),
                    OwnedOutputs(env, s.w.addresses, tx, k + 1), ok);
      } else {
        assert env.info(out.script).address !in s.w.addresses;
        NotifiedOutputsWrite(env, s1, tx, k + 1, ok, r);
      }
    }
  }

  lemma {:induction false} NotifiedTxsWrite(env: Env, s: Scan, txs: Block, i: nat, ok: Writes, r: Scan)
    requires s.running && WitnessOnly(env, s.w.addresses) && i <= |txs|
    requires forall j :: 0 <= j < |txs| ==> AllPay(env, txs[j])
    requires r == NotifiedTxs(env, s, txs, i, ok)
    ensures WroteThrough(s, r, OwnedIn(env, s.w.addresses, txs, i), ok)
    decreases |txs| - i
  {
    if i == |txs| {
      NothingToWrite(s, ok);
    } else {
      var s1 := NotifiedOutputs(env, s, txs[i], 0, ok);
      NotifiedOutputsWrite(env, s, txs[i], 0, ok, s1);
      NotifiedTxsWrite(env, s1, txs, i + 1, ok, r);
      WritesThen(s, s1, r, OwnedOutputs(env, s.w.addresses, txs[i], 0),
                 OwnedIn(env, s.w.addresses, txs, i + 1), ok);
    }
  }

  /// ... and of the bucket

  lemma NotifiedOutputStores(env: Env, s: Scan, txid: string, k: nat, out: TxOut, ok: Writes)
    requires s.running && Owned(env, s.w.addresses, out)
    ensures var s1 := NotifiedOutput(env, s, txid, k, out, ok);
      && s1.running && s1.writes == s.writes + 2 && s1.w.addresses == s.w.addresses
      && s1.w.store.utxos == Stored(s.w.store.utxos, One(Received(env, s.w.addresses, txid, k, out), ok(s.writes)))
  {
    assert [Received(env, s.w.addresses, txid, k, out)][1..] == [];
  }

  lemma NotOwnedIsPassedBy(env: Env, s: Scan, txid: string, k: nat, out: TxOut, ok: Writes)
    requires env.info(out.script).Pays? && WitnessOnly(env, s.w.addresses) && !Owned(env, s.w.addresses, out)
    ensures NotifiedOutput(env, s, txid, k, out, ok) == s
  {
  }

  lemma StoresFirst(bucket: map<string, UTXO>, u: UTXO, later: seq<UTXO>, ok: Writes, n: nat)
    ensures Stored(bucket, Through([u] + later, ok, n))
         == Stored(Stored(bucket, One(u, ok(n))), Through(later, ok, n + 2))
  {
    ThroughFirst(u, later, ok, n);
    StoredConcat(bucket, One(u, ok(n)), Through(later, ok, n + 2));
  }

  lemma {:induction false} NotifiedOutputsStore(env: Env, s: Scan, tx: BlockTx, k: nat, ok: Writes, r: Scan)
    requires s.running && AllPay(env, tx) && WitnessOnly(env, s.w.addresses) && k <= |tx.outs|
    requires r == NotifiedOutputs(env, s, tx, k, ok)
    ensures r.w.store.utxos == Stored(s.w.store.utxos, Through(OwnedOutputs(env, s.w.addresses, tx, k), ok, s.writes))
    decreases |tx.outs| - k
  {
    if k < |tx.outs| {
      var out := tx.outs[k];
      if Owned(env, s.w.addresses, out) {
        var s1 := NotifiedOutput(env, s, tx.txid, k, out, ok);
        NotifiedOutputStores(env, s, tx.txid, k, out, ok);
        NotifiedOutputsStore(env, s1, tx, k + 1, ok, r);
        StoresFirst(s.w.store.utxos, Received(env, s.w.addresses, tx.txid, k, out),
                    OwnedOutputs(env, s.w.addresses, tx, k + 1), ok, s.writes);
      } else {
        NotOwnedIsPassedBy(env, s, tx.txid, k, out, ok);
        NotifiedOutputsStore(env, s, tx, k + 1, ok, r);
      }
    }
  }

  lemma {:induction false} NotifiedTxsStore(env: Env, s: Scan, txs: Block, i: nat, ok: Writes)
    requires s.running && WitnessOnly(env, s.w.addresses) && i <= |txs|
    requires forall j :: 0 <= j < |txs| ==> AllPay(env, txs[j])
    ensures NotifiedTxs(env, s, txs, i, ok).w.store.utxos
         == Stored(s.w.store.utxos, Through(OwnedIn(env, s.w.addresses, txs, i), ok, s.writes))
    decreases |txs| - i
  {
    if i < |txs| {
      var s1 := NotifiedOutputs(env, s, txs[i], 0, ok);
      var here := OwnedOutputs(env, s.w.addresses, txs[i], 0);
      var later := OwnedIn(env, s.w.addresses, txs, i + 1);
      NotifiedOutputsWrite(env, s, txs[i], 0, ok, s1);
      NotifiedOutputsStore(env, s, txs[i], 0, ok, s1);
      NotifiedTxsStore(env, s1, txs, i + 1, ok);
      ThroughConcat(here, later, ok, s.writes, s1.writes);
      StoredConcat(s.w.store.utxos, Through(here, ok, s.writes), Through(later, ok, s1.writes));
    }
  }

  /** A notified scan takes no notice of failed writes: of the outputs found exactly those are listed whose
      own save went through and exactly those are in the balance whose balance write did, and the height
      moves on if its write does. What a failure kept out is not scanned again. */
  lemma NotifiedScanGoesOn(env: Env, w: Wallet, txs: Block, ok: Writes)
    requires WitnessOnly(env, w.addresses) && forall j :: 0 <= j < |txs| ==> AllPay(env, txs[j])
    ensures var found := OwnedIn(env, w.addresses, txs, 0);
      var saved, credited := Through(found, ok, 0), Through(found, ok, 1);
      var w1 := ScanBlockTxs(env, w, txs, ok).w;
      && w1.utxos == w.utxos + saved && w1.store.utxos == Stored(w.store.utxos, saved)
      && w1.balance == w.balance + Sum(credited)
      && w1.store.balance == (if credited == [] then w.store.balance else Int64ToBytes(w1.balance))
      && w1.lastScanned == (if ok(2 * |found|) then w.lastScanned + 1 else w.lastScanned)
  {
    NotifiedTxsWrite(env, Scan(w, 0, true), txs, 0, ok, NotifiedTxs(env, Scan(w, 0, true), txs, 0, ok));
    NotifiedTxsStore(env, Scan(w, 0, true), txs, 0, ok);
  }
}
