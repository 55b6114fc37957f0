/** A goroutine scanning a block with no other beside it, step by step, is the block scan of the ledger
    (wallet/scan.go). */
module ScanAlone {
  import opened Text
  import opened StoreCodec
  import opened Coins
  import opened Node
  import opened Ledger
  import opened Scanning
  import opened SharedCell
  import StoreFailures
  import Settlement
  import opened ScanRace

  /** The schedule that gives the only scan n turns. */
  function Turns(n: nat): seq<nat> {
    if n == 0 then [] else [0] + Turns(n - 1)
  }

  lemma Turn(r: Race, n: nat)
    requires n > 0 && ScanRace.Possible(r, 0)
    ensures FollowRace(r, Turns(n)) == FollowRace(RaceStep(r, 0), Turns(n - 1))
  {
    assert Turns(n)[1..] == Turns(n - 1);
  }

  /** Nobody holds a sum, and the store is up to date. */
  predicate Settled(c: Cell, value: int) {
    c.hands == map[] && c.mem == value && c.put == value
  }

  /** The only scan has credited its first k outputs. */
  predicate CreditedFirst(base: Settlement.Books, height: int, found: seq<UTXO>, k: nat, r: Race) {
    && k <= |found|
    && r.scanners == [Scanner(found, k, First(found, k))]
    && r.utxos == base.utxos + found[..k]
    && r.stored == Stored(base.storedUTXOs, found[..k])
    && Settled(r.balance, base.balance + Sum(found[..k]))
    && Settled(r.height, height)
  }

  /** Reading, putting and keeping, with nobody else about. */
  lemma ThreeOps(c: Cell, value: int, add: int)
    requires Settled(c, value)
    ensures var c1 := Apply(c, Read(add));
      && Can(c1, Put(|c.added|))
      && Can(Apply(c1, Put(|c.added|)), Keep(|c.added|))
      && Settled(Apply(Apply(c1, Put(|c.added|)), Keep(|c.added|)), value + add)
  {
  }

  /** The scan in a given stage, everything else being as told. */
  function In(r: Race, found: seq<UTXO>, k: nat, next: Stage): Race {
    r.(scanners := [Scanner(found, k, next)])
  }

  lemma StepIn(r: Race, found: seq<UTXO>, k: nat, next: Stage)
    requires k <= |found| && ScanRace.Possible(In(r, found, k, next), 0)
    ensures var a := Scanner(found, k, next);
      var s := Moved(a, CellOf(r, a));
      RaceStep(In(r, found, k, next), 0) == match NextOp(a)
        case Some(op) => In(WithCell(r, a, Apply(CellOf(r, a), op)), found, s.k, s.next)
        case None =>
          if next == ToSave then In(r.(stored := r.stored[Outpoint(found[k]) := found[k]]), found, k, ToList)
          else In(r.(utxos := r.utxos + [found[k]]), found, k, ToRead)
  {
  }

  /** From reading to keeping, three turns. */
  lemma NumberTurns(r: Race, found: seq<UTXO>, k: nat, value: int, n: nat) returns (r': Race)
    requires k <= |found| && n >= 3
    requires Settled(Sums(r, k < |found|), value)
    ensures var add := if k < |found| then found[k].value else 1;
      var c := Sums(r', k < |found|);
      && Settled(c, value + add)
      && r' == In(WithCell(r, Scanner(found, k, ToRead), c), found, if k < |found| then k + 1 else k,
                  if k < |found| then First(found, k + 1) else Over)
      && FollowRace(In(r, found, k, ToRead), Turns(n)) == FollowRace(r', Turns(n - 3))
  {
    var a := Scanner(found, k, ToRead);
    var c := CellOf(r, a);
    var add := if k < |found| then found[k].value else 1;
    var id := |c.added|;
    ThreeOps(c, value, add);
    var c1 := Apply(c, Read(add));
    var c2 := Apply(c1, Put(id));
    var c3 := Apply(c2, Keep(id));
    var r1, r2, r3 := WithCell(r, a, c1), WithCell(r, a, c2), WithCell(r, a, c3);
    Turn(In(r, found, k, ToRead), n);
    StepIn(r, found, k, ToRead);
    Turn(In(r1, found, k, ToPut(id)), n - 1);
    StepIn(r1, found, k, ToPut(id));
    Turn(In(r2, found, k, ToKeep(id)), n - 2);
    StepIn(r2, found, k, ToKeep(id));
    r' := RaceStep(In(r2, found, k, ToKeep(id)), 0);
  }

  /** One output, five turns. */
  lemma CreditTurns(base: Settlement.Books, height: int, found: seq<UTXO>, k: nat, r: Race, n: nat) returns (r': Race)
    requires CreditedFirst(base, height, found, k, r) && k < |found| && n >= 5
    ensures CreditedFirst(base, height, found, k + 1, r')
    ensures FollowRace(r, Turns(n)) == FollowRace(r', Turns(n - 5))
  {
    var u := found[k];
    assert r == In(r, found, k, ToSave);
    Turn(r, n);
    StepIn(r, found, k, ToSave);
    var r1 := r.(stored := r.stored[Outpoint(u) := u]);
    Turn(In(r1, found, k, ToList), n - 1);
    StepIn(r1, found, k, ToList);
    var r2 := r1.(utxos := r1.utxos + [u]);
    r' := NumberTurns(r2, found, k, base.balance + Sum(found[..k]), n - 2);
    OneMore(base, found, k);
  }

  lemma OneMore(base: Settlement.Books, found: seq<UTXO>, k: nat)
    requires k < |found|
    ensures base.utxos + found[..k] + [found[k]] == base.utxos + found[..k + 1]
    ensures Stored(base.storedUTXOs, found[..k])[Outpoint(found[k]) := found[k]]
         == Stored(base.storedUTXOs, found[..k + 1])
    ensures Sum(found[..k + 1]) == Sum(found[..k]) + found[k].value
  {
    assert found[..k + 1] == found[..k] + [found[k]];
    SumPush(found[..k], found[k]);
    StoreFailures.StoredConcat(base.storedUTXOs, found[..k], [found[k]]);
    assert [found[k]][1..] == [];
  }

  /** The end of a scan that was never disturbed. */
  predicate ScannedAlone(base: Settlement.Books, height: int, found: seq<UTXO>, r: Race) {
    && AllOver(r)
    && r.utxos == base.utxos + found && r.stored == Stored(base.storedUTXOs, found)
    && Settled(r.balance, base.balance + Sum(found)) && Settled(r.height, height + 1)
  }

  lemma HeightTurns(base: Settlement.Books, height: int, found: seq<UTXO>, r: Race) returns (r': Race)
    requires CreditedFirst(base, height, found, |found|, r)
    ensures FollowRace(r, Turns(3)) == Some(r') && ScannedAlone(base, height, found, r')
  {
    assert found[..|found|] == found;
    assert r == In(r, found, |found|, ToRead);
    r' := NumberTurns(r, found, |found|, height, 3);
    assert Turns(0) == [];
  }

  lemma {:induction false} TurnsToTheEnd(base: Settlement.Books, height: int, found: seq<UTXO>, k: nat, r: Race,
                                         n: nat) returns (r': Race)
    requires CreditedFirst(base, height, found, k, r) && n == 5 * (|found| - k) + 3
    ensures FollowRace(r, Turns(n)) == Some(r')
    ensures ScannedAlone(base, height, found, r')
    decreases |found| - k
  {
    if k == |found| {
      r' := HeightTurns(base, height, found, r);
    } else {
      var r1 := CreditTurns(base, height, found, k, r, n);
      r' := TurnsToTheEnd(base, height, found, k + 1, r1, n - 5);
    }
  }

  lemma BegunIsFirst(base: Settlement.Books, height: int, found: seq<UTXO>)
    ensures CreditedFirst(base, height, found, 0, Begun(base, height, [found]))
  {
    assert found[..0] == [] && base.utxos + [] == base.utxos;
    assert Begun(base, height, [found]).scanners == [Scanner(found, 0, First(found, 0))];
  }

  lemma AloneEnds(base: Settlement.Books, height: int, found: seq<UTXO>, start: Race, n: nat, r: Option<Race>)
    requires CreditedFirst(base, height, found, 0, start) && n == 5 * |found| + 3
    requires r == FollowRace(start, Turns(n))
    ensures r.Some? && ScannedAlone(base, height, found, r.value)
  {
    var r' := TurnsToTheEnd(base, height, found, 0, start, n);
  }

  /** A wallet credited with some UTXOs, at a height. */
  predicate CreditedTo(w1: Wallet, w: Wallet, found: seq<UTXO>, height: int) {
    && w1.utxos == w.utxos + found && w1.store.utxos == Stored(w.store.utxos, found)
    && w1.balance == w.balance + Sum(found)
    && (found != [] ==> w1.store.balance == Int64ToBytes(w1.balance))
    && w1.lastScanned == height && w1.store.lastScanned == Int64ToBytes(height)
  }

  lemma ScanCredits(env: Env, w: Wallet, block: Block, ok: Writes, found: seq<UTXO>, w1: Wallet)
    requires AllSucceed(ok) && WellFormed(env, block)
    requires found == OwnedIn(env, w.addresses, block, 0) && w1 == ScanBlock(env, w, block, ok)
    ensures CreditedTo(w1, w, found, w.lastScanned + 1)
  {
    ScanBlockFinds(env, w, block, ok);
    CreditedAll(w, found);
  }

  /** List, bucket, balance and height are those of the wallet, in memory and in the store. */
  predicate EndsLike(r: Race, w1: Wallet, found: seq<UTXO>) {
    && AllOver(r)
    && r.utxos == w1.utxos && r.stored == w1.store.utxos
    && r.balance.mem == w1.balance && (found != [] ==> Int64ToBytes(r.balance.put) == w1.store.balance)
    && r.height.mem == w1.lastScanned && Int64ToBytes(r.height.put) == w1.store.lastScanned
  }

  lemma EndsMeet(w: Wallet, found: seq<UTXO>, r: Race, w1: Wallet)
    requires ScannedAlone(Settlement.BooksOf(w), w.lastScanned, found, r)
    requires CreditedTo(w1, w, found, w.lastScanned + 1)
    ensures EndsLike(r, w1, found)
  {
  }

  /** Left to itself, a goroutine scanning a block does in its five steps an output, and three for the
      height, just what scanBlock does to list, balance, bucket and height. */
  lemma AloneIsTheScan(env: Env, w: Wallet, block: Block, ok: Writes, found: seq<UTXO>, start: Race, n: nat,
                       r: Option<Race>, w1: Wallet)
    requires AllSucceed(ok) && WellFormed(env, block) && found == OwnedIn(env, w.addresses, block, 0)
    requires start == Begun(Settlement.BooksOf(w), w.lastScanned, [found]) && n == 5 * |found| + 3
    requires r == FollowRace(start, Turns(n)) && w1 == ScanBlock(env, w, block, ok)
    ensures r.Some? && EndsLike(r.value, w1, found)
  {
    BegunIsFirst(Settlement.BooksOf(w), w.lastScanned, found);
    AloneEnds(Settlement.BooksOf(w), w.lastScanned, found, start, n, r);
    ScanCredits(env, w, block, ok, found, w1);
    EndsMeet(w, found, r.value, w1);
  }
}
