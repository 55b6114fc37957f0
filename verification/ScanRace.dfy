/** Blocks scanned by goroutines of their own, one a block (wallet/nodeclient.go), step by step in any
    order: what the balance and the height come to. */
module ScanRace {
  import opened Text
  import opened StoreCodec
  import opened Coins
  import opened Settlement
  import opened SharedCell

  /** What a scan does next: save an output, list it, read the balance, put the sum into the store, keep
      it in memory; after the last output, the same three steps for the height. */
  datatype Stage = ToSave | ToList | ToRead | ToPut(id: nat) | ToKeep(id: nat) | Over

  /** A scan of one block: the outputs that pay the wallet, and how many of them it has credited. */
  datatype Scanner = Scanner(found: seq<UTXO>, k: nat, next: Stage)

  datatype Race = Race(
    utxos: seq<UTXO>,
    stored: map<string, UTXO>,
    balance: Cell,
    height: Cell,
    scanners: seq<Scanner>)

  predicate Crediting(a: Scanner) {
    a.k < |a.found|
  }

  function CellOf(r: Race, a: Scanner): Cell {
    Sums(r, Crediting(a))
  }

  function Sums(r: Race, crediting: bool): Cell {
    if crediting then r.balance else r.height
  }

  function WithCell(r: Race, a: Scanner, c: Cell): Race {
    if Crediting(a) then r.(balance := c) else r.(height := c)
  }

  /** The step of the shared number that comes next, if it is the turn of one. */
  function NextOp(a: Scanner): Option<Op> {
    match a.next
    case ToRead => Some(Read(if Crediting(a) then a.found[a.k].value else 1))
    case ToPut(id) => Some(Put(id))
    case ToKeep(id) => Some(Keep(id))
    case _ => None
  }

  predicate Possible(r: Race, i: nat) {
    && i < |r.scanners| && r.scanners[i].next != Over
    && var a := r.scanners[i];
    match NextOp(a)
    case Some(op) => Can(CellOf(r, a), op)
    case None => Crediting(a)
  }

  function First(found: seq<UTXO>, k: nat): Stage {
    if k < |found| then ToSave else ToRead
  }

  /** The scan after its next step; `c` is the number it works on, before the step. */
  function Moved(a: Scanner, c: Cell): Scanner {
    match a.next
    case ToSave => a.(next := ToList)
    case ToList => a.(next := ToRead)
    case ToRead => a.(next := ToPut(|c.added|))
    case ToPut(id) => a.(next := ToKeep(id))
    case ToKeep(_) => if Crediting(a) then a.(k := a.k + 1, next := First(a.found, a.k + 1)) else a.(next := Over)
    case Over => a
  }

  function RaceStep(r: Race, i: nat): Race
    requires Possible(r, i)
  {
    var a := r.scanners[i];
    var r1 := r.(scanners := r.scanners[i := Moved(a, CellOf(r, a))]);
    match NextOp(a)
    case Some(op) => WithCell(r1, a, Apply(CellOf(r, a), op))
    case None =>
      var u := a.found[a.k];
      if a.next == ToSave then r1.(stored := r.stored[Outpoint(u) := u]) else r1.(utxos := r.utxos + [u])
  }

  function FollowRace(r: Race, schedule: seq<nat>): Option<Race>
    decreases |schedule|
  {
    if schedule == [] then Some(r)
    else if !Possible(r, schedule[0]) then None
    else FollowRace(RaceStep(r, schedule[0]), schedule[1..])
  }

  function Ready(founds: seq<seq<UTXO>>): (scanners: seq<Scanner>)
    ensures |scanners| == |founds|
  {
    seq(|founds|, i requires 0 <= i < |founds| => Scanner(founds[i], 0, First(founds[i], 0)))
  }

  function Begun(base: Books, height: int, founds: seq<seq<UTXO>>): Race {
    Race(base.utxos, base.storedUTXOs, Fresh(base.balance), Fresh(height), Ready(founds))
  }

  predicate AllOver(r: Race) {
    forall i :: 0 <= i < |r.scanners| ==> r.scanners[i].next == Over
  }

  function BooksNow(r: Race): Books {
    Books(r.utxos, r.balance.mem, r.stored, Int64ToBytes(r.balance.put))
  }

  /// Who holds what

  predicate Holds(a: Scanner, id: nat) {
    a.next == ToPut(id) || a.next == ToKeep(id)
  }

  /** Scan i is where its next step is possible. */
  ghost predicate Placed(r: Race, i: nat)
    requires i < |r.scanners|
  {
    var a := r.scanners[i];
    && a.k <= |a.found|
    && (a.next == ToSave || a.next == ToList ==> Crediting(a))
    && (a.next == Over ==> !Crediting(a))
    && (forall id :: Holds(a, id) ==> id in CellOf(r, a).hands && CellOf(r, a).hands[id].put == a.next.ToKeep?)
  }

  /** A sum of one of the two numbers, read by scan i. */
  ghost predicate HeldBy(r: Race, crediting: bool, id: nat, i: nat) {
    i < |r.scanners| && Holds(r.scanners[i], id) && Crediting(r.scanners[i]) == crediting
  }

  ghost predicate AllHeld(r: Race) {
    && (forall crediting, id: nat :: id in Sums(r, crediting).hands ==> exists i: nat :: HeldBy(r, crediting, id, i))
    && (forall crediting, id: nat, i: nat, j: nat ::
          HeldBy(r, crediting, id, i) && HeldBy(r, crediting, id, j) ==> i == j)
  }

  ghost predicate AllPlaced(r: Race) {
    forall i :: 0 <= i < |r.scanners| ==> Placed(r, i)
  }

  /** No scan ever waits for another: until it is over, its next step is possible. */
  lemma NothingWaits(r: Race, i: nat)
    requires i < |r.scanners| && Placed(r, i)
    ensures Possible(r, i) <==> r.scanners[i].next != Over
  {
    var a := r.scanners[i];
    if a.next.ToPut? || a.next.ToKeep? { assert Holds(a, a.next.id); }
  }

  ghost predicate Orderly(r: Race) {
    AllPlaced(r) && AllHeld(r) && Numbered(r.balance) && Numbered(r.height)
  }

  /** What the step of scan i does to the two numbers, and to nothing else of the scans. */
  lemma StepShape(r: Race, i: nat)
    requires Possible(r, i)
    ensures var a, r1 := r.scanners[i], RaceStep(r, i);
      && r1.scanners == r.scanners[i := Moved(a, CellOf(r, a))]
      && r1.balance == (if NextOp(a).Some? && Crediting(a) then Apply(r.balance, NextOp(a).value) else r.balance)
      && r1.height == (if NextOp(a).Some? && !Crediting(a) then Apply(r.height, NextOp(a).value) else r.height)
  {
  }

  lemma MoverIsPlaced(r: Race, i: nat)
    requires Orderly(r) && Possible(r, i)
    ensures Placed(RaceStep(r, i), i)
  {
    var a, r1 := r.scanners[i], RaceStep(r, i);
    var b := r1.scanners[i];
    StepShape(r, i);
    assert Placed(r, i);
    assert b == Moved(a, CellOf(r, a));
    forall id | Holds(b, id) ensures id in CellOf(r1, b).hands && CellOf(r1, b).hands[id].put == b.next.ToKeep? {
      assert CellOf(r1, b) == Apply(CellOf(r, a), NextOp(a).value);
    }
  }

  lemma OtherIsPlaced(r: Race, i: nat, j: nat)
    requires Orderly(r) && Possible(r, i) && j < |r.scanners| && j != i
    ensures Placed(RaceStep(r, i), j)
  {
    var a, b, r1 := r.scanners[i], r.scanners[j], RaceStep(r, i);
    StepShape(r, i);
    assert Placed(r, j);
    if (b.next.ToPut? || b.next.ToKeep?) && NextOp(a).Some? && Crediting(a) == Crediting(b) {
      var id := b.next.id;
      assert Holds(b, id) && HeldBy(r, Crediting(b), id, j);
      if Holds(a, id) { assert HeldBy(r, Crediting(a), id, i); }
      OtherHandStays(CellOf(r, b), NextOp(a).value, id);
    }
  }

  lemma StepKeepsPlaced(r: Race, i: nat)
    requires Orderly(r) && Possible(r, i)
    ensures AllPlaced(RaceStep(r, i))
  {
    forall j | 0 <= j < |RaceStep(r, i).scanners| ensures Placed(RaceStep(r, i), j) {
      StepShape(r, i);
      if j == i { MoverIsPlaced(r, i); } else { OtherIsPlaced(r, i, j); }
    }
  }

  /** Each sum keeps its holder, and a new one has one. */
  lemma StepKeepsHolder(r: Race, i: nat, crediting: bool, id: nat)
    requires Orderly(r) && Possible(r, i) && id in Sums(RaceStep(r, i), crediting).hands
    ensures exists j: nat :: HeldBy(RaceStep(r, i), crediting, id, j)
  {
    var r1 := RaceStep(r, i);
    StepShape(r, i);
    if id in Sums(r, crediting).hands {
      var j: nat :| HeldBy(r, crediting, id, j);
      assert HeldBy(r1, crediting, id, j);
    } else {
      assert HeldBy(r1, crediting, id, i);
    }
  }

  lemma MoverHolds(r: Race, i: nat, crediting: bool, id: nat)
    requires Orderly(r) && Possible(r, i) && HeldBy(RaceStep(r, i), crediting, id, i)
    ensures HeldBy(r, crediting, id, i) || id !in Sums(r, crediting).hands
  {
    var a := r.scanners[i];
    StepShape(r, i);
    if a.next.ToRead? { ReadKeepsNumbered(CellOf(r, a), NextOp(a).value.add); }
  }

  lemma OtherHolds(r: Race, i: nat, crediting: bool, id: nat, j: nat)
    requires Orderly(r) && Possible(r, i) && j != i && HeldBy(RaceStep(r, i), crediting, id, j)
    ensures HeldBy(r, crediting, id, j) && id in Sums(r, crediting).hands
  {
    StepShape(r, i);
    assert Placed(r, j) && Holds(r.scanners[j], id);
  }

  lemma StepKeepsSingle(r: Race, i: nat, crediting: bool, id: nat, j: nat, k: nat)
    requires Orderly(r) && Possible(r, i)
    requires HeldBy(RaceStep(r, i), crediting, id, j) && HeldBy(RaceStep(r, i), crediting, id, k)
    ensures j == k
  {
    if j == i { MoverHolds(r, i, crediting, id); } else { OtherHolds(r, i, crediting, id, j); }
    if k == i { MoverHolds(r, i, crediting, id); } else { OtherHolds(r, i, crediting, id, k); }
  }

  lemma StepKeepsOrderly(r: Race, i: nat)
    requires Orderly(r) && Possible(r, i)
    ensures AllPlaced(RaceStep(r, i)) && AllHeld(RaceStep(r, i))
  {
    StepKeepsPlaced(r, i);
    forall crediting, id | id in Sums(RaceStep(r, i), crediting).hands
      ensures exists j: nat :: HeldBy(RaceStep(r, i), crediting, id, j)
    {
      StepKeepsHolder(r, i, crediting, id);
    }
    forall crediting, id, j, k
      | HeldBy(RaceStep(r, i), crediting, id, j) && HeldBy(RaceStep(r, i), crediting, id, k)
      ensures j == k
    {
      StepKeepsSingle(r, i, crediting, id, j, k);
    }
  }

  /// What it adds up to

  /** The value listed whose addition to the balance has not been read for. */
  function Unread(a: Scanner): int {
    if a.next == ToRead && Crediting(a) then a.found[a.k].value else 0
  }

  /** One for a scan that has come to the height. */
  function AtHeight(a: Scanner): int {
    if !Crediting(a) && a.next != ToRead then 1 else 0
  }

  ghost predicate AllOnes(added: seq<int>) {
    forall i :: 0 <= i < |added| ==> added[i] == 1
  }

  lemma {:induction false} TotalOfOnes(added: seq<int>)
    requires AllOnes(added)
    ensures Total(added) == |added|
  {
    if added != [] {
      var n := |added| - 1;
      TotalOfOnes(added[..n]);
      TotalPush(added[..n], added[n]);
      assert added == added[..n] + [added[n]];
    }
  }

  ghost predicate ListAdds(base: Books, r: Race) {
    var n := |base.utxos|;
    && n <= |r.utxos| && r.utxos[..n] == base.utxos
    && SumUnspent(r.utxos[n..]) == Total(r.balance.added) + SumOver(r.scanners, Unread)
  }

  ghost predicate HeightAdds(r: Race) {
    AllOnes(r.height.added) && |r.height.added| == SumOver(r.scanners, AtHeight)
  }

  ghost predicate AllUnspent(r: Race) {
    forall i, j :: 0 <= i < |r.scanners| && 0 <= j < |r.scanners[i].found| ==> !r.scanners[i].found[j].spent
  }

  /** What a step lists, and what it reads for: the one is due until the other. */
  lemma UnreadMoves(r: Race, i: nat)
    requires Possible(r, i) && Placed(r, i)
    ensures var a := r.scanners[i];
      SumOver(RaceStep(r, i).scanners, Unread) == SumOver(r.scanners, Unread)
        + (if a.next == ToList then a.found[a.k].value else 0)
        - (if a.next == ToRead && Crediting(a) then a.found[a.k].value else 0)
  {
    var a := r.scanners[i];
    StepShape(r, i);
    SumOverUpdate(r.scanners, Unread, i, Moved(a, CellOf(r, a)));
  }

  lemma BalanceMoves(r: Race, i: nat)
    requires Possible(r, i)
    ensures var a := r.scanners[i];
      Total(RaceStep(r, i).balance.added) == Total(r.balance.added)
        + if a.next == ToRead && Crediting(a) then a.found[a.k].value else 0
  {
    var a := r.scanners[i];
    StepShape(r, i);
    if a.next == ToRead && Crediting(a) { TotalPush(r.balance.added, a.found[a.k].value); }
  }

  lemma UTXOsMove(r: Race, i: nat, n: nat)
    requires Possible(r, i) && Placed(r, i) && n <= |r.utxos|
    requires r.scanners[i].next == ToList ==> !r.scanners[i].found[r.scanners[i].k].spent
    ensures var a, r1 := r.scanners[i], RaceStep(r, i);
      && n <= |r1.utxos| && r1.utxos[..n] == r.utxos[..n]
      && SumUnspent(r1.utxos[n..]) == SumUnspent(r.utxos[n..]) + if a.next == ToList then a.found[a.k].value else 0
  {
    var a := r.scanners[i];
    if a.next == ToList {
      var u := a.found[a.k];
      assert (r.utxos + [u])[n..] == r.utxos[n..] + [u];
      SumPush(r.utxos[n..], u);
    }
  }

  lemma StepKeepsList(base: Books, r: Race, i: nat)
    requires Orderly(r) && AllUnspent(r) && ListAdds(base, r) && Possible(r, i)
    ensures ListAdds(base, RaceStep(r, i))
  {
    assert Placed(r, i);
    UnreadMoves(r, i);
    BalanceMoves(r, i);
    UTXOsMove(r, i, |base.utxos|);
  }

  lemma StepKeepsHeight(r: Race, i: nat)
    requires Orderly(r) && HeightAdds(r) && Possible(r, i)
    ensures HeightAdds(RaceStep(r, i))
  {
    var a := r.scanners[i];
    StepShape(r, i);
    assert Placed(r, i);
    SumOverUpdate(r.scanners, AtHeight, i, Moved(a, CellOf(r, a)));
  }

  lemma StepKeepsTracked(r: Race, i: nat, balance: int, height: int)
    requires Tracked(balance, r.balance) && Tracked(height, r.height) && Possible(r, i)
    ensures Tracked(balance, RaceStep(r, i).balance) && Tracked(height, RaceStep(r, i).height)
  {
    var a := r.scanners[i];
    StepShape(r, i);
    if NextOp(a).Some? {
      ApplyKeepsTracked(if Crediting(a) then balance else height, CellOf(r, a), NextOp(a).value);
    }
  }

  lemma StepKeepsUnspent(r: Race, i: nat)
    requires AllUnspent(r) && Possible(r, i)
    ensures AllUnspent(RaceStep(r, i))
  {
    StepShape(r, i);
  }

  ghost predicate Sane(base: Books, height: int, r: Race) {
    && Orderly(r) && AllUnspent(r) && ListAdds(base, r) && HeightAdds(r)
    && Tracked(base.balance, r.balance) && Tracked(height, r.height)
  }

  lemma StepKeepsSane(base: Books, height: int, r: Race, i: nat)
    requires Sane(base, height, r) && Possible(r, i)
    ensures Sane(base, height, RaceStep(r, i))
  {
    StepKeepsOrderly(r, i);
    StepKeepsUnspent(r, i);
    StepKeepsList(base, r, i);
    StepKeepsHeight(r, i);
    StepKeepsTracked(r, i, base.balance, height);
  }

  lemma {:induction false} RaceKeepsSane(base: Books, height: int, r: Race, schedule: seq<nat>)
    requires Sane(base, height, r)
    ensures var r1 := FollowRace(r, schedule);
      r1.Some? ==> Sane(base, height, r1.value) && |r1.value.scanners| == |r.scanners|
    decreases |schedule|
  {
    if schedule != [] && Possible(r, schedule[0]) {
      StepKeepsSane(base, height, r, schedule[0]);
      StepShape(r, schedule[0]);
      RaceKeepsSane(base, height, RaceStep(r, schedule[0]), schedule[1..]);
    }
  }

  lemma BegunIsSane(base: Books, height: int, founds: seq<seq<UTXO>>)
    requires forall i, j :: 0 <= i < |founds| && 0 <= j < |founds[i]| ==> !founds[i][j].spent
    ensures Sane(base, height, Begun(base, height, founds))
  {
    var r := Begun(base, height, founds);
    assert base.utxos[..|base.utxos|] == base.utxos && base.utxos[|base.utxos|..] == [];
    SumOverConstant(r.scanners, Unread, 0);
    SumOverConstant(r.scanners, AtHeight, 0);
    assert forall i :: 0 <= i < |r.scanners| ==> Placed(r, i);
  }

  ghost predicate PositiveOutputs(r: Race) {
    forall i, j :: 0 <= i < |r.scanners| && 0 <= j < |r.scanners[i].found| ==> r.scanners[i].found[j].value > 0
  }

  lemma {:induction false} RaceKeepsPositive(r: Race, schedule: seq<nat>)
    requires PositiveOutputs(r) && AllPositive(r.balance.added)
    ensures var r1 := FollowRace(r, schedule); r1.Some? ==> AllPositive(r1.value.balance.added)
    decreases |schedule|
  {
    if schedule != [] && Possible(r, schedule[0]) {
      StepShape(r, schedule[0]);
      RaceKeepsPositive(RaceStep(r, schedule[0]), schedule[1..]);
    }
  }

  lemma HeldByOneRunning(r: Race, crediting: bool, id: nat)
    requires AllHeld(r) && id in Sums(r, crediting).hands
    ensures !AllOver(r)
  {
    var i: nat :| HeldBy(r, crediting, id, i);
    assert r.scanners[i].next != Over;
  }

  /** Once every scan is over, no sum is left in anyone's hands. */
  lemma NothingHeld(r: Race, crediting: bool)
    requires Orderly(r) && AllOver(r)
    ensures Sums(r, crediting).hands == map[]
  {
    forall id: nat ensures id !in Sums(r, crediting).hands {
      if id in Sums(r, crediting).hands { HeldByOneRunning(r, crediting, id); }
    }
  }

  lemma OverAddsUp(base: Books, height: int, r: Race)
    requires Sane(base, height, r) && AllOver(r)
    ensures Drift(BooksNow(r)) == Drift(base) - Lost(r.balance)
    ensures r.height.mem == height + |r.scanners| - Lost(r.height)
    ensures !r.balance.crossed ==> Lost(r.balance) == 0 && BooksNow(r).storedBalance == Int64ToBytes(r.balance.mem)
    ensures r.height.mem == height + |r.scanners| <==> !r.height.crossed
  {
    var n := |base.utxos|;
    forall i | 0 <= i < |r.scanners| ensures Unread(r.scanners[i]) == 0 && AtHeight(r.scanners[i]) == 1 {
      assert Placed(r, i);
    }
    SumOverConstant(r.scanners, Unread, 0);
    SumOverConstant(r.scanners, AtHeight, 1);
    NothingHeld(r, true);
    NothingHeld(r, false);
    RightIffNothingCrossed(base.balance, r.balance);
    RightIffNothingCrossed(height, r.height);
    TotalOfOnes(r.height.added);
    assert r.utxos == r.utxos[..n] + r.utxos[n..];
    SumUnspentConcat(r.utxos[..n], r.utxos[n..]);
  }

  /** However many blocks are scanned at once and however their steps interleave: every output is listed,
      the balance is short of exactly the sums that were overwritten, and the height of one for each scan
      whose height was. The balance is right exactly if no sum was kept while another was read and not
      kept yet, and then the store has it too; the height likewise. */
  lemma RaceCosts(base: Books, height: int, founds: seq<seq<UTXO>>, schedule: seq<nat>)
    requires forall i, j :: 0 <= i < |founds| && 0 <= j < |founds[i]| ==> !founds[i][j].spent && founds[i][j].value > 0
    requires FollowRace(Begun(base, height, founds), schedule).Some?
    ensures var r := FollowRace(Begun(base, height, founds), schedule).value;
      AllOver(r) ==>
        && Drift(BooksNow(r)) == Drift(base) - Lost(r.balance) && Lost(r.balance) >= 0
        && r.height.mem == height + |founds| - Lost(r.height)
        && (Drift(BooksNow(r)) == Drift(base) <==> !r.balance.crossed)
        && (!r.balance.crossed ==> BooksNow(r).storedBalance == Int64ToBytes(BooksNow(r).balance))
        && (r.height.mem == height + |founds| <==> !r.height.crossed)
  {
    var start := Begun(base, height, founds);
    BegunIsSane(base, height, founds);
    RaceKeepsSane(base, height, start, schedule);
    RaceKeepsPositive(start, schedule);
    var r := FollowRace(start, schedule).value;
    if AllOver(r) {
      OverAddsUp(base, height, r);
      NothingHeld(r, true);
      RightIffNothingCrossed(base.balance, r.balance);
    }
  }
}
