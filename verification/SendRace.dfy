/** Sends launched while settlements of earlier ones are still under way: each computes its balance from
    the one it finds (wallet/tx.go:162), so a deduction can be overwritten. */
module SendRace {
  import opened Text
  import opened StoreCodec
  import opened Coins
  import opened Settlement
  import opened SharedCell

  /** A send under way with its change, and the number of its balance among those read for. */
  datatype Sending = Sending(p: Plan, change: UTXO, tasks: Tasks, id: nat)

  /** `sums` follows the balance: reading it is what launching does, the two steps of the balance task put
      and keep it. */
  datatype Sends = Sends(books: Books, sums: Cell, flights: seq<Sending>)

  datatype Move = Launch(p: Plan, change: UTXO) | Settle(i: nat, task: Task)

  /** Amount and fee. */
  function Paid(b: Books, p: Plan): int {
    b.balance - p.newBalance
  }

  /// Launching

  ghost predicate Disjoint(p: Plan, f: Sending) {
    forall j, k :: 0 <= j < |p.used| && 0 <= k < |f.p.used| ==> Outpoint(p.used[j]) != Outpoint(f.p.used[k])
  }

  /** A send of listed, stored, unspent entries none of which an earlier send has used, with writes that
      will succeed, its change accounted for and of a TxID of its own. */
  ghost predicate Launchable(s: Sends, p: Plan, change: UTXO) {
    && AllSaved(p) && !change.spent
    && Spends(p.used, s.books.utxos)
    && (forall j :: 0 <= j < |p.used| ==> Outpoint(p.used[j]) in s.books.storedUTXOs)
    && Sum(p.used) == Paid(s.books, p) + change.value
    && NewTxid(s.books.utxos, change.txid)
    && (forall i :: 0 <= i < |s.flights| ==> Disjoint(p, s.flights[i]) && s.flights[i].change.txid != change.txid)
  }

  ghost predicate NewTxid(us: seq<UTXO>, txid: string) {
    forall i :: 0 <= i < |us| ==> us[i].txid != txid
  }

  /// Steps

  function BalanceOp(f: Sending): Op {
    if f.tasks.balances == 0 then Put(f.id) else Keep(f.id)
  }

  predicate Possible(s: Sends, i: nat, task: Task) {
    && i < |s.flights| && Enabled(s.flights[i].p, s.flights[i].tasks, task)
    && (task == BalanceTask ==> Can(s.sums, BalanceOp(s.flights[i])))
  }

  function SettleStep(s: Sends, i: nat, task: Task): Sends
    requires Possible(s, i, task)
  {
    var f := s.flights[i];
    var r := Step(f.p, Change(f.change), Settling(s.books, f.tasks), task);
    Sends(r.books, if task == BalanceTask then Apply(s.sums, BalanceOp(f)) else s.sums,
          s.flights[i := f.(tasks := r.tasks)])
  }

  function LaunchStep(s: Sends, p: Plan, change: UTXO): Sends {
    s.(sums := Apply(s.sums, Read(-Paid(s.books, p))),
       flights := s.flights + [Sending(p, change, Unstarted(), |s.sums.added|)])
  }

  ghost function FollowSends(s: Sends, moves: seq<Move>): Option<Sends>
    decreases |moves|
  {
    if moves == [] then Some(s)
    else
      match moves[0]
      case Launch(p, change) =>
        if Launchable(s, p, change) then FollowSends(LaunchStep(s, p, change), moves[1..]) else None
      case Settle(i, task) =>
        if Possible(s, i, task) then FollowSends(SettleStep(s, i, task), moves[1..]) else None
  }

  /** The sends after one more move, if it can be made. */
  ghost function Next(s: Sends, move: Move): Option<Sends> {
    match move
    case Launch(p, change) => if Launchable(s, p, change) then Some(LaunchStep(s, p, change)) else None
    case Settle(i, task) => if Possible(s, i, task) then Some(SettleStep(s, i, task)) else None
  }

  /** What can be followed is any move that can be made after what can. */
  lemma {:induction false} FollowAppends(s: Sends, moves: seq<Move>, move: Move)
    ensures FollowSends(s, []) == Some(s)
    ensures FollowSends(s, moves + [move])
         == match FollowSends(s, moves) case None => None case Some(s1) => Next(s1, move)
    decreases |moves|
  {
    if moves == [] {
      assert [] + [move] == [move] && [move][1..] == [];
    } else {
      assert (moves + [move])[1..] == moves[1..] + [move] && (moves + [move])[0] == moves[0];
      if Next(s, moves[0]).Some? { FollowAppends(Next(s, moves[0]).value, moves[1..], move); }
    }
  }

  function AtRest(base: Books): Sends {
    Sends(base, Fresh(base.balance), [])
  }

  /// What each send needs of the books

  ghost predicate Fits(f: Sending, b: Books) {
    var t := f.tasks;
    && AllSaved(f.p) && !f.change.spent && DistinctOutpoints(f.p.used)
    && t.marked <= t.put <= t.marked + 1 && t.put <= |f.p.used| && t.changes <= 2 && t.balances <= 2
    && (forall j :: t.marked <= j < |f.p.used| ==>
          f.p.used[j] in b.utxos && !f.p.used[j].spent && Outpoint(f.p.used[j]) in b.storedUTXOs)
    && (t.put == t.marked + 1 ==> t.hit == Some(FirstWith(b.utxos, f.p.used[t.marked].txid)))
    && (t.changes == 1 ==> t.added == Some(f.change))
    && (t.changes < 2 ==> NewTxid(b.utxos, f.change.txid))
  }

  lemma FitsAfterPut(f: Sending, b: Books, key: string, u: UTXO)
    requires Fits(f, b)
    ensures Fits(f, b.(storedUTXOs := b.storedUTXOs[key := u]))
  {
  }

  lemma SameFirst(us: seq<UTXO>, vs: seq<UTXO>, more: seq<UTXO>, u: UTXO)
    requires u in us && |us| == |vs| && forall i :: 0 <= i < |us| ==> us[i].txid == vs[i].txid
    ensures FirstWith(vs + more, u.txid) == FirstWith(us, u.txid) < |us|
  {
    HasFirst(us, u);
    FirstWithGrows(us, vs, more, u.txid);
  }

  function Flagged(us: seq<UTXO>, k: nat): seq<UTXO>
    requires k < |us|
  {
    us[k := us[k].(spent := true)]
  }

  /** Flagging an entry another send has used. */
  lemma FitsAfterFlag(f: Sending, b: Books, k: nat)
    requires Fits(f, b) && k < |b.utxos|
    requires forall j :: f.tasks.marked <= j < |f.p.used| ==> f.p.used[j] != b.utxos[k]
    ensures Fits(f, b.(utxos := Flagged(b.utxos, k)))
  {
    var us, vs := b.utxos, Flagged(b.utxos, k);
    forall j | f.tasks.marked <= j < |f.p.used| ensures f.p.used[j] in vs {
      var n :| 0 <= n < |us| && us[n] == f.p.used[j];
      assert vs[n] == f.p.used[j];
    }
    if f.tasks.put == f.tasks.marked + 1 {
      SameFirst(us, vs, [], f.p.used[f.tasks.marked]);
      assert vs + [] == vs;
    }
    assert forall i :: 0 <= i < |vs| ==> vs[i].txid == us[i].txid;
  }

  /** Appending the change of another send. */
  lemma FitsAfterAppend(f: Sending, b: Books, u: UTXO)
    requires Fits(f, b) && (f.tasks.changes < 2 ==> f.change.txid != u.txid)
    ensures Fits(f, b.(utxos := b.utxos + [u]))
  {
    var vs := b.utxos + [u];
    forall j | f.tasks.marked <= j < |f.p.used| ensures f.p.used[j] in vs {
      assert f.p.used[j] in b.utxos;
    }
    if f.tasks.put == f.tasks.marked + 1 {
      SameFirst(b.utxos, b.utxos, [u], f.p.used[f.tasks.marked]);
    }
  }

  /// The invariant

  ghost predicate AllFit(s: Sends) {
    DistinctTxids(s.books.utxos) && forall i :: 0 <= i < |s.flights| ==> Fits(s.flights[i], s.books)
  }

  ghost predicate Different(f: Sending, g: Sending) {
    Disjoint(f.p, g) && f.change.txid != g.change.txid && f.id != g.id
  }

  ghost predicate AllDifferent(s: Sends) {
    forall i, j :: 0 <= i < |s.flights| && 0 <= j < |s.flights| && i != j ==> Different(s.flights[i], s.flights[j])
  }

  /** The balance of a send is in the hands of its balance task until that is over. */
  ghost predicate InHand(f: Sending, c: Cell) {
    && f.id < |c.added|
    && (f.tasks.balances < 2 ==>
          f.id in c.hands && c.hands[f.id].put == (f.tasks.balances == 1) && c.hands[f.id].sum == f.p.newBalance)
  }

  ghost predicate SumsFollow(s: Sends) {
    && s.books.balance == s.sums.mem && s.books.storedBalance == Int64ToBytes(s.sums.put)
    && (forall i :: 0 <= i < |s.flights| ==> InHand(s.flights[i], s.sums))
    && (forall id :: id in s.sums.hands ==> exists i :: Holding(s, i, id))
  }

  ghost predicate Holding(s: Sends, i: nat, id: nat) {
    i < |s.flights| && s.flights[i].id == id && s.flights[i].tasks.balances < 2
  }

  /** What the tasks of a send have yet to do to the unspent sum. */
  function Due(f: Sending): int {
    if f.tasks.marked > |f.p.used| then 0
    else (if f.tasks.changes < 2 then f.change.value else 0) - Sum(f.p.used[f.tasks.marked..])
  }

  ghost predicate Adds(base: Books, s: Sends) {
    SumUnspent(s.books.utxos) + SumOver(s.flights, Due) == SumUnspent(base.utxos) + Total(s.sums.added)
  }

  ghost predicate Sane(base: Books, s: Sends) {
    AllFit(s) && AllDifferent(s) && SumsFollow(s) && Tracked(base.balance, s.sums) && Adds(base, s)
  }

  /// Launching keeps it

  lemma LaunchKeepsSums(s: Sends, p: Plan, change: UTXO)
    requires SumsFollow(s) && Numbered(s.sums)
    ensures SumsFollow(LaunchStep(s, p, change))
  {
    var s1 := LaunchStep(s, p, change);
    ReadKeepsNumbered(s.sums, -Paid(s.books, p));
    forall i | 0 <= i < |s1.flights| ensures InHand(s1.flights[i], s1.sums) {
      if i < |s.flights| { assert InHand(s.flights[i], s.sums); }
    }
    forall id | id in s1.sums.hands ensures exists i :: Holding(s1, i, id) {
      if id in s.sums.hands {
        var i: nat :| Holding(s, i, id);
        assert Holding(s1, i, id);
      } else {
        assert Holding(s1, |s.flights|, id);
      }
    }
  }

  lemma LaunchKeepsAdds(base: Books, s: Sends, p: Plan, change: UTXO)
    requires Adds(base, s) && Launchable(s, p, change)
    ensures Adds(base, LaunchStep(s, p, change))
  {
    var s1 := LaunchStep(s, p, change);
    TotalPush(s.sums.added, -Paid(s.books, p));
    assert s1.flights[..|s.flights|] == s.flights;
    assert p.used[0..] == p.used;
  }

  lemma LaunchFits(s: Sends, p: Plan, change: UTXO)
    requires AllFit(s) && Launchable(s, p, change)
    ensures AllFit(LaunchStep(s, p, change))
  {
    var s1 := LaunchStep(s, p, change);
    forall i | 0 <= i < |s1.flights| ensures Fits(s1.flights[i], s1.books) {
      if i < |s.flights| { assert Fits(s.flights[i], s.books); }
    }
  }

  lemma LaunchKeepsSane(base: Books, s: Sends, p: Plan, change: UTXO)
    requires Sane(base, s) && Launchable(s, p, change)
    ensures Sane(base, LaunchStep(s, p, change))
  {
    LaunchFits(s, p, change);
    LaunchKeepsDifferent(s, p, change);
    LaunchKeepsSums(s, p, change);
    LaunchKeepsTracked(base.balance, s, p, change);
    LaunchKeepsAdds(base, s, p, change);
  }

  lemma LaunchKeepsDifferent(s: Sends, p: Plan, change: UTXO)
    requires AllDifferent(s) && SumsFollow(s) && Launchable(s, p, change)
    ensures AllDifferent(LaunchStep(s, p, change))
  {
    var s1 := LaunchStep(s, p, change);
    var last := s1.flights[|s.flights|];
    forall i | 0 <= i < |s.flights| ensures Different(s.flights[i], last) && Different(last, s.flights[i]) {
      assert Disjoint(p, s.flights[i]) && InHand(s.flights[i], s.sums);
    }
  }

  lemma LaunchKeepsTracked(balance: int, s: Sends, p: Plan, change: UTXO)
    requires Tracked(balance, s.sums)
    ensures Tracked(balance, LaunchStep(s, p, change).sums)
  {
    AppliedIsTracked(balance, s.sums, Read(-Paid(s.books, p)), LaunchStep(s, p, change).sums);
  }

  /// The tasks keep it

  lemma SettleShape(s: Sends, i: nat, task: Task)
    requires Possible(s, i, task)
    ensures var f, s1 := s.flights[i], SettleStep(s, i, task);
      var r := Step(f.p, Change(f.change), Settling(s.books, f.tasks), task);
      && s1.flights == s.flights[i := f.(tasks := r.tasks)] && s1.books == r.books
      && s1.sums == if task == BalanceTask then Apply(s.sums, BalanceOp(f)) else s.sums
  {
  }

  lemma SettleKeepsDifferent(s: Sends, i: nat, task: Task)
    requires AllDifferent(s) && Possible(s, i, task)
    ensures AllDifferent(SettleStep(s, i, task))
  {
    SettleShape(s, i, task);
  }

  /** Books that differ in the balance alone. */
  lemma FitsWhateverBalance(f: Sending, b: Books, b': Books)
    requires Fits(f, b) && b' == b.(balance := b'.balance, storedBalance := b'.storedBalance)
    ensures Fits(f, b')
  {
  }

  /** The entry the next flag falls on is the one the send has used. */
  lemma NextFlag(s: Sends, i: nat)
    requires AllFit(s) && Possible(s, i, MarkTask) && s.flights[i].tasks.put == s.flights[i].tasks.marked + 1
    ensures var f := s.flights[i];
      && f.tasks.hit.Some? && f.tasks.hit.value < |s.books.utxos|
      && s.books.utxos[f.tasks.hit.value] == f.p.used[f.tasks.marked]
  {
    var f := s.flights[i];
    assert Fits(f, s.books);
    FirstWithOwnTxid(s.books.utxos, f.p.used[f.tasks.marked]);
  }

  lemma PutStepFits(s: Sends, i: nat)
    requires AllFit(s) && Possible(s, i, MarkTask) && s.flights[i].tasks.put == s.flights[i].tasks.marked
    ensures AllFit(SettleStep(s, i, MarkTask))
    ensures var b1 := SettleStep(s, i, MarkTask).books; b1 == s.books.(storedUTXOs := b1.storedUTXOs)
  {
    var f, s1 := s.flights[i], SettleStep(s, i, MarkTask);
    var u := f.p.used[f.tasks.marked];
    SettleShape(s, i, MarkTask);
    assert Fits(f, s.books);
    FirstWithOwnTxid(s.books.utxos, u);
    assert f.p.markSaved(f.tasks.marked);
    forall j | 0 <= j < |s1.flights| ensures Fits(s1.flights[j], s1.books) {
      assert Fits(s.flights[j], s.books);
      FitsAfterPut(s.flights[j], s.books, Outpoint(u), u);
    }
  }

  lemma FlagStepFits(s: Sends, i: nat)
    requires AllFit(s) && AllDifferent(s) && Possible(s, i, MarkTask)
    requires s.flights[i].tasks.put == s.flights[i].tasks.marked + 1
    ensures AllFit(SettleStep(s, i, MarkTask))
    ensures SettleStep(s, i, MarkTask).books.utxos == Flagged(s.books.utxos, s.flights[i].tasks.hit.value)
  {
    var f, s1 := s.flights[i], SettleStep(s, i, MarkTask);
    var k, m := f.tasks.hit.value, f.tasks.marked;
    SettleShape(s, i, MarkTask);
    NextFlag(s, i);
    assert Fits(f, s.books);
    assert s1.books == s.books.(utxos := Flagged(s.books.utxos, k));
    forall j | 0 <= j < |s1.flights| ensures Fits(s1.flights[j], s1.books) {
      if j == i {
        FitsAfterFlag(f.(tasks := f.tasks.(marked := m + 1, hit := None)), s.books, k);
      } else {
        assert Fits(s.flights[j], s.books) && Different(s.flights[j], f);
        FitsAfterFlag(s.flights[j], s.books, k);
      }
    }
  }

  lemma ChangeStepFits(s: Sends, i: nat)
    requires AllFit(s) && AllDifferent(s) && Possible(s, i, ChangeTask)
    ensures AllFit(SettleStep(s, i, ChangeTask))
  {
    var f, s1 := s.flights[i], SettleStep(s, i, ChangeTask);
    SettleShape(s, i, ChangeTask);
    assert Fits(f, s.books);
    forall j | 0 <= j < |s1.flights| ensures Fits(s1.flights[j], s1.books) {
      assert Fits(s.flights[j], s.books);
      if f.tasks.changes == 0 {
        FitsAfterPut(s.flights[j], s.books, Outpoint(f.change), f.change);
      } else if j == i {
        FitsAfterAppend(f.(tasks := f.tasks.(changes := 2)), s.books, f.change);
      } else {
        assert Different(s.flights[j], f);
        FitsAfterAppend(s.flights[j], s.books, f.change);
      }
    }
  }

  lemma BalanceStepFits(s: Sends, i: nat)
    requires AllFit(s) && Possible(s, i, BalanceTask)
    ensures AllFit(SettleStep(s, i, BalanceTask))
  {
    var s1 := SettleStep(s, i, BalanceTask);
    SettleShape(s, i, BalanceTask);
    forall j | 0 <= j < |s1.flights| ensures Fits(s1.flights[j], s1.books) {
      assert Fits(s.flights[j], s.books);
      FitsWhateverBalance(s.flights[j], s.books, s1.books);
    }
  }

  lemma OwnBalanceStep(s: Sends, i: nat)
    requires SumsFollow(s) && Numbered(s.sums) && Possible(s, i, BalanceTask) && Fits(s.flights[i], s.books)
    ensures var s1 := SettleStep(s, i, BalanceTask);
      && InHand(s1.flights[i], s1.sums)
      && s1.books.balance == s1.sums.mem && s1.books.storedBalance == Int64ToBytes(s1.sums.put)
  {
    SettleShape(s, i, BalanceTask);
    assert InHand(s.flights[i], s.sums);
  }

  lemma BalanceStepKeepsSums(s: Sends, i: nat)
    requires SumsFollow(s) && AllDifferent(s) && Numbered(s.sums) && Possible(s, i, BalanceTask)
    requires Fits(s.flights[i], s.books)
    ensures SumsFollow(SettleStep(s, i, BalanceTask))
  {
    var f, s1 := s.flights[i], SettleStep(s, i, BalanceTask);
    SettleShape(s, i, BalanceTask);
    OwnBalanceStep(s, i);
    forall j | 0 <= j < |s1.flights| ensures InHand(s1.flights[j], s1.sums) {
      assert InHand(s.flights[j], s.sums);
      if j != i && s.flights[j].tasks.balances < 2 {
        assert Different(s.flights[j], f);
        OtherHandStays(s.sums, BalanceOp(f), s.flights[j].id);
      }
    }
    forall id | id in s1.sums.hands ensures exists j :: Holding(s1, j, id) {
      var j: nat :| Holding(s, j, id);
      assert Holding(s1, j, id);
    }
  }

  lemma OtherStepKeepsSums(s: Sends, i: nat, task: Task)
    requires SumsFollow(s) && Possible(s, i, task) && task != BalanceTask
    ensures SumsFollow(SettleStep(s, i, task))
  {
    var s1 := SettleStep(s, i, task);
    SettleShape(s, i, task);
    forall j | 0 <= j < |s1.flights| ensures InHand(s1.flights[j], s1.sums) {
      assert InHand(s.flights[j], s.sums);
    }
    forall id | id in s1.sums.hands ensures exists j :: Holding(s1, j, id) {
      var j: nat :| Holding(s, j, id);
      assert Holding(s1, j, id);
    }
  }

  /** What a task takes off the unspent sum or adds to it is no longer due. */
  lemma DueMoves(s: Sends, i: nat, task: Task)
    requires AllFit(s) && AllDifferent(s) && Possible(s, i, task)
    ensures var f, s1 := s.flights[i], SettleStep(s, i, task);
      SumUnspent(s1.books.utxos) - SumUnspent(s.books.utxos) == Due(f) - Due(s1.flights[i])
  {
    var f, s1 := s.flights[i], SettleStep(s, i, task);
    SettleShape(s, i, task);
    assert Fits(f, s.books);
    if task == MarkTask && f.tasks.put == f.tasks.marked + 1 {
      var k, rest := f.tasks.hit.value, f.p.used[f.tasks.marked..];
      NextFlag(s, i);
      FlagStepFits(s, i);
      SumUnspentUpdate(s.books.utxos, k, s.books.utxos[k].(spent := true));
      SumFront(rest);
      assert rest[1..] == f.p.used[f.tasks.marked + 1..];
    } else if task == ChangeTask && f.tasks.changes == 1 {
      SumPush(s.books.utxos, f.change);
    }
  }

  lemma SettleKeepsAdds(base: Books, s: Sends, i: nat, task: Task)
    requires AllFit(s) && AllDifferent(s) && Adds(base, s) && Possible(s, i, task)
    ensures Adds(base, SettleStep(s, i, task))
  {
    var s1 := SettleStep(s, i, task);
    SettleShape(s, i, task);
    DueMoves(s, i, task);
    SumOverUpdate(s.flights, Due, i, s1.flights[i]);
  }

  lemma SettleFits(s: Sends, i: nat, task: Task)
    requires AllFit(s) && AllDifferent(s) && Possible(s, i, task)
    ensures AllFit(SettleStep(s, i, task))
  {
    match task
    case MarkTask =>
      assert Fits(s.flights[i], s.books);
      if s.flights[i].tasks.put == s.flights[i].tasks.marked { PutStepFits(s, i); } else { FlagStepFits(s, i); }
    case ChangeTask => ChangeStepFits(s, i);
    case BalanceTask => BalanceStepFits(s, i);
  }

  lemma SettleKeepsSums(s: Sends, i: nat, task: Task)
    requires SumsFollow(s) && AllFit(s) && AllDifferent(s) && Numbered(s.sums) && Possible(s, i, task)
    ensures SumsFollow(SettleStep(s, i, task))
  {
    if task == BalanceTask {
      assert Fits(s.flights[i], s.books);
      BalanceStepKeepsSums(s, i);
    } else {
      OtherStepKeepsSums(s, i, task);
    }
  }

  lemma SettleKeepsTracked(balance: int, s: Sends, i: nat, task: Task)
    requires Tracked(balance, s.sums) && Possible(s, i, task)
    ensures Tracked(balance, SettleStep(s, i, task).sums)
  {
    SettleShape(s, i, task);
    if task == BalanceTask {
      AppliedIsTracked(balance, s.sums, BalanceOp(s.flights[i]), SettleStep(s, i, task).sums);
    }
  }

  /** No settlement ever waits for another: what its own tasks allow is possible. */
  lemma NoSettlementWaits(base: Books, s: Sends, i: nat, task: Task)
    requires Sane(base, s) && i < |s.flights|
    ensures Possible(s, i, task) <==> Enabled(s.flights[i].p, s.flights[i].tasks, task)
  {
    assert InHand(s.flights[i], s.sums) && Fits(s.flights[i], s.books);
  }

  lemma SettleKeepsSane(base: Books, s: Sends, i: nat, task: Task)
    requires Sane(base, s) && Possible(s, i, task)
    ensures Sane(base, SettleStep(s, i, task))
  {
    SettleFits(s, i, task);
    SettleKeepsDifferent(s, i, task);
    SettleKeepsSums(s, i, task);
    SettleKeepsTracked(base.balance, s, i, task);
    SettleKeepsAdds(base, s, i, task);
  }

  /// Runs

  ghost predicate CostSomething(s: Sends) {
    forall i :: 0 <= i < |s.sums.added| ==> s.sums.added[i] < 0
  }

  lemma {:induction false} RunKeepsSane(base: Books, s: Sends, moves: seq<Move>)
    requires Sane(base, s)
    ensures var r := FollowSends(s, moves); r.Some? ==> Sane(base, r.value)
    decreases |moves|
  {
    if moves != [] {
      match moves[0]
      case Launch(p, change) =>
        if Launchable(s, p, change) {
          LaunchKeepsSane(base, s, p, change);
          RunKeepsSane(base, LaunchStep(s, p, change), moves[1..]);
        }
      case Settle(i, task) =>
        if Possible(s, i, task) {
          SettleKeepsSane(base, s, i, task);
          RunKeepsSane(base, SettleStep(s, i, task), moves[1..]);
        }
    }
  }

  predicate AllDone(s: Sends) {
    forall i :: 0 <= i < |s.flights| ==> Done(s.flights[i].p, s.flights[i].tasks)
  }

  lemma HeldByOneRunning(s: Sends, id: nat)
    requires SumsFollow(s) && id in s.sums.hands
    ensures !AllDone(s)
  {
    var i: nat :| Holding(s, i, id);
    assert !Done(s.flights[i].p, s.flights[i].tasks);
  }

  lemma NothingHeld(s: Sends)
    requires SumsFollow(s) && AllDone(s)
    ensures s.sums.hands == map[]
  {
    forall id: nat ensures id !in s.sums.hands {
      if id in s.sums.hands { HeldByOneRunning(s, id); }
    }
  }

  lemma DoneAddsUp(base: Books, s: Sends)
    requires Sane(base, s) && AllDone(s)
    ensures s.sums.hands == map[] && Drift(s.books) == Drift(base) - Lost(s.sums)
  {
    NothingHeld(s);
    RightIffNothingCrossed(base.balance, s.sums);
    forall i | 0 <= i < |s.flights| ensures Due(s.flights[i]) == 0 {
      assert Done(s.flights[i].p, s.flights[i].tasks);
    }
    SumOverConstant(s.flights, Due, 0);
  }

  /** However many sends are launched while settlements are under way, and however all their steps
      interleave: once all is done, the balance has kept the deductions, amount and fee, of all sends but
      those whose balance was overwritten. If each costs something, it is right exactly when no balance
      was kept between another's launch and the moment that one's was kept, and then the store is too. */
  lemma OverlappingSendsCost(base: Books, moves: seq<Move>)
    requires DistinctTxids(base.utxos) && base.storedBalance == Int64ToBytes(base.balance)
    requires FollowSends(AtRest(base), moves).Some?
    ensures var s := FollowSends(AtRest(base), moves).value;
      AllDone(s) ==>
        && Drift(s.books) == Drift(base) - Lost(s.sums)
        && (!s.sums.crossed ==>
              Drift(s.books) == Drift(base) && s.books.storedBalance == Int64ToBytes(s.books.balance))
        && (CostSomething(s) ==> (Drift(s.books) == Drift(base) <==> !s.sums.crossed))
  {
    var start := AtRest(base);
    assert Sane(base, start);
    RunKeepsSane(base, start, moves);
    var s := FollowSends(start, moves).value;
    if AllDone(s) {
      DoneAddsUp(base, s);
      RightIffNothingCrossed(base.balance, s.sums);
    }
  }

  /** Of two sends that crossed, the balance last kept has its own deduction only. */
  lemma TheFirstOfTwoIsLost(base: Books, s: Sends, i: nat)
    requires Sane(base, s) && |s.sums.added| == 2
    requires Possible(s, i, BalanceTask) && s.flights[i].tasks.balances == 1
    requires var s1 := SettleStep(s, i, BalanceTask); s1.sums.hands == map[] && s1.sums.crossed
    ensures s.flights[i].id < 2
    ensures SettleStep(s, i, BalanceTask).books.balance == base.balance + s.sums.added[s.flights[i].id]
  {
    SettleShape(s, i, BalanceTask);
    TheLastOfTwoWins(base.balance, s.sums, s.flights[i].id);
    assert Fits(s.flights[i], s.books);
    OwnBalanceStep(s, i);
  }
}
