/** What a scan that overlaps a settlement costs. The balance a send will write was computed before its
    tasks run (wallet/tx.go), and a scan reads the balance some steps before it writes it back
    (wallet/scan.go), so either can overwrite what the other did. */
module Overlap {
  import opened Text
  import opened StoreCodec
  import opened Coins
  import opened Ledger
  import opened Settlement

  /** A settlement step, the first step of crediting one output, or the next step of the credit under way. */
  datatype Move = Settle(task: Task) | Begin(u: UTXO) | Continue

  /** How far the credit under way is: the UTXO saved, listed, the balance read and added to, the sum put
      into the store. Keeping the sum in memory ends it. Scans credit one output after the other. */
  datatype Crediting = Idle | Saved(u: UTXO) | Listed(u: UTXO) | Holding(u: UTXO, sum: int) | Put(u: UTXO, sum: int)

  datatype Writer = Before | Sender | Credit(number: nat)

  /** Whether a credit straddles the moment the send's balance is kept: it read the balance before that
      moment and keeps its sum (`Undone`), or has yet to keep it (`Pending`), after it. */
  datatype Straddle = Never | Pending | Undone

  /** `credits`: how many were begun. `received`: the value of those ended; `early`: as much of it as came
      before the send's balance was kept in memory. `put`, `putBy` and `keptBy`: the balance last put into
      the store, and who last wrote the balance there and in memory. */
  datatype Log = Log(
    credits: nat,
    received: int,
    early: int,
    straddle: Straddle,
    put: int,
    putBy: Writer,
    keptBy: Writer)

  datatype Mixed = Mixed(s: Settling, scan: Crediting, log: Log)

  predicate Possible(p: Plan, m: Mixed, move: Move) {
    match move
    case Settle(task) => Enabled(p, m.s.tasks, task)
    case Begin(_) => m.scan.Idle?
    case Continue => !m.scan.Idle?
  }

  function CreditStep(m: Mixed): Mixed
    requires !m.scan.Idle?
  {
    var b, log := m.s.books, m.log;
    match m.scan
    case Saved(u) => Mixed(m.s.(books := b.(utxos := b.utxos + [u])), Listed(u), log)
    case Listed(u) => Mixed(m.s, Holding(u, b.balance + u.value), log)
    case Holding(u, sum) =>
      Mixed(m.s.(books := b.(storedBalance := Int64ToBytes(sum))), Put(u, sum),
            log.(put := sum, putBy := Credit(log.credits)))
    case Put(u, sum) =>
      Mixed(m.s.(books := b.(balance := sum)), Idle,
            log.(received := log.received + u.value, keptBy := Credit(log.credits),
                 straddle := if log.straddle.Pending? then Undone else log.straddle))
  }

  /** What a settlement step adds to the log, when its writes succeed. */
  function Noted(p: Plan, m: Mixed, task: Task): Log {
    if task != BalanceTask then m.log
    else if m.s.tasks.balances == 0 then m.log.(put := p.newBalance, putBy := Sender)
    else m.log.(early := m.log.received, keptBy := Sender,
                straddle := if m.scan.Holding? || m.scan.Put? then Pending else Never)
  }

  function MixedStep(p: Plan, look: Look, m: Mixed, move: Move): Mixed
    requires Possible(p, m, move)
  {
    match move
    case Settle(task) => m.(s := Step(p, look, m.s, task), log := Noted(p, m, task))
    case Begin(u) =>
      var stored := m.s.books.storedUTXOs[Outpoint(u) := u];
      Mixed(m.s.(books := m.s.books.(storedUTXOs := stored)), Saved(u), m.log.(credits := m.log.credits + 1))
    case Continue => CreditStep(m)
  }

  function FollowMixed(p: Plan, look: Look, m: Mixed, moves: seq<Move>): Option<Mixed>
    decreases |moves|
  {
    if moves == [] then Some(m)
    else if !Possible(p, m, moves[0]) then None
    else FollowMixed(p, look, MixedStep(p, look, m, moves[0]), moves[1..])
  }

  /** What can be followed is any possible move after what can. */
  lemma {:induction false} FollowAppends(p: Plan, look: Look, m: Mixed, moves: seq<Move>, move: Move)
    ensures FollowMixed(p, look, m, []) == Some(m)
    ensures FollowMixed(p, look, m, moves + [move])
         == match FollowMixed(p, look, m, moves)
            case None => None
            case Some(m1) => if Possible(p, m1, move) then Some(MixedStep(p, look, m1, move)) else None
    decreases |moves|
  {
    if moves == [] {
      assert [] + [move] == [move] && [move][1..] == [];
    } else if Possible(p, m, moves[0]) {
      assert (moves + [move])[1..] == moves[1..] + [move];
      FollowAppends(p, look, MixedStep(p, look, m, moves[0]), moves[1..], move);
    }
  }

  /** When the send is launched, a credit may be under way: its UTXO perhaps listed and even spent by the
      send, the balance perhaps read already, and the sum perhaps in the store. */
  ghost predicate Launches(base: Books, scan: Crediting) {
    && (scan.Saved? ==> !scan.u.spent)
    && (scan.Holding? || scan.Put? ==> scan.sum == base.balance + scan.u.value)
    && base.storedBalance == Int64ToBytes(StoredFirst(base, scan))
  }

  function StoredFirst(base: Books, scan: Crediting): int {
    if scan.Put? then scan.sum else base.balance
  }

  function Begun(base: Books, scan: Crediting): Mixed {
    var credits := if scan.Idle? then 0 else 1;
    Mixed(Start(base), scan,
          Log(credits, 0, 0, Never, StoredFirst(base, scan), if scan.Put? then Credit(credits) else Before, Before))
  }

  /** A credit nothing comes between is the scan's credit of the ledger. */
  lemma CreditInSteps(p: Plan, look: Look, w: Wallet, m: Mixed, writes: nat, u: UTXO, ok: Writes)
    requires m.scan.Idle? && m.s.books == BooksOf(w) && ok(writes) && ok(writes + 1)
    ensures var c := Ledger.Credit(Scan(w, writes, true), u, ok);
      c.running
      && CreditStep(CreditStep(CreditStep(CreditStep(MixedStep(p, look, m, Begin(u)))))).s.books == BooksOf(c.w)
  {
  }

  /// What the invariant says of the list

  /** A send whose writes succeed, of listed and stored unspent entries, with its change accounted for. */
  ghost predicate Launchable(p: Plan, base: Books, look: Look) {
    && AllSaved(p) && look.Change? && !look.u.spent
    && DistinctTxids(base.utxos) && Spends(p.used, base.utxos)
    && (forall j :: 0 <= j < |p.used| ==> Outpoint(p.used[j]) in base.storedUTXOs)
    && Sum(p.used) == base.balance - p.newBalance + look.u.value
  }

  ghost predicate Arrives(move: Move) {
    move.Begin? ==> !move.u.spent
  }

  /** The value listed whose balance has yet to be kept. */
  function Unkept(scan: Crediting): int {
    if scan.Idle? || scan.Saved? then 0 else scan.u.value
  }

  /** Marks work on the list the send started from; whatever came later stands behind it, unspent.
      `pending`: the value listed before the launch whose balance had yet to be kept. */
  ghost predicate ListWithin(p: Plan, base: Books, look: Look, pending: int, m: Mixed) {
    var t, b := m.s.tasks, m.s.books;
    && look.Change?
    && t.marked <= t.put <= t.marked + 1 && t.put <= |p.used| && t.changes <= 2 && t.balances <= 2
    && (t.put == t.marked + 1 ==> t.hit == Target(p, base.utxos, base.storedUTXOs, t.marked))
    && (t.changes >= 1 ==> t.added == Some(look.u))
    && |base.utxos| <= |b.utxos| && b.utxos[..|base.utxos|] == Marked(p, base, t.marked)
    && SumUnspent(b.utxos[|base.utxos|..])
       == m.log.received + Unkept(m.scan) - pending + (if t.changes == 2 then look.u.value else 0)
    && base.storedUTXOs.Keys <= b.storedUTXOs.Keys
    && (m.scan.Saved? ==> !m.scan.u.spent)
  }

  lemma AppendedBehind(us: seq<UTXO>, n: nat, u: UTXO)
    requires n <= |us| && !u.spent
    ensures (us + [u])[..n] == us[..n]
    ensures SumUnspent((us + [u])[n..]) == SumUnspent(us[n..]) + u.value
  {
    assert (us + [u])[n..] == us[n..] + [u];
    SumPush(us[n..], u);
  }

  lemma CreditKeepsList(p: Plan, base: Books, look: Look, pending: int, m: Mixed, move: Move)
    requires ListWithin(p, base, look, pending, m) && Possible(p, m, move) && Arrives(move) && !move.Settle?
    ensures ListWithin(p, base, look, pending, MixedStep(p, look, m, move))
  {
    if move.Continue? && m.scan.Saved? {
      AppendedBehind(m.s.books.utxos, |base.utxos|, m.scan.u);
    }
  }

  lemma ChangeKeepsList(p: Plan, base: Books, look: Look, pending: int, m: Mixed)
    requires Launchable(p, base, look) && ListWithin(p, base, look, pending, m) && m.s.tasks.changes < 2
    ensures ListWithin(p, base, look, pending, MixedStep(p, look, m, Settle(ChangeTask)))
  {
    AppendedBehind(m.s.books.utxos, |base.utxos|, look.u);
  }

  lemma BalanceKeepsList(p: Plan, base: Books, look: Look, pending: int, m: Mixed)
    requires ListWithin(p, base, look, pending, m) && m.s.tasks.balances < 2
    ensures ListWithin(p, base, look, pending, MixedStep(p, look, m, Settle(BalanceTask)))
  {
  }

  lemma SameTarget(p: Plan, base: Books, look: Look, pending: int, m: Mixed)
    requires Launchable(p, base, look) && ListWithin(p, base, look, pending, m) && m.s.tasks.marked < |p.used|
    ensures var j := m.s.tasks.marked;
      Target(p, m.s.books.utxos, m.s.books.storedUTXOs, j) == Target(p, base.utxos, base.storedUTXOs, j)
  {
    var us := m.s.books.utxos;
    var j := m.s.tasks.marked;
    var n := |base.utxos|;
    MarkedIs(p, base, j);
    FirstWithOwnTxid(base.utxos, p.used[j]);
    FirstWithGrows(base.utxos, us[..n], us[n..], p.used[j].txid);
    assert us == us[..n] + us[n..];
    assert Outpoint(p.used[j]) in base.storedUTXOs.Keys;
  }

  lemma PutKeepsList(p: Plan, base: Books, look: Look, pending: int, m: Mixed)
    requires Launchable(p, base, look) && ListWithin(p, base, look, pending, m)
    requires m.s.tasks.marked < |p.used| && m.s.tasks.put == m.s.tasks.marked
    ensures ListWithin(p, base, look, pending, MixedStep(p, look, m, Settle(MarkTask)))
  {
    SameTarget(p, base, look, pending, m);
  }

  lemma FlagKeepsList(p: Plan, base: Books, look: Look, pending: int, m: Mixed)
    requires ListWithin(p, base, look, pending, m)
    requires m.s.tasks.marked < |p.used| && m.s.tasks.put == m.s.tasks.marked + 1
    ensures ListWithin(p, base, look, pending, MixedStep(p, look, m, Settle(MarkTask)))
  {
    var us, n := m.s.books.utxos, |base.utxos|;
    if m.s.tasks.hit.Some? {
      var i := m.s.tasks.hit.value;
      var flagged := us[i := us[i].(spent := true)];
      assert us[..n][i] == us[i];
      assert flagged[..n] == us[..n][i := us[i].(spent := true)];
      assert flagged[n..] == us[n..];
    }
  }

  lemma StepKeepsList(p: Plan, base: Books, look: Look, pending: int, m: Mixed, move: Move)
    requires Launchable(p, base, look) && ListWithin(p, base, look, pending, m) && Possible(p, m, move) && Arrives(move)
    ensures ListWithin(p, base, look, pending, MixedStep(p, look, m, move))
  {
    match move
    case Settle(MarkTask) =>
      if m.s.tasks.put == m.s.tasks.marked {
        PutKeepsList(p, base, look, pending, m);
      } else {
        FlagKeepsList(p, base, look, pending, m);
      }
    case Settle(ChangeTask) => ChangeKeepsList(p, base, look, pending, m);
    case Settle(BalanceTask) => BalanceKeepsList(p, base, look, pending, m);
    case _ => CreditKeepsList(p, base, look, pending, m, move);
  }

  /// What it says of the balance, in memory

  /** The balance in memory, and what a credit under way will make of it. */
  ghost predicate KeptWithin(p: Plan, base: Books, m: Mixed) {
    var t, b, log := m.s.tasks.balances, m.s.books.balance, m.log;
    && (t < 2 ==> log.straddle == Never && log.early == 0 && log.keptBy != Sender && b == base.balance + log.received)
    && (t == 2 && log.straddle == Never ==> b == p.newBalance + log.received - log.early)
    && (log.straddle == Pending ==>
          && b == p.newBalance && log.received == log.early && log.keptBy == Sender
          && (m.scan.Holding? || m.scan.Put?))
    && (log.straddle == Undone ==> b == base.balance + log.received)
    && (log.keptBy == Sender ==> log.received == log.early && log.straddle != Undone)
    && (m.scan.Holding? || m.scan.Put? ==>
          m.scan.sum == (if log.straddle == Pending then base.balance + log.received else b) + m.scan.u.value)
  }

  lemma StepKeepsKept(p: Plan, base: Books, look: Look, m: Mixed, move: Move)
    requires AllSaved(p) && m.s.tasks.balances <= 2 && KeptWithin(p, base, m) && Possible(p, m, move)
    ensures KeptWithin(p, base, MixedStep(p, look, m, move))
  {
  }

  /// And in the store

  ghost predicate ByEarlier(writer: Writer, m: Mixed) {
    writer.Credit? ==> if m.scan.Idle? then writer.number <= m.log.credits else writer.number < m.log.credits
  }

  /** The balance in the store, against the one in memory. */
  ghost predicate PutWithin(p: Plan, base: Books, m: Mixed) {
    var t, b, log := m.s.tasks.balances, m.s.books, m.log;
    var own := m.scan.Put? && log.putBy == Credit(log.credits);
    && b.storedBalance == Int64ToBytes(log.put)
    && ByEarlier(log.keptBy, m) && (own || ByEarlier(log.putBy, m))
    && (own ==> log.put == m.scan.sum)
    && (m.scan.Put? ==> own || log.putBy == Sender)
    && (log.putBy == log.keptBy ==> log.put == b.balance)
    && (log.putBy == Before ==> t == 0 && log.keptBy == Before && !m.scan.Put?)
    && (log.putBy == Sender ==> t >= 1 && log.put == p.newBalance)
    && (log.putBy.Credit? && !own ==>
          log.keptBy == log.putBy || (log.keptBy == Sender && log.put == base.balance + log.early))
    && (log.putBy == Sender && t == 2 && log.straddle == Never ==> log.keptBy == Sender && !m.scan.Put?)
  }

  lemma BalanceKeepsPut(p: Plan, base: Books, look: Look, m: Mixed)
    requires AllSaved(p) && KeptWithin(p, base, m) && PutWithin(p, base, m) && m.s.tasks.balances < 2
    ensures PutWithin(p, base, MixedStep(p, look, m, Settle(BalanceTask)))
  {
  }

  lemma TaskKeepsPut(p: Plan, base: Books, look: Look, m: Mixed, task: Task)
    requires PutWithin(p, base, m) && Enabled(p, m.s.tasks, task) && task != BalanceTask
    ensures PutWithin(p, base, MixedStep(p, look, m, Settle(task)))
  {
  }

  lemma CreditKeepsPut(p: Plan, base: Books, look: Look, m: Mixed, move: Move)
    requires KeptWithin(p, base, m) && PutWithin(p, base, m) && Possible(p, m, move) && !move.Settle?
    requires m.s.tasks.balances <= 2
    ensures PutWithin(p, base, MixedStep(p, look, m, move))
  {
  }

  /// Runs

  ghost predicate Within(p: Plan, base: Books, look: Look, pending: int, m: Mixed) {
    ListWithin(p, base, look, pending, m) && KeptWithin(p, base, m) && PutWithin(p, base, m)
  }

  lemma StepKeepsWithin(p: Plan, base: Books, look: Look, pending: int, m: Mixed, move: Move)
    requires Launchable(p, base, look) && Within(p, base, look, pending, m) && Possible(p, m, move) && Arrives(move)
    ensures Within(p, base, look, pending, MixedStep(p, look, m, move))
  {
    StepKeepsList(p, base, look, pending, m, move);
    StepKeepsKept(p, base, look, m, move);
    if !move.Settle? {
      CreditKeepsPut(p, base, look, m, move);
    } else if move.task == BalanceTask {
      BalanceKeepsPut(p, base, look, m);
    } else {
      TaskKeepsPut(p, base, look, m, move.task);
    }
  }

  lemma {:induction false} MovesKeepWithin(p: Plan, base: Books, look: Look, pending: int, m: Mixed, moves: seq<Move>)
    requires Launchable(p, base, look) && Within(p, base, look, pending, m)
    requires forall i :: 0 <= i < |moves| ==> Arrives(moves[i])
    ensures var r := FollowMixed(p, look, m, moves); r.Some? ==> Within(p, base, look, pending, r.value)
    decreases |moves|
  {
    if moves != [] && Possible(p, m, moves[0]) {
      StepKeepsWithin(p, base, look, pending, m, moves[0]);
      MovesKeepWithin(p, base, look, pending, MixedStep(p, look, m, moves[0]), moves[1..]);
    }
  }

  /** Every task is over, and no credit is under way. */
  predicate Over(p: Plan, m: Mixed) {
    Done(p, m.s.tasks) && m.scan.Idle?
  }

  lemma OverWithin(p: Plan, base: Books, look: Look, scan: Crediting, moves: seq<Move>)
    requires Launchable(p, base, look) && Launches(base, scan)
    requires forall i :: 0 <= i < |moves| ==> Arrives(moves[i])
    requires FollowMixed(p, look, Begun(base, scan), moves).Some?
    ensures Within(p, base, look, Unkept(scan), FollowMixed(p, look, Begun(base, scan), moves).value)
  {
    assert base.utxos[..|base.utxos|] == base.utxos && base.utxos[|base.utxos|..] == [];
    MovesKeepWithin(p, base, look, Unkept(scan), Begun(base, scan), moves);
  }

  lemma OverDrift(p: Plan, base: Books, look: Look, pending: int, m: Mixed)
    requires Launchable(p, base, look) && Within(p, base, look, pending, m) && Over(p, m)
    ensures Drift(m.s.books)
         == Drift(base) + pending + if m.log.straddle == Undone then base.balance - p.newBalance else -m.log.early
  {
    var us, n := m.s.books.utxos, |base.utxos|;
    assert us == us[..n] + us[n..];
    SumUnspentConcat(us[..n], us[n..]);
    MarksTakeTheirValue(p, base, |p.used|);
    forall j | 0 <= j < |p.used| ensures Target(p, base.utxos, base.storedUTXOs, j).Some? {
      FirstWithOwnTxid(base.utxos, p.used[j]);
      assert p.markSaved(j);
    }
    AllMarked(p, base, |p.used|);
    assert p.used[..|p.used|] == p.used;
  }

  /** Whatever outputs scans credit between the steps of a settlement, step by step and in whatever order,
      the credit under way at the launch included: once all is over, the balance is short of what was
      credited before the send's balance was kept, if no credit straddled that moment; if one did, nothing
      credited is lost, but amount and fee of the send were never taken off. Either way that is all, so
      the run ends where it should exactly if it is nothing. */
  lemma OverlapCosts(p: Plan, base: Books, look: Look, scan: Crediting, moves: seq<Move>)
    requires Launchable(p, base, look) && Launches(base, scan)
    requires forall i :: 0 <= i < |moves| ==> Arrives(moves[i])
    requires FollowMixed(p, look, Begun(base, scan), moves).Some?
    ensures var m := FollowMixed(p, look, Begun(base, scan), moves).value;
      var due := Drift(base) + Unkept(scan);
      Over(p, m) ==>
        && m.log.straddle != Pending
        && Drift(m.s.books)
           == due + (if m.log.straddle == Undone then base.balance - p.newBalance else -m.log.early)
        && (Drift(m.s.books) == due
            <==> if m.log.straddle == Undone then base.balance == p.newBalance else m.log.early == 0)
  {
    var m := FollowMixed(p, look, Begun(base, scan), moves).value;
    OverWithin(p, base, look, scan, moves);
    if Over(p, m) { OverDrift(p, base, look, Unkept(scan), m); }
  }

  /** And the store: it holds the balance of memory if the same writer wrote both last. Otherwise one of
      them has the send's balance and the other the balance without it. */
  lemma OverlapInTheStore(p: Plan, base: Books, look: Look, scan: Crediting, moves: seq<Move>)
    requires Launchable(p, base, look) && Launches(base, scan)
    requires forall i :: 0 <= i < |moves| ==> Arrives(moves[i])
    requires FollowMixed(p, look, Begun(base, scan), moves).Some?
    ensures var m := FollowMixed(p, look, Begun(base, scan), moves).value;
      var b, log := m.s.books, m.log;
      Over(p, m) ==>
        && b.storedBalance == Int64ToBytes(log.put)
        && (log.putBy == log.keptBy ==> log.put == b.balance)
        && (log.putBy != log.keptBy ==>
              || (log.keptBy == Sender && b.balance == p.newBalance && log.put == base.balance + log.early)
              || (log.putBy == Sender && log.put == p.newBalance && b.balance == base.balance + log.received))
  {
    OverWithin(p, base, look, scan, moves);
  }

  lemma Int64Injective(x: int, y: int)
    requires IsInt64(x) && IsInt64(y) && Int64ToBytes(x) == Int64ToBytes(y)
    ensures x == y
  {
    Int64Survives(x);
    Int64Survives(y);
  }

  ghost predicate NoDebt(m: Mixed) {
    0 <= m.log.received && 0 <= m.log.early && (!m.scan.Idle? ==> 0 <= m.scan.u.value)
  }

  lemma {:induction false} MovesKeepNoDebt(p: Plan, look: Look, m: Mixed, moves: seq<Move>)
    requires NoDebt(m) && forall i :: 0 <= i < |moves| ==> moves[i].Begin? ==> 0 <= moves[i].u.value
    ensures var r := FollowMixed(p, look, m, moves); r.Some? ==> NoDebt(r.value)
    decreases |moves|
  {
    if moves != [] && Possible(p, m, moves[0]) {
      assert moves[0].Begin? ==> 0 <= moves[0].u.value;
      MovesKeepNoDebt(p, look, MixedStep(p, look, m, moves[0]), moves[1..]);
    }
  }

  /** So with a send that costs something and no negative outputs, store and memory part exactly when
      different writers wrote them last. */
  lemma StorePartsIffWritersDo(p: Plan, base: Books, look: Look, scan: Crediting, moves: seq<Move>)
    requires Launchable(p, base, look) && Launches(base, scan) && base.balance > p.newBalance
    requires scan.Idle? || 0 <= scan.u.value
    requires forall i :: 0 <= i < |moves| ==> Arrives(moves[i])
    requires forall i :: 0 <= i < |moves| ==> moves[i].Begin? ==> 0 <= moves[i].u.value
    requires FollowMixed(p, look, Begun(base, scan), moves).Some?
    requires var m := FollowMixed(p, look, Begun(base, scan), moves).value;
      Over(p, m) && IsInt64(m.log.put) && IsInt64(m.s.books.balance)
    ensures var m := FollowMixed(p, look, Begun(base, scan), moves).value;
      m.s.books.storedBalance == Int64ToBytes(m.s.books.balance) <==> m.log.putBy == m.log.keptBy
  {
    var m := FollowMixed(p, look, Begun(base, scan), moves).value;
    OverlapInTheStore(p, base, look, scan, moves);
    MovesKeepNoDebt(p, look, Begun(base, scan), moves);
    if m.s.books.storedBalance == Int64ToBytes(m.s.books.balance) {
      Int64Injective(m.log.put, m.s.books.balance);
    }
  }

  /** A credit can straddle: all else being over, one output whose balance is read before, and kept after,
      the two steps of the balance task. */
  lemma DeductionCanBeUndone(p: Plan, base: Books, look: Look, pending: int, m: Mixed, u: UTXO)
    requires Launchable(p, base, look) && Within(p, base, look, pending, m) && m.scan.Idle? && !u.spent
    requires m.s.tasks.marked == |p.used| && m.s.tasks.changes == 2 && m.s.tasks.balances == 0
    ensures var read := CreditStep(CreditStep(MixedStep(p, look, m, Begin(u))));
      var written := MixedStep(p, look, MixedStep(p, look, read, Settle(BalanceTask)), Settle(BalanceTask));
      var r := CreditStep(CreditStep(written));
      && Over(p, r) && r.log.straddle == Undone
      && r.s.books.balance == base.balance + m.log.received + u.value
  {
  }
}
