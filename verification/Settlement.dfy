/** The three tasks a send leaves behind, and every way they can interleave (wallet/tx.go). */
module Settlement {
  import opened Text
  import opened StoreCodec
  import opened Coins
  import opened Node
  import opened Transactions
  import opened Ledger

  /** What the tasks work on: the list and the balance, in memory and in the store. */
  datatype Books = Books(utxos: seq<UTXO>, balance: int, storedUTXOs: map<string, UTXO>, storedBalance: Bytes8)

  function BooksOf(w: Wallet): Books {
    Books(w.utxos, w.balance, w.store.utxos, w.store.balance)
  }

  function WithBooks(w: Wallet, b: Books): Wallet {
    w.(utxos := b.utxos, balance := b.balance,
       store := w.store.(utxos := b.storedUTXOs, balance := b.storedBalance))
  }

  /** What updateWalletAfterTx hands to the tasks, and which of their writes will succeed. */
  datatype Plan = Plan(
    used: seq<UTXO>,
    txid: string,
    changeOutput: TxOut,
    changeIdx: uint32,
    newBalance: int,
    markSaved: nat -> bool,
    changeSaved: bool,
    balanceSaved: bool)

  ghost predicate AllSaved(p: Plan) {
    p.changeSaved && p.balanceSaved && forall j :: p.markSaved(j)
  }

  /** What addChangeUTXO makes of the change output: a script without an address makes it panic,
      one that does not parse or pays no key of the wallet adds nothing. */
  datatype Look = Panics | Nothing | Change(u: UTXO)

  function LookAt(env: Env, keys: Keys, cursor: seq<string>, p: Plan): Look {
    match env.info(p.changeOutput.script)
    case Malformed => Nothing
    case NoAddress => Panics
    case Pays(_, address) =>
      var path := PathFor(keys, cursor, address);
      if path == "" then Nothing
      else Change(NewUTXO(p.txid, p.changeIdx, p.changeOutput.value, p.changeOutput.script, path))
  }

  /// Steps

  /** Program counters. Every write is two steps: the store first, then memory. */
  datatype Tasks = Tasks(put: nat, marked: nat, hit: Option<nat>, changes: nat, added: Option<UTXO>, balances: nat)

  datatype Settling = Settling(books: Books, tasks: Tasks)

  datatype Task = MarkTask | ChangeTask | BalanceTask

  function Unstarted(): Tasks {
    Tasks(0, 0, None, 0, None, 0)
  }

  predicate Done(p: Plan, t: Tasks) {
    t.marked == |p.used| && t.changes == 2 && t.balances == 2
  }

  /** The index of the first entry with the TxID, or the length. */
  function FirstWith(us: seq<UTXO>, txid: string): (i: nat)
    ensures i <= |us|
    ensures i < |us| ==> us[i].txid == txid
    ensures forall k :: 0 <= k < i ==> us[k].txid != txid
  {
    if us == [] || us[0].txid == txid then 0 else 1 + FirstWith(us[1..], txid)
  }

  predicate Enabled(p: Plan, t: Tasks, task: Task) {
    match task
    case MarkTask => t.marked < |p.used|
    case ChangeTask => t.changes < 2
    case BalanceTask => t.balances < 2
  }

  /** The entry the next mark will flag, if its store write goes through: only an outpoint already
      in the bucket is rewritten. */
  function Target(p: Plan, us: seq<UTXO>, stored: map<string, UTXO>, j: nat): Option<nat>
    requires j < |p.used|
  {
    var i := FirstWith(us, p.used[j].txid);
    if i < |us| && p.markSaved(j) && Outpoint(p.used[j]) in stored then Some(i) else None
  }

  function MarkStep(p: Plan, s: Settling): Settling
    requires s.tasks.marked < |p.used|
  {
    var b, t := s.books, s.tasks;
    if t.put == t.marked then
      var u := p.used[t.marked];
      var hit := Target(p, b.utxos, b.storedUTXOs, t.marked);
      Settling(if hit.Some? then b.(storedUTXOs := b.storedUTXOs[Outpoint(u) := u]) else b,
               t.(put := t.put + 1, hit := hit))
    else
      Settling(if t.hit.Some? && t.hit.value < |b.utxos|
               then b.(utxos := b.utxos[t.hit.value := b.utxos[t.hit.value].(spent := true)]) else b,
               t.(marked := t.marked + 1, hit := None))
  }

  function ChangeStep(p: Plan, look: Look, s: Settling): Settling {
    var b, t := s.books, s.tasks;
    if t.changes == 0 then
      if look.Change? && p.changeSaved
      then Settling(b.(storedUTXOs := b.storedUTXOs[Outpoint(look.u) := look.u]),
                    t.(changes := 1, added := Some(look.u)))
      else Settling(b, t.(changes := 1, added := None))
    else
      Settling(if t.added.Some? then b.(utxos := b.utxos + [t.added.value]) else b, t.(changes := 2))
  }

  function BalanceStep(p: Plan, s: Settling): Settling {
    var b, t := s.books, s.tasks;
    if t.balances == 0 then
      Settling(if p.balanceSaved then b.(storedBalance := Int64ToBytes(p.newBalance)) else b, t.(balances := 1))
    else
      Settling(if p.balanceSaved then b.(balance := p.newBalance) else b, t.(balances := 2))
  }

  function Step(p: Plan, look: Look, s: Settling, task: Task): Settling
    requires Enabled(p, s.tasks, task)
  {
    match task
    case MarkTask => MarkStep(p, s)
    case ChangeTask => ChangeStep(p, look, s)
    case BalanceTask => BalanceStep(p, s)
  }

  /// Where any schedule stands, in closed form

  /** The list after the first n marks. */
  function Marked(p: Plan, base: Books, n: nat): (us: seq<UTXO>)
    requires n <= |p.used|
    ensures |us| == |base.utxos|
  {
    if n == 0 then base.utxos
    else
      var us := Marked(p, base, n - 1);
      match Target(p, base.utxos, base.storedUTXOs, n - 1)
      case None => us
      case Some(i) => us[i := us[i].(spent := true)]
  }

  /** The bucket after the first n marks: the entries as they were selected, written again. */
  function Rewritten(p: Plan, base: Books, n: nat): map<string, UTXO>
    requires n <= |p.used|
  {
    if n == 0 then base.storedUTXOs
    else
      var stored := Rewritten(p, base, n - 1);
      var u := p.used[n - 1];
      if Target(p, base.utxos, base.storedUTXOs, n - 1).Some? then stored[Outpoint(u) := u] else stored
  }

  /** The change entry the change task adds, if any. */
  function Added(p: Plan, look: Look): Option<UTXO> {
    if look.Change? && p.changeSaved then Some(look.u) else None
  }

  function WithAdded(us: seq<UTXO>, added: Option<UTXO>): seq<UTXO> {
    if added.Some? then us + [added.value] else us
  }

  function WithStored(stored: map<string, UTXO>, added: Option<UTXO>): map<string, UTXO> {
    if added.Some? then stored[Outpoint(added.value) := added.value] else stored
  }

  function BooksAt(p: Plan, base: Books, look: Look, t: Tasks): Books
    requires t.marked <= |p.used| && t.put <= |p.used|
  {
    var added := Added(p, look);
    Books(if t.changes == 2 then WithAdded(Marked(p, base, t.marked), added) else Marked(p, base, t.marked),
          if t.balances == 2 && p.balanceSaved then p.newBalance else base.balance,
          if t.changes >= 1 then WithStored(Rewritten(p, base, t.put), added) else Rewritten(p, base, t.put),
          if t.balances >= 1 && p.balanceSaved then Int64ToBytes(p.newBalance) else base.storedBalance)
  }

  ghost predicate At(p: Plan, base: Books, look: Look, s: Settling) {
    var t := s.tasks;
    && t.marked <= t.put <= t.marked + 1 && t.put <= |p.used| && t.changes <= 2 && t.balances <= 2
    && (t.put == t.marked + 1 ==> t.hit == Target(p, base.utxos, base.storedUTXOs, t.marked))
    && (t.changes >= 1 ==> t.added == Added(p, look))
    && s.books == BooksAt(p, base, look, t)
  }

  /** Each UTXO used is in the list, and the change has an outpoint of its own. */
  ghost predicate Ready(p: Plan, base: Books, look: Look) {
    && (forall j :: 0 <= j < |p.used| ==> FirstWith(base.utxos, p.used[j].txid) < |base.utxos|)
    && (Added(p, look).Some? ==> Outpoint(look.u) !in Outpoints(p.used))
  }

  lemma {:induction false} FirstWithGrows(us: seq<UTXO>, vs: seq<UTXO>, more: seq<UTXO>, txid: string)
    requires |us| == |vs| && forall i :: 0 <= i < |us| ==> us[i].txid == vs[i].txid
    requires FirstWith(us, txid) < |us|
    ensures FirstWith(vs + more, txid) == FirstWith(us, txid)
  {
    assert (vs + more)[0] == vs[0];
    if us[0].txid != txid {
      assert (vs + more)[1..] == vs[1..] + more;
      FirstWithGrows(us[1..], vs[1..], more, txid);
    }
  }

  /** Marks flag entries, and change nothing else about them. */
  lemma {:induction false} MarkedIs(p: Plan, base: Books, n: nat)
    requires n <= |p.used|
    ensures forall i :: 0 <= i < |base.utxos| ==>
      Marked(p, base, n)[i] == base.utxos[i].(spent := base.utxos[i].spent || MarkedBy(p, base, n, i))
  {
    if n > 0 {
      MarkedIs(p, base, n - 1);
      forall i | 0 <= i < |base.utxos|
        ensures Marked(p, base, n)[i] == base.utxos[i].(spent := base.utxos[i].spent || MarkedBy(p, base, n, i))
      {
        MarkedByNext(p, base, n, i);
      }
    }
  }

  /** One of the first n marks flags entry i. */
  ghost predicate MarkedBy(p: Plan, base: Books, n: nat, i: nat)
    requires n <= |p.used|
  {
    exists j :: 0 <= j < n && Target(p, base.utxos, base.storedUTXOs, j) == Some(i)
  }

  lemma MarkedByNext(p: Plan, base: Books, n: nat, i: nat)
    requires 0 < n <= |p.used|
    ensures MarkedBy(p, base, n, i)
       <==> MarkedBy(p, base, n - 1, i) || Target(p, base.utxos, base.storedUTXOs, n - 1) == Some(i)
  {
  }

  lemma {:induction false} RewrittenKeys(p: Plan, base: Books, n: nat)
    requires n <= |p.used|
    ensures Rewritten(p, base, n).Keys == base.storedUTXOs.Keys
  {
    if n > 0 {
      RewrittenKeys(p, base, n - 1);
    }
  }

  /** Mark j rewrites the entry under the key. */
  predicate Rewrites(p: Plan, base: Books, j: nat, key: string)
    requires j < |p.used|
  {
    Outpoint(p.used[j]) == key && Target(p, base.utxos, base.storedUTXOs, j).Some?
  }

  /** The last of the first n marks to do so. */
  function LastRewrite(p: Plan, base: Books, n: nat, key: string): (last: Option<nat>)
    requires n <= |p.used|
    ensures last.Some? ==> last.value < n && Rewrites(p, base, last.value, key)
    ensures last.Some? ==> forall j :: last.value < j < n ==> !Rewrites(p, base, j, key)
    ensures last.None? ==> forall j :: 0 <= j < n ==> !Rewrites(p, base, j, key)
  {
    if n == 0 then None
    else if Rewrites(p, base, n - 1, key) then Some(n - 1) else LastRewrite(p, base, n - 1, key)
  }

  /** What the marks leave in the bucket: under the outpoint of an entry used whose mark went through, that
      entry again, as it was selected; elsewhere what was there. */
  lemma {:induction false} RewrittenIs(p: Plan, base: Books, n: nat, key: string)
    requires n <= |p.used| && key in base.storedUTXOs
    ensures key in Rewritten(p, base, n)
    ensures Rewritten(p, base, n)[key] == match LastRewrite(p, base, n, key)
      case None => base.storedUTXOs[key]
      case Some(j) => p.used[j]
  {
    if n > 0 {
      RewrittenIs(p, base, n - 1, key);
    }
  }

  /** The mark task finds the same target whatever the change task has done meanwhile. */
  lemma TargetIsStable(p: Plan, base: Books, look: Look, s: Settling)
    requires At(p, base, look, s) && Ready(p, base, look) && s.tasks.marked < |p.used|
    ensures Target(p, s.books.utxos, s.books.storedUTXOs, s.tasks.marked)
         == Target(p, base.utxos, base.storedUTXOs, s.tasks.marked)
  {
    var t := s.tasks;
    var u := p.used[t.marked];
    MarkedIs(p, base, t.marked);
    RewrittenKeys(p, base, t.put);
    assert Outpoint(u) in Outpoints(p.used);
    var more := if t.changes == 2 && Added(p, look).Some? then [look.u] else [];
    assert s.books.utxos == Marked(p, base, t.marked) + more;
    FirstWithGrows(base.utxos, Marked(p, base, t.marked), more, u.txid);
  }

  lemma PutKeepsAt(p: Plan, base: Books, look: Look, s: Settling)
    requires At(p, base, look, s) && Ready(p, base, look)
    requires s.tasks.marked < |p.used| && s.tasks.put == s.tasks.marked
    ensures At(p, base, look, MarkStep(p, s))
  {
    TargetIsStable(p, base, look, s);
    var u := p.used[s.tasks.marked];
    assert Outpoint(u) in Outpoints(p.used);
    PutsCommute(Rewritten(p, base, s.tasks.put), u, Added(p, look));
  }

  lemma FlagKeepsAt(p: Plan, base: Books, look: Look, s: Settling)
    requires At(p, base, look, s)
    requires s.tasks.marked < |p.used| && s.tasks.put == s.tasks.marked + 1
    ensures At(p, base, look, MarkStep(p, s))
  {
    var t := s.tasks;
    if t.hit.Some? {
      FlagsCommute(Marked(p, base, t.marked), t.hit.value, Added(p, look));
    }
  }

  lemma PutsCommute(stored: map<string, UTXO>, u: UTXO, added: Option<UTXO>)
    requires added.Some? ==> Outpoint(added.value) != Outpoint(u)
    ensures WithStored(stored, added)[Outpoint(u) := u] == WithStored(stored[Outpoint(u) := u], added)
  {
  }

  lemma FlagsCommute(us: seq<UTXO>, i: nat, added: Option<UTXO>)
    requires i < |us|
    ensures i < |WithAdded(us, added)| && WithAdded(us, added)[i] == us[i]
    ensures WithAdded(us, added)[i := us[i].(spent := true)] == WithAdded(us[i := us[i].(spent := true)], added)
  {
  }

  lemma StepKeepsAt(p: Plan, base: Books, look: Look, s: Settling, task: Task)
    requires At(p, base, look, s) && Ready(p, base, look) && Enabled(p, s.tasks, task)
    ensures At(p, base, look, Step(p, look, s, task))
    ensures Steps(Step(p, look, s, task).tasks) == Steps(s.tasks) + 1
  {
    match task
    case MarkTask =>
      if s.tasks.put == s.tasks.marked {
        PutKeepsAt(p, base, look, s);
      } else {
        FlagKeepsAt(p, base, look, s);
      }
    case ChangeTask =>
    case BalanceTask =>
  }

  /** How many steps have been taken. */
  function Steps(t: Tasks): nat {
    t.put + t.marked + t.changes + t.balances
  }

  /// Schedules

  /** Runs a schedule; None if it asks for a step of a task that is over. */
  function Follow(p: Plan, look: Look, s: Settling, schedule: seq<Task>): Option<Settling>
    decreases |schedule|
  {
    if schedule == [] then Some(s)
    else if !Enabled(p, s.tasks, schedule[0]) then None
    else Follow(p, look, Step(p, look, s, schedule[0]), schedule[1..])
  }

  function Start(base: Books): Settling {
    Settling(base, Unstarted())
  }

  lemma {:induction false} RunKeepsAt(p: Plan, base: Books, look: Look, s: Settling, schedule: seq<Task>)
    requires At(p, base, look, s) && Ready(p, base, look)
    ensures var r := Follow(p, look, s, schedule);
      r.Some? ==> At(p, base, look, r.value) && Steps(r.value.tasks) == Steps(s.tasks) + |schedule|
    decreases |schedule|
  {
    if schedule != [] && Enabled(p, s.tasks, schedule[0]) {
      StepKeepsAt(p, base, look, s, schedule[0]);
      RunKeepsAt(p, base, look, Step(p, look, s, schedule[0]), schedule[1..]);
    }
  }

  /** The books once every task has run. */
  function Settled(p: Plan, base: Books, look: Look): Books {
    var added := Added(p, look);
    Books(WithAdded(Marked(p, base, |p.used|), added),
          if p.balanceSaved then p.newBalance else base.balance,
          WithStored(Rewritten(p, base, |p.used|), added),
          if p.balanceSaved then Int64ToBytes(p.newBalance) else base.storedBalance)
  }

  lemma DoneIsSettled(p: Plan, base: Books, look: Look, s: Settling)
    requires At(p, base, look, s)
    ensures Done(p, s.tasks) <==> Steps(s.tasks) == 2 * |p.used| + 4
    ensures Done(p, s.tasks) ==> s.books == Settled(p, base, look)
  {
  }

  lemma StartsAt(p: Plan, base: Books, look: Look)
    ensures At(p, base, look, Start(base)) && Steps(Start(base).tasks) == 0
  {
  }

  lemma FollowedToTheEnd(p: Plan, base: Books, look: Look, s: Settling, schedule: seq<Task>, r: Settling)
    requires At(p, base, look, s) && Steps(s.tasks) == 0 && Ready(p, base, look)
    requires Follow(p, look, s, schedule) == Some(r)
    ensures Done(p, r.tasks) <==> |schedule| == 2 * |p.used| + 4
    ensures Done(p, r.tasks) ==> r.books == Settled(p, base, look)
  {
    RunKeepsAt(p, base, look, s, schedule);
    DoneIsSettled(p, base, look, r);
  }

  /** Confluence: whichever writes fail, every schedule that runs all tasks to their end takes the
      same number of steps and leaves the same books, in memory and in the store. */
  lemma EveryScheduleSettlesAlike(p: Plan, base: Books, look: Look, schedule: seq<Task>, r: Settling)
    requires Ready(p, base, look) && Follow(p, look, Start(base), schedule) == Some(r)
    ensures Done(p, r.tasks) <==> |schedule| == 2 * |p.used| + 4
    ensures Done(p, r.tasks) ==> r.books == Settled(p, base, look)
  {
    StartsAt(p, base, look);
    FollowedToTheEnd(p, base, look, Start(base), schedule, r);
  }

  /// Conservation

  /** The value of the used UTXOs whose mark is in memory. */
  function MarkedValue(p: Plan, base: Books, n: nat): int
    requires n <= |p.used|
  {
    if n == 0 then 0
    else
      var value := if Target(p, base.utxos, base.storedUTXOs, n - 1).Some? then p.used[n - 1].value else 0;
      MarkedValue(p, base, n - 1) + value
  }

  /** The UTXOs used are unspent entries of the list, each once. */
  ghost predicate Spends(used: seq<UTXO>, us: seq<UTXO>) {
    && (forall j :: 0 <= j < |used| ==> used[j] in us && !used[j].spent)
    && DistinctOutpoints(used)
  }

  lemma FirstWithOwnTxid(us: seq<UTXO>, u: UTXO)
    requires DistinctTxids(us) && u in us
    ensures FirstWith(us, u.txid) < |us| && us[FirstWith(us, u.txid)] == u
  {
    var k :| 0 <= k < |us| && us[k] == u;
    OnlyWithTxid(us, u, k, FirstWith(us, u.txid));
  }

  lemma OnlyWithTxid(us: seq<UTXO>, u: UTXO, k: nat, i: nat)
    requires DistinctTxids(us) && k < |us| && us[k] == u
    requires i < |us| ==> us[i].txid == u.txid
    requires i <= |us| && forall j :: 0 <= j < i ==> us[j].txid != u.txid
    ensures i == k
  {
  }

  lemma TargetsDiffer(p: Plan, base: Books, j: nat, n: nat)
    requires j < n < |p.used| && DistinctTxids(base.utxos) && Spends(p.used, base.utxos)
    requires Target(p, base.utxos, base.storedUTXOs, n).Some?
    ensures Target(p, base.utxos, base.storedUTXOs, j) != Target(p, base.utxos, base.storedUTXOs, n)
  {
    FirstWithOwnTxid(base.utxos, p.used[j]);
    FirstWithOwnTxid(base.utxos, p.used[n]);
    assert Outpoint(p.used[j]) != Outpoint(p.used[n]);
  }

  lemma NextMarkIsFresh(p: Plan, base: Books, n: nat)
    requires n < |p.used| && DistinctTxids(base.utxos) && Spends(p.used, base.utxos)
    requires Target(p, base.utxos, base.storedUTXOs, n).Some?
    ensures Marked(p, base, n)[Target(p, base.utxos, base.storedUTXOs, n).value] == p.used[n]
  {
    var i := Target(p, base.utxos, base.storedUTXOs, n).value;
    FirstWithOwnTxid(base.utxos, p.used[n]);
    MarkedIs(p, base, n);
    forall j | 0 <= j < n ensures Target(p, base.utxos, base.storedUTXOs, j) != Some(i) {
      TargetsDiffer(p, base, j, n);
    }
  }

  ghost predicate MarkTakes(p: Plan, base: Books, n: nat)
    requires n < |p.used|
  {
    SumUnspent(Marked(p, base, n)) - SumUnspent(Marked(p, base, n + 1))
    == MarkedValue(p, base, n + 1) - MarkedValue(p, base, n)
  }

  lemma OneMarkTakesItsValue(p: Plan, base: Books, n: nat)
    requires n < |p.used| && DistinctTxids(base.utxos) && Spends(p.used, base.utxos)
    ensures MarkTakes(p, base, n)
  {
    var target := Target(p, base.utxos, base.storedUTXOs, n);
    if target.Some? {
      var us := Marked(p, base, n);
      NextMarkIsFresh(p, base, n);
      SumUnspentUpdate(us, target.value, us[target.value].(spent := true));
    }
  }

  lemma {:induction false} MarksAddUp(p: Plan, base: Books, n: nat)
    requires n <= |p.used| && forall k :: 0 <= k < n ==> MarkTakes(p, base, k)
    ensures SumUnspent(Marked(p, base, n)) == SumUnspent(base.utxos) - MarkedValue(p, base, n)
  {
    if n > 0 {
      MarksAddUp(p, base, n - 1);
      assert MarkTakes(p, base, n - 1);
    }
  }

  /** With distinct TxIDs, each mark takes the value of its own UTXO off the unspent sum. */
  lemma MarksTakeTheirValue(p: Plan, base: Books, n: nat)
    requires n <= |p.used| && DistinctTxids(base.utxos) && Spends(p.used, base.utxos)
    ensures SumUnspent(Marked(p, base, n)) == SumUnspent(base.utxos) - MarkedValue(p, base, n)
  {
    forall k | 0 <= k < n ensures MarkTakes(p, base, k) {
      OneMarkTakesItsValue(p, base, k);
    }
    MarksAddUp(p, base, n);
  }

  /** How far the balance is from the unspent entries. */
  function Drift(b: Books): int {
    b.balance - SumUnspent(b.utxos)
  }

  /** Conservation at every step of every interleaving, whichever writes fail: the drift is what it
      was, plus what has been marked, less the change once added, less what the balance gave up
      once written. */
  lemma ConservedAt(p: Plan, base: Books, look: Look, s: Settling)
    requires At(p, base, look, s) && DistinctTxids(base.utxos) && Spends(p.used, base.utxos)
    requires Added(p, look).Some? ==> !look.u.spent
    ensures Drift(s.books) == Drift(base) + MarkedValue(p, base, s.tasks.marked)
      - (if s.tasks.changes == 2 && Added(p, look).Some? then look.u.value else 0)
      - (if s.tasks.balances == 2 && p.balanceSaved then base.balance - p.newBalance else 0)
  {
    var us := Marked(p, base, s.tasks.marked);
    MarksTakeTheirValue(p, base, s.tasks.marked);
    if Added(p, look).Some? {
      SumPush(us, look.u);
    }
  }

  ghost predicate AllTargeted(p: Plan, base: Books) {
    forall j :: 0 <= j < |p.used| ==> Target(p, base.utxos, base.storedUTXOs, j).Some?
  }

  lemma WorkingMarksAreTargeted(p: Plan, base: Books)
    requires AllSaved(p)
    requires forall j :: 0 <= j < |p.used| ==> p.used[j] in base.utxos && Outpoint(p.used[j]) in base.storedUTXOs
    ensures AllTargeted(p, base)
  {
    forall j | 0 <= j < |p.used| ensures Target(p, base.utxos, base.storedUTXOs, j).Some? {
      HasFirst(base.utxos, p.used[j]);
      assert p.markSaved(j);
    }
  }

  lemma {:induction false} AllMarked(p: Plan, base: Books, n: nat)
    requires n <= |p.used| && AllTargeted(p, base)
    ensures MarkedValue(p, base, n) == Sum(p.used[..n])
  {
    if n > 0 {
      AllMarked(p, base, n - 1);
      assert p.used[..n] == p.used[..n - 1] + [p.used[n - 1]];
      SumPush(p.used[..n - 1], p.used[n - 1]);
    }
  }

  lemma HasFirst(us: seq<UTXO>, u: UTXO)
    requires u in us
    ensures FirstWith(us, u.txid) < |us|
  {
    var k :| 0 <= k < |us| && us[k] == u;
  }

  /** When every write succeeds and the inputs are worth the balance given up plus the change, the
      settled books drift no more than the books the send started from. */
  lemma SettledConserves(p: Plan, base: Books, look: Look)
    requires AllSaved(p) && look.Change? && !look.u.spent
    requires DistinctTxids(base.utxos) && Spends(p.used, base.utxos)
    requires forall j :: 0 <= j < |p.used| ==> Outpoint(p.used[j]) in base.storedUTXOs
    requires Sum(p.used) == base.balance - p.newBalance + look.u.value
    ensures Drift(Settled(p, base, look)) == Drift(base)
  {
    WorkingMarksAreTargeted(p, base);
    AllMarked(p, base, |p.used|);
    assert p.used[..|p.used|] == p.used;
    MarksTakeTheirValue(p, base, |p.used|);
    SumPush(Marked(p, base, |p.used|), look.u);
  }

  /** When writes fail, the settled books conserve exactly when the failures cancel out. */
  lemma FailuresMustCancel(p: Plan, base: Books, look: Look)
    requires DistinctTxids(base.utxos) && Spends(p.used, base.utxos)
    requires look.Change? && !look.u.spent
    requires Sum(p.used) == base.balance - p.newBalance + look.u.value
    ensures Drift(Settled(p, base, look)) == Drift(base)
       <==> Sum(p.used) - MarkedValue(p, base, |p.used|)
            == (if p.changeSaved then 0 else look.u.value)
             + (if p.balanceSaved then 0 else base.balance - p.newBalance)
  {
    MarksTakeTheirValue(p, base, |p.used|);
    SumPush(Marked(p, base, |p.used|), look.u);
  }

  /// Marking by TxID alone

  /** The marks flag the entries used, and no other, exactly when each entry used is the first with
      its TxID. */
  lemma MarksHitIffFirst(p: Plan, base: Books)
    requires AllSaved(p) && DistinctOutpoints(base.utxos) && Spends(p.used, base.utxos)
    requires forall j :: 0 <= j < |p.used| ==> Outpoint(p.used[j]) in base.storedUTXOs
    ensures (forall i :: 0 <= i < |base.utxos| ==>
               (Marked(p, base, |p.used|)[i].spent <==> base.utxos[i].spent || base.utxos[i] in p.used))
       <==> (forall j :: 0 <= j < |p.used| ==> FirstOfItsTxid(base.utxos, p.used[j]))
  {
    MarkedIs(p, base, |p.used|);
    var n := |p.used|;
    forall j | 0 <= j < n
      ensures Target(p, base.utxos, base.storedUTXOs, j) == Some(FirstWith(base.utxos, p.used[j].txid))
    {
      HasFirst(base.utxos, p.used[j]);
      assert p.markSaved(j);
    }
    if forall j :: 0 <= j < n ==> FirstOfItsTxid(base.utxos, p.used[j]) {
      forall i | 0 <= i < |base.utxos|
        ensures Marked(p, base, n)[i].spent <==> base.utxos[i].spent || base.utxos[i] in p.used
      {
        FirstMarksExactly(p, base, i);
      }
    } else {
      var j :| 0 <= j < n && !FirstOfItsTxid(base.utxos, p.used[j]);
      ShadowedStaysUnmarked(p, base, j);
    }
  }

  predicate FirstOfItsTxid(us: seq<UTXO>, u: UTXO) {
    var i := FirstWith(us, u.txid);
    i < |us| && us[i] == u
  }

  lemma FirstMarksExactly(p: Plan, base: Books, i: nat)
    requires i < |base.utxos| && DistinctOutpoints(base.utxos)
    requires forall j :: 0 <= j < |p.used| ==>
      FirstOfItsTxid(base.utxos, p.used[j])
      && Target(p, base.utxos, base.storedUTXOs, j) == Some(FirstWith(base.utxos, p.used[j].txid))
    ensures MarkedBy(p, base, |p.used|, i) <==> base.utxos[i] in p.used
  {
    if base.utxos[i] in p.used {
      var j :| 0 <= j < |p.used| && p.used[j] == base.utxos[i];
      var k := FirstWith(base.utxos, p.used[j].txid);
      assert FirstOfItsTxid(base.utxos, p.used[j]);
      assert k == i;
    }
    if MarkedBy(p, base, |p.used|, i) {
      var j :| 0 <= j < |p.used| && Target(p, base.utxos, base.storedUTXOs, j) == Some(i);
      assert FirstOfItsTxid(base.utxos, p.used[j]);
    }
  }

  lemma ShadowedStaysUnmarked(p: Plan, base: Books, j: nat)
    requires j < |p.used| && Spends(p.used, base.utxos) && !FirstOfItsTxid(base.utxos, p.used[j])
    ensures exists i :: 0 <= i < |base.utxos| && base.utxos[i] in p.used && !Marked(p, base, |p.used|)[i].spent
  {
    var u := p.used[j];
    assert u in base.utxos && !u.spent;
    var i :| 0 <= i < |base.utxos| && base.utxos[i] == u;
    MarkedIs(p, base, |p.used|);
    assert !MarkedBy(p, base, |p.used|, i);
    assert base.utxos[i] in p.used;
  }

  lemma TwoUnspent(a: UTXO, b: UTXO)
    ensures SumUnspent([a, b]) == (if a.spent then 0 else a.value) + (if b.spent then 0 else b.value)
  {
    SumPush([], a);
    SumPush([a], b);
    assert [] + [a] == [a] && [a] + [b] == [a, b];
  }

  /** Two outputs of one transaction: spending the second flags the first. */
  lemma SharedTxidMarksTheWrongEntry(p: Plan, base: Books, a: UTXO, b: UTXO)
    requires a == NewUTXO("t", 0, 5, [], "") && b == NewUTXO("t", 1, 7, [], "")
    requires base.utxos == [a, b] && p.used == [b] && AllSaved(p) && Outpoint(b) in base.storedUTXOs
    ensures Marked(p, base, 1) == [a.(spent := true), b]
    ensures SumUnspent(Marked(p, base, 1)) == 7 && SumUnspent(base.utxos) - b.value == 5
  {
    assert FirstWith(base.utxos, "t") == 0;
    assert p.markSaved(0);
    assert Marked(p, base, 0) == base.utxos;
    assert Marked(p, base, 1) == [a, b][0 := a.(spent := true)];
    TwoUnspent(a, b);
    TwoUnspent(a.(spent := true), b);
  }
}
