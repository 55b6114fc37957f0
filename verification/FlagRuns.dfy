/** The Spent flags over whole runs, and with them the balance as the sum of unspent entries. */
module FlagRuns {
  import opened Text
  import opened Coins
  import opened CoinSelection
  import opened Node
  import opened Ledger
  import opened Scanning
  import opened Settlement
  import opened KeyInvariants
  import opened Reload
  import opened Accounts
  import opened Runs
  import opened LedgerRuns

  /** An entry is flagged exactly when its outpoint is spent and no restart has forgotten so. */
  ghost predicate FlagsRight(us: seq<UTXO>, spent: set<string>, forgotten: set<string>) {
    && DistinctTxids(us)
    && forall i :: 0 <= i < |us| ==> (us[i].spent <==> Outpoint(us[i]) in spent - forgotten)
  }

  ghost predicate Flagged(env: Env, s: System) {
    && Real(env, s)
    && (s.flights == [] ==> s.forgotten <= s.spent && FlagsRight(s.w.utxos, s.spent, s.forgotten))
    && (s.flights != [] ==>
          var f := s.flights[0];
          s.forgotten <= f.spentBefore && FlagsRight(f.base.utxos, f.spentBefore, s.forgotten))
  }

  /** On top of what every run is asked, no two entries may share a TxID. */
  ghost predicate AllowedFlagged(env: Env, s: System, e: Event) {
    Allowed(env, s, e) && (e.ScanNext? || e.NotifyBlock? ==> DistinctTxids(Exec(env, s, e).w.utxos))
  }

  ghost predicate AllowedFlaggedRun(env: Env, s: System, events: seq<Event>)
    decreases |events|
  {
    events == []
    || (AllowedFlagged(env, s, events[0]) && AllowedFlaggedRun(env, Exec(env, s, events[0]), events[1..]))
  }

  /// Each event

  lemma FreshKeepFlags(us: seq<UTXO>, found: seq<UTXO>, spent: set<string>, forgotten: set<string>)
    requires FlagsRight(us, spent, forgotten) && DistinctTxids(us + found)
    requires forall i :: 0 <= i < |found| ==> !found[i].spent && Outpoint(found[i]) !in spent
    ensures FlagsRight(us + found, spent, forgotten)
  {
  }

  /** What a scan credits carries no flag and has not been spent. */
  lemma ScannedKeepsFlags(env: Env, s: System, block: Block)
    requires Laws(env) && Flagged(env, s) && s.flights == [] && ChainBlock(env, s, block)
    requires Real(env, Scanned(env, s, block)) && DistinctTxids(Scanned(env, s, block).w.utxos)
    ensures Flagged(env, Scanned(env, s, block))
  {
    var found := OwnedIn(env, s.w.addresses, block, 0);
    ScannedKeepsBooks(env, s, block);
    ScanIsFresh(env, s, block);
    FreshAreNotSpent(s.w.utxos, found, s.spent);
    forall i | 0 <= i < |found| ensures !found[i].spent {
      assert found[i] in found;
    }
    FreshKeepFlags(s.w.utxos, found, s.spent, s.forgotten);
  }

  lemma ScanKeepsFlags(env: Env, s: System, e: Event, s1: System)
    requires Laws(env) && Flagged(env, s) && AllowedFlagged(env, s, e) && (e.ScanNext? || e.NotifyBlock?)
    requires s1 == Exec(env, s, e) && Real(env, s1)
    ensures Flagged(env, s1)
  {
    if e.ScanNext? {
      ScanIsScanned(env, s, e.block, e.ok, s1);
      ScannedKeepsFlags(env, s, e.block);
    } else {
      NotifiedIsScanned(env, s, e.txs, e.ok, s1);
      ScannedKeepsFlags(env, s, e.txs);
    }
  }

  lemma UsedByOutpoint(us: seq<UTXO>, used: seq<UTXO>, i: nat)
    requires i < |us| && DistinctOutpoints(us) && forall j :: 0 <= j < |used| ==> used[j] in us
    ensures Outpoint(us[i]) in Outpoints(used) <==> us[i] in used
  {
    if Outpoint(us[i]) in Outpoints(used) {
      var u :| u in used && Outpoint(u) == Outpoint(us[i]);
      SameOutpointSameEntry(us, us[i], u);
    }
  }

  lemma WorkingTargets(p: Plan, base: Books)
    requires AllSaved(p) && DistinctTxids(base.utxos) && ListStored(base.utxos, base.storedUTXOs)
    requires forall j :: 0 <= j < |p.used| ==> p.used[j] in base.utxos
    ensures forall j :: 0 <= j < |p.used| ==>
      && FirstOfItsTxid(base.utxos, p.used[j])
      && Target(p, base.utxos, base.storedUTXOs, j) == Some(FirstWith(base.utxos, p.used[j].txid))
  {
    forall j | 0 <= j < |p.used|
      ensures FirstOfItsTxid(base.utxos, p.used[j])
      ensures Target(p, base.utxos, base.storedUTXOs, j) == Some(FirstWith(base.utxos, p.used[j].txid))
    {
      FirstWithOwnTxid(base.utxos, p.used[j]);
      assert p.markSaved(j);
      var k := FirstWith(base.utxos, p.used[j].txid);
      assert Outpoint(base.utxos[k]) in base.storedUTXOs;
    }
  }

  lemma SettledTxidsDistinct(p: Plan, base: Books, look: Look)
    requires DistinctTxids(base.utxos) && look.Change? && p.changeSaved
    requires forall i :: 0 <= i < |base.utxos| ==> base.utxos[i].txid != look.u.txid
    ensures DistinctTxids(Settled(p, base, look).utxos)
  {
    MarkedIs(p, base, |p.used|);
  }

  /** The settled flags are right: those there were, and those of the entries used. */
  lemma SettlingKeepsFlags(p: Plan, base: Books, look: Look, spent: set<string>, forgotten: set<string>)
    requires RealBooks(base, spent) && SettlesFairly(p, base, look, spent)
    requires FlagsRight(base.utxos, spent, forgotten) && forgotten <= spent
    ensures FlagsRight(Settled(p, base, look).utxos, spent + Outpoints(p.used), forgotten)
  {
    var us := Settled(p, base, look).utxos;
    SettledTxidsDistinct(p, base, look);
    WorkingTargets(p, base);
    forall i | 0 <= i < |us| ensures us[i].spent <==> Outpoint(us[i]) in spent + Outpoints(p.used) - forgotten {
      if i < |base.utxos| {
        SettledFlag(p, base, look, spent, forgotten, i);
      } else {
        FreshTxidFreshOutpoint(base.utxos, look.u);
        UsedAreListed(p.used, base.utxos);
      }
    }
  }

  lemma SettledFlag(p: Plan, base: Books, look: Look, spent: set<string>, forgotten: set<string>, i: nat)
    requires RealBooks(base, spent) && SettlesFairly(p, base, look, spent)
    requires FlagsRight(base.utxos, spent, forgotten) && forgotten <= spent && i < |base.utxos|
    requires forall j :: 0 <= j < |p.used| ==>
      && FirstOfItsTxid(base.utxos, p.used[j])
      && Target(p, base.utxos, base.storedUTXOs, j) == Some(FirstWith(base.utxos, p.used[j].txid))
    ensures var u := Settled(p, base, look).utxos[i];
      u.spent <==> Outpoint(u) in spent + Outpoints(p.used) - forgotten
  {
    MarkedIs(p, base, |p.used|);
    FirstMarksExactly(p, base, i);
    UsedByOutpoint(base.utxos, p.used, i);
    if base.utxos[i] in p.used {
      var j :| 0 <= j < |p.used| && p.used[j] == base.utxos[i];
      assert Outpoint(p.used[j]) !in spent;
    }
  }

  /** Every settlement step but the first of the change task is the step of a task. */
  lemma StepOfTask(env: Env, s: System, f: Flight, e: Event, task: Task)
    requires |s.flights| == 1 && s.flights[0] == f
    requires Enabled(f.plan, f.tasks, task) && f.tasks.changes >= 1
    requires match task case MarkTask => e.MarkNext? case ChangeTask => e.ChangeNext? case BalanceTask => e.BalanceNext?
    ensures SettlementStep(env, s, 0, e)
         == Resumed(s, 0, f, Step(f.plan, f.look, Settling(BooksOf(s.w), f.tasks), task))
  {
  }

  /** A settlement step leaves the flight's base alone, or ends the flight after its change was looked up. */
  lemma StepKeepsBase(env: Env, s: System, f: Flight, e: Event)
    requires |s.flights| == 1 && s.flights[0] == f && f.tasks.changes <= 2 && !Done(f.plan, f.tasks)
    ensures var s1 := SettlementStep(env, s, 0, e);
      && s1.spent == s.spent && s1.forgotten == s.forgotten && |s1.flights| <= 1
      && (s1.flights != [] ==> s1.flights[0].base == f.base && s1.flights[0].spentBefore == f.spentBefore)
      && (s1.flights == [] ==>
            && f.tasks.changes >= 1
            && (if e.MarkNext? then Enabled(f.plan, f.tasks, MarkTask)
                else if e.ChangeNext? then Enabled(f.plan, f.tasks, ChangeTask)
                else e.BalanceNext? && Enabled(f.plan, f.tasks, BalanceTask)))
  {
  }

  /** When the flight ends, it does so at the settled books. */
  lemma FlightEndsSettled(env: Env, s: System, f: Flight, e: Event)
    requires Real(env, s) && |s.flights| == 1 && s.flights[0] == f
    requires SettlementStep(env, s, 0, e).flights == []
    ensures SettlesFairly(f.plan, f.base, f.look, f.spentBefore)
    ensures BooksOf(SettlementStep(env, s, 0, e).w) == Settled(f.plan, f.base, f.look)
  {
    StepKeepsBase(env, s, f, e);
    var task := if e.MarkNext? then MarkTask else if e.ChangeNext? then ChangeTask else BalanceTask;
    StepOfTask(env, s, f, e, task);
    FairWhenReal(env, s, f);
    FlightIsReady(env, s, f);
    StepKeepsAt(f.plan, f.base, f.look, Settling(BooksOf(s.w), f.tasks), task);
    EndedIsSettled(s, f, Step(f.plan, f.look, Settling(BooksOf(s.w), f.tasks), task));
  }

  lemma EndedIsSettled(s: System, f: Flight, r: Settling)
    requires |s.flights| == 1 && At(f.plan, f.base, f.look, r) && Resumed(s, 0, f, r).flights == []
    ensures BooksOf(Resumed(s, 0, f, r).w) == Settled(f.plan, f.base, f.look)
  {
    LoneFlightLands(s, f, r);
    DoneIsSettled(f.plan, f.base, f.look, r);
  }

  lemma SettlementKeepsFlags(env: Env, s: System, e: Event)
    requires Laws(env) && Flagged(env, s) && |s.flights| == 1 && Allowed(env, s, e)
    requires (e.MarkNext? || e.ChangeNext? || e.BalanceNext?) && e.i == 0
    ensures Flagged(env, SettlementStep(env, s, 0, e))
  {
    var f := s.flights[0];
    var s1 := SettlementStep(env, s, 0, e);
    SettlementKeepsReal(env, s, e);
    StepKeepsBase(env, s, f, e);
    if s1.flights == [] {
      FlightEndsSettled(env, s, f, e);
      SettlingKeepsFlags(f.plan, f.base, f.look, f.spentBefore, s.forgotten);
      assert BooksOf(s1.w).utxos == s1.w.utxos;
    }
  }

  lemma RestartKeepsFlags(env: Env, s: System, e: Event)
    requires Laws(env) && Flagged(env, s) && e.Restart? && Allowed(env, s, e)
    ensures Flagged(env, RestartStep(s, e))
  {
    RestartKeepsRealRun(env, s, e);
    var s1 := RestartStep(s, e);
    if s1 != s {
      LoadedBooks(s.w, e.keyCursor, e.utxoCursor, e.height, e.saved);
      RestartedFlags(s, e.utxoCursor, s1);
    }
  }

  /** The list read back carries no flag: all that was spent is forgotten. */
  lemma RestartedFlags(s: System, cursor: seq<string>, s1: System)
    requires RealBooks(BooksOf(s.w), s.spent) && DistinctTxids(s.w.utxos) && Visits(cursor, s.w.store.utxos)
    requires s1.w.utxos == StoredUTXOs(s.w.store.utxos, cursor) && s1.spent == s.spent && s1.forgotten == s.spent
    ensures FlagsRight(s1.w.utxos, s1.spent, s1.forgotten)
  {
    ReadUTXOsExact(s.w.utxos, s.w.store.utxos, cursor);
    ReadTxidsDistinct(s.w.utxos, s1.w.utxos);
  }

  lemma ReadTxidsDistinct(us: seq<UTXO>, read: seq<UTXO>)
    requires DistinctTxids(us) && DistinctOutpoints(read) && multiset(read) == multiset(Unflagged(us))
    ensures DistinctTxids(read)
  {
    forall i, j | 0 <= i < j < |read| ensures read[i].txid != read[j].txid {
      assert read[i] in multiset(Unflagged(us)) && read[j] in multiset(Unflagged(us));
      var a :| 0 <= a < |us| && Unflagged(us)[a] == read[i];
      var b :| 0 <= b < |us| && Unflagged(us)[b] == read[j];
      assert Outpoint(read[i]) != Outpoint(read[j]);
      assert a != b;
      assert us[a].txid != us[b].txid;
    }
  }

  /** A send either launches a flight from the books as they are, or leaves books and flights alone. */
  lemma SendOutcome(env: Env, s: System, call: SendCall)
    requires SendAllowed(env, s, call)
    ensures var s1 := SendStep(env, s, call);
      && s1.forgotten == s.forgotten
      && (s1.flights == s.flights ==> s1.w.utxos == s.w.utxos && s1.spent == s.spent)
      && (s1.flights != s.flights ==>
            && s.flights == [] && |s1.flights| == 1
            && s1.flights[0].base.utxos == s.w.utxos && s1.flights[0].spentBefore == s.spent)
  {
    CreateRawTouches(env, s.w, call.address, call.amount, DEFAULT_FEE, call.used, call.draw);
  }

  lemma SendKeepsFlags(env: Env, s: System, call: SendCall)
    requires Laws(env) && Flagged(env, s) && SendAllowed(env, s, call)
    ensures Flagged(env, SendStep(env, s, call))
  {
    SendKeepsReal(env, s, call);
    SendOutcome(env, s, call);
  }

  lemma FrameKeepsFlags(env: Env, s: System, w1: Wallet)
    requires Flagged(env, s) && Real(env, s.(w := w1)) && w1.utxos == s.w.utxos
    ensures Flagged(env, s.(w := w1))
  {
  }

  lemma NewAddressKeepsFlags(env: Env, s: System, e: Event, s1: System)
    requires Flagged(env, s) && e.NewAddress? && s1 == Exec(env, s, e) && Real(env, s1)
    ensures Flagged(env, s1)
  {
    var w1 := ExternalKey(env, s.w, e.draw).1;
    ExternalKeyTouches(env, s.w, e.draw);
    assert BooksOf(w1).utxos == w1.utxos && BooksOf(s.w).utxos == s.w.utxos;
    FrameKeepsFlags(env, s, w1);
  }

  lemma LockKeepsFlags(env: Env, s: System, e: Event, s1: System)
    requires Flagged(env, s) && (e.LockWallet? || e.UnlockWallet?) && s1 == Exec(env, s, e) && Real(env, s1)
    ensures Flagged(env, s1)
  {
    LockIs(env, s, e);
    FrameKeepsFlags(env, s, s.w.(locked := e.LockWallet?));
  }

  lemma TaskKeepsFlags(env: Env, s: System, e: Event, s1: System)
    requires Laws(env) && Flagged(env, s) && Allowed(env, s, e)
    requires (e.MarkNext? || e.ChangeNext? || e.BalanceNext?) && s1 == Exec(env, s, e)
    ensures Flagged(env, s1)
  {
    if e.i < |s.flights| { SettlementKeepsFlags(env, s, e); }
  }

  lemma SendEventKeepsFlags(env: Env, s: System, e: Event, s1: System)
    requires Laws(env) && Flagged(env, s) && Allowed(env, s, e) && e.Send? && s1 == Exec(env, s, e)
    ensures Flagged(env, s1)
  {
    SendIsItsStep(env, s, e.call);
    SendKeepsFlags(env, s, e.call);
  }

  lemma RestartEventKeepsFlags(env: Env, s: System, e: Event, s1: System)
    requires Laws(env) && Flagged(env, s) && Allowed(env, s, e) && e.Restart? && s1 == Exec(env, s, e)
    ensures Flagged(env, s1)
  {
    RestartKeepsFlags(env, s, e);
  }

  lemma ExecKeepsFlags(env: Env, s: System, e: Event, s1: System)
    requires Laws(env) && Flagged(env, s) && AllowedFlagged(env, s, e) && s1 == Exec(env, s, e)
    ensures Flagged(env, s1)
  {
    ExecKeepsReal(env, s, e, s1);
    match e
    case Restart(_, _, _, _) => RestartEventKeepsFlags(env, s, e, s1);
    case NewAddress(_) => NewAddressKeepsFlags(env, s, e, s1);
    case ScanNext(_, _) => ScanKeepsFlags(env, s, e, s1);
    case NotifyBlock(_, _) => ScanKeepsFlags(env, s, e, s1);
    case Send(_) => SendEventKeepsFlags(env, s, e, s1);
    case LockWallet => LockKeepsFlags(env, s, e, s1);
    case UnlockWallet => LockKeepsFlags(env, s, e, s1);
    case MarkNext(_) => TaskKeepsFlags(env, s, e, s1);
    case ChangeNext(_, _) => TaskKeepsFlags(env, s, e, s1);
    case BalanceNext(_) => TaskKeepsFlags(env, s, e, s1);
  }

  lemma {:induction false} RunKeepsFlags(env: Env, s: System, events: seq<Event>)
    requires Laws(env) && Flagged(env, s) && AllowedFlaggedRun(env, s, events)
    ensures Flagged(env, Run(env, s, events))
    decreases |events|
  {
    if events != [] {
      ExecKeepsFlags(env, s, events[0], Exec(env, s, events[0]));
      RunKeepsFlags(env, Exec(env, s, events[0]), events[1..]);
    }
  }

  ghost function Reached(env: Env, encodedHash: string, height: int, saved: bool, events: seq<Event>): System {
    Run(env, Initial(NewWallet(encodedHash, height, saved)), events)
  }

  lemma ReachedIsFlagged(env: Env, encodedHash: string, height: int, saved: bool, events: seq<Event>)
    requires Laws(env) && AllowedFlaggedRun(env, Initial(NewWallet(encodedHash, height, saved)), events)
    ensures Flagged(env, Reached(env, encodedHash, height, saved, events))
  {
    InitialIsReal(env, encodedHash, height, saved);
    RunKeepsFlags(env, Initial(NewWallet(encodedHash, height, saved)), events);
  }

  /// What follows

  lemma {:induction false} FlagsSum(us: seq<UTXO>, gone: set<string>)
    requires forall i :: 0 <= i < |us| ==> (us[i].spent <==> Outpoint(us[i]) in gone)
    ensures SumUnspent(us) == SumOutside(us, gone)
  {
    if us != [] {
      FlagsSum(us[..|us| - 1], gone);
    }
  }

  lemma {:induction false} ForgottenSum(us: seq<UTXO>, spent: set<string>, forgotten: set<string>)
    requires forgotten <= spent
    ensures SumOutside(us, spent - forgotten) - SumOutside(us, spent) == Sum(us) - SumOutside(us, forgotten)
  {
    if us != [] {
      ForgottenSum(us[..|us| - 1], spent, forgotten);
    }
  }

  /** At rest, the unspent sum exceeds the balance by exactly the value of the entries whose flags
      restarts lost; between restarts the two are equal. */
  lemma BalanceIsUnspentSum(env: Env, encodedHash: string, height: int, saved: bool, events: seq<Event>)
    requires Laws(env) && AllowedFlaggedRun(env, Initial(NewWallet(encodedHash, height, saved)), events)
    ensures var s := Reached(env, encodedHash, height, saved, events);
      s.flights == [] ==>
        && SumUnspent(s.w.utxos) - s.w.balance == Sum(s.w.utxos) - SumOutside(s.w.utxos, s.forgotten)
        && (s.forgotten == {} ==> s.w.balance == SumUnspent(s.w.utxos))
  {
    var s := Reached(env, encodedHash, height, saved, events);
    ReachedIsFlagged(env, encodedHash, height, saved, events);
    if s.flights == [] {
      FlagsSum(s.w.utxos, s.spent - s.forgotten);
      ForgottenSum(s.w.utxos, s.spent, s.forgotten);
      SumOutsideNothing(s.w.utxos, {});
    }
  }

  /** At every step of every interleaving of every run: balance less unspent sum is what has been marked,
      less the change once added, less amount and fee once the balance is written, less the value whose
      flags restarts had lost when the send began; that is nothing if none has. */
  lemma ConservationInFlight(env: Env, encodedHash: string, height: int, saved: bool, events: seq<Event>)
    requires Laws(env) && AllowedFlaggedRun(env, Initial(NewWallet(encodedHash, height, saved)), events)
    ensures var s := Reached(env, encodedHash, height, saved, events);
      s.flights != [] ==> |s.flights| == 1 && Conserves(s, s.flights[0])
  {
    var s := Reached(env, encodedHash, height, saved, events);
    ReachedIsFlagged(env, encodedHash, height, saved, events);
    if s.flights != [] { FlightConserves(env, s, s.flights[0]); }
  }

  ghost predicate Conserves(s: System, f: Flight) {
    var paid := f.base.balance - f.plan.newBalance;
    && f.tasks.marked <= |f.plan.used|
    && Sum(f.plan.used) == paid + f.plan.changeOutput.value
    && s.w.balance - SumUnspent(s.w.utxos)
       == Sum(f.plan.used[..f.tasks.marked])
        - (if f.tasks.changes == 2 then f.plan.changeOutput.value else 0)
        - (if f.tasks.balances == 2 then paid else 0)
        - (Sum(f.base.utxos) - SumOutside(f.base.utxos, s.forgotten))
    && (s.forgotten == {} ==> Sum(f.base.utxos) == SumOutside(f.base.utxos, s.forgotten))
  }

  lemma BaseDrift(base: Books, spent: set<string>, forgotten: set<string>)
    requires RealBooks(base, spent) && forgotten <= spent && FlagsRight(base.utxos, spent, forgotten)
    ensures Drift(base) == SumOutside(base.utxos, forgotten) - Sum(base.utxos)
  {
    FlagsSum(base.utxos, spent - forgotten);
    ForgottenSum(base.utxos, spent, forgotten);
  }

  lemma FlightConserves(env: Env, s: System, f: Flight)
    requires Flagged(env, s) && |s.flights| == 1 && s.flights[0] == f
    ensures Conserves(s, f)
  {
    BaseDrift(f.base, f.spentBefore, s.forgotten);
    ConservedAt(f.plan, f.base, f.look, Settling(BooksOf(s.w), f.tasks));
    forall j | 0 <= j < |f.plan.used| ensures Outpoint(f.plan.used[j]) in f.base.storedUTXOs {
      StoredUsed(f.base, f.plan.used[j]);
    }
    WorkingMarksAreTargeted(f.plan, f.base);
    AllMarked(f.plan, f.base, f.tasks.marked);
    if s.forgotten == {} { SumOutsideNothing(f.base.utxos, s.forgotten); }
  }

  lemma StoredUsed(b: Books, u: UTXO)
    requires ListStored(b.utxos, b.storedUTXOs) && u in b.utxos
    ensures Outpoint(u) in b.storedUTXOs
  {
    var k :| 0 <= k < |b.utxos| && b.utxos[k] == u;
    assert Outpoint(b.utxos[k]) in b.storedUTXOs;
  }

  /** The one-entry shortcut of SelectUTXOs is safe: at rest a lone entry is unspent, and a send gets
      past both funds checks exactly when the unspent entries are worth more than the amount. */
  lemma FundsChecksAreExact(env: Env, encodedHash: string, height: int, saved: bool, events: seq<Event>, amount: int)
    requires Laws(env) && AllowedFlaggedRun(env, Initial(NewWallet(encodedHash, height, saved)), events)
    ensures var s := Reached(env, encodedHash, height, saved, events);
      s.flights == [] ==>
        && (|s.w.utxos| == 1 ==> !s.w.utxos[0].spent)
        && (PassesFundsChecks(s.w, amount)
            <==> s.w.utxos != [] && amount <= s.w.balance && amount < SumUnspent(s.w.utxos))
        && (s.forgotten == {} && amount >= 0 ==>
              (PassesFundsChecks(s.w, amount) <==> amount < SumUnspent(s.w.utxos)))
  {
    var s := Reached(env, encodedHash, height, saved, events);
    BalanceIsUnspentSum(env, encodedHash, height, saved, events);
    if s.flights == [] {
      ReachedIsFlagged(env, encodedHash, height, saved, events);
      ExactAtRest(env, s, amount);
    }
  }

  lemma ExactAtRest(env: Env, s: System, amount: int)
    requires Flagged(env, s) && s.flights == []
    requires s.forgotten == {} ==> s.w.balance == SumUnspent(s.w.utxos)
    ensures |s.w.utxos| == 1 ==> !s.w.utxos[0].spent
    ensures PassesFundsChecks(s.w, amount)
       <==> s.w.utxos != [] && amount <= s.w.balance && amount < SumUnspent(s.w.utxos)
    ensures s.forgotten == {} && amount >= 0 ==>
      (PassesFundsChecks(s.w, amount) <==> amount < SumUnspent(s.w.utxos))
  {
    assert RealBooks(BooksOf(s.w), s.spent);
    if |s.w.utxos| == 1 {
      SumUnspentOne(s.w.utxos[0]);
      assert s.w.utxos == [s.w.utxos[0]];
    }
  }
}
