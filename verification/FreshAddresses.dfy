/** The addresses GetNewAddress hands out over a run (wallet/rpc.go, wallet/keys.go). */
module FreshAddresses {
  import opened Text
  import opened StoreCodec
  import opened Node
  import opened Ledger
  import opened Settlement
  import opened KeyInvariants
  import opened KeyDensity
  import opened Reload
  import opened Runs
  import opened SoundRuns
  import opened RestartRuns

  /** The address a getnewaddress call returns; none for other events, and for a draw that fails. */
  function Handed(env: Env, s: System, e: Event): seq<string> {
    if e.NewAddress? && !s.panicked && ExternalKey(env, s.w, e.draw).0.Some?
    then [ExternalKey(env, s.w, e.draw).0.value.address] else []
  }

  ghost function HandedOut(env: Env, s: System, events: seq<Event>): seq<string>
    decreases |events|
  {
    if events == [] then [] else Handed(env, s, events[0]) + HandedOut(env, Exec(env, s, events[0]), events[1..])
  }

  /** A draw that succeeds hands out the address of the key at the counter. */
  lemma DrawHandsOut(env: Env, s: System, draw: KeyDraw)
    requires !s.panicked
    ensures var child := env.child(External, s.w.externalIdx);
      Handed(env, s, NewAddress(draw))
      == if child.Some? && draw.keySaved && draw.indexSaved then [env.addressOf(child.value)] else []
  {
  }

  lemma {:induction false} HandedOutAppends(env: Env, s: System, events: seq<Event>, e: Event)
    ensures HandedOut(env, s, events + [e]) == HandedOut(env, s, events) + Handed(env, Run(env, s, events), e)
    decreases |events|
  {
    if events == [] {
      assert [] + [e] == [e] && [e][1..] == [];
    } else {
      assert (events + [e])[1..] == events[1..] + [e];
      HandedOutAppends(env, Exec(env, s, events[0]), events[1..], e);
    }
  }

  /** The address of an external key with an index no lower than `from`. */
  ghost predicate FromIndex(env: Env, a: string, from: nat) {
    exists i: uint32 :: from <= i && env.child(External, i).Some? && env.addressOf(env.child(External, i).value) == a
  }

  lemma HandedAt(env: Env, s: System, e: Event)
    requires Handed(env, s, e) != [] && s.w.externalIdx < 0xffff_ffff
    ensures env.child(External, s.w.externalIdx).Some?
    ensures Handed(env, s, e) == [env.addressOf(env.child(External, s.w.externalIdx).value)]
    ensures Exec(env, s, e).w.externalIdx == s.w.externalIdx + 1
  {
  }

  lemma SendKeepsIndex(env: Env, s: System, call: SendCall)
    ensures SendStep(env, s, call).w.externalIdx == s.w.externalIdx
  {
    CreateRawTouches(env, s.w, call.address, call.amount, DEFAULT_FEE, call.used, call.draw);
    SendCases(env, s, call);
  }

  lemma RestartKeepsIndex(s: System, e: Event)
    requires e.Restart? && CountersStored(s.w)
    ensures RestartStep(s, e).w.externalIdx == s.w.externalIdx
  {
    Uint32Survives(s.w.externalIdx);
  }

  /** Below wrap-around the external counter never goes back, not even over a restart. */
  lemma IndexNeverFalls(env: Env, s: System, e: Event)
    requires MetadataStored(s.w) && s.w.externalIdx < 0xffff_ffff
    ensures Exec(env, s, e).w.externalIdx >= s.w.externalIdx
  {
    match e
    case Restart(_, _, _, _) => RestartKeepsIndex(s, e);
    case ScanNext(block, ok) => ScanKeepsFrame(env, s.w, block, ok);
    case NotifyBlock(txs, ok) => NotifiedKeepsFrame(env, s.w, txs, ok);
    case Send(call) => SendKeepsIndex(env, s, call);
    case NewAddress(_) =>
    case LockWallet =>
    case UnlockWallet =>
    case _ =>
      TaskMovesBooks(env, s, e, Exec(env, s, e));
  }

  lemma LowerFrom(env: Env, a: string, from: nat, from': nat)
    requires FromIndex(env, a, from') && from <= from'
    ensures FromIndex(env, a, from)
  {
  }

  lemma EarlierIndexDiffers(env: Env, i: uint32, a: string)
    requires AddressesDistinct(env) && env.child(External, i).Some? && FromIndex(env, a, i + 1)
    ensures env.addressOf(env.child(External, i).value) != a
  {
    var j: uint32 :| i + 1 <= j && env.child(External, j).Some? && env.addressOf(env.child(External, j).value) == a;
    assert !SameAddress(env, External, i, External, j);
  }

  ghost predicate AllDistinct(addresses: seq<string>) {
    forall i, j :: 0 <= i < j < |addresses| ==> addresses[i] != addresses[j]
  }

  lemma DistinctFirst(a: string, rest: seq<string>)
    requires AllDistinct(rest) && a !in rest
    ensures AllDistinct([a] + rest)
  {
  }

  lemma {:induction false} HandedOutFrom(env: Env, s: System, events: seq<Event>)
    requires AddressesDistinct(env) && MetadataStored(s.w) && NeverWraps(env, s, events)
    ensures forall a :: a in HandedOut(env, s, events) ==> FromIndex(env, a, s.w.externalIdx)
    ensures AllDistinct(HandedOut(env, s, events))
    decreases |events|
  {
    if events != [] {
      var e, s1 := events[0], Exec(env, s, events[0]);
      var rest := HandedOut(env, s1, events[1..]);
      ExecKeepsMetadata(env, s, e);
      IndexNeverFalls(env, s, e);
      HandedOutFrom(env, s1, events[1..]);
      forall a | a in rest ensures FromIndex(env, a, s.w.externalIdx) {
        LowerFrom(env, a, s.w.externalIdx, s1.w.externalIdx);
      }
      if Handed(env, s, e) != [] {
        HandedAt(env, s, e);
        forall a | a in rest ensures Handed(env, s, e)[0] != a {
          EarlierIndexDiffers(env, s.w.externalIdx, a);
        }
        DistinctFirst(Handed(env, s, e)[0], rest);
      }
    }
  }

  lemma NotInternal(env: Env, a: string, from: nat, j: uint32)
    requires AddressesDistinct(env) && FromIndex(env, a, from) && env.child(Internal, j).Some?
    ensures env.addressOf(env.child(Internal, j).value) != a
  {
    var i: uint32 :| from <= i && env.child(External, i).Some? && env.addressOf(env.child(External, i).value) == a;
    assert !SameAddress(env, External, i, Internal, j);
  }

  /** No address is handed out twice, over any run below wrap-around with any failures and restarts, and
      none is a change address. */
  lemma NoAddressTwice(env: Env, encodedHash: string, height: int, saved: bool, events: seq<Event>)
    requires AddressesDistinct(env)
    requires NeverWraps(env, Initial(NewWallet(encodedHash, height, saved)), events)
    ensures var handed := HandedOut(env, Initial(NewWallet(encodedHash, height, saved)), events);
      && AllDistinct(handed)
      && forall a, j: uint32 :: a in handed && env.child(Internal, j).Some? ==>
           env.addressOf(env.child(Internal, j).value) != a
  {
    var s := Initial(NewWallet(encodedHash, height, saved));
    HandedOutFrom(env, s, events);
    forall a, j: uint32 | a in HandedOut(env, s, events) && env.child(Internal, j).Some?
      ensures env.addressOf(env.child(Internal, j).value) != a
    {
      NotInternal(env, a, s.w.externalIdx, j);
    }
  }
}
