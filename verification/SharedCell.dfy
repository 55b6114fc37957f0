/** A number kept in memory and in the store that several goroutines add to without a lock: each reads it,
    puts the sum into the store, then keeps it in memory. The balance is one (wallet/scan.go:165-166,
    wallet/tx.go:162-163), the scanned height another (wallet/scan.go:176). */
module SharedCell {

  /** A sum read and added to but not kept yet, what it accounts for, and whether it is in the store. */
  datatype Hand = Hand(sum: int, seen: set<nat>, put: bool)

  /** `added`: what was to be added, in the order of reading; the n-th addition is known as n.
      `seen`: the additions the number in memory accounts for. `kept`: those that came to their end.
      `crossed`: whether one was kept while another had been read and not kept. */
  datatype Cell = Cell(
    mem: int,
    put: int,
    seen: set<nat>,
    kept: set<nat>,
    hands: map<nat, Hand>,
    added: seq<int>,
    crossed: bool)

  datatype Op = Read(add: int) | Put(id: nat) | Keep(id: nat)

  predicate Can(c: Cell, op: Op) {
    match op
    case Read(_) => true
    case Put(id) => id in c.hands && !c.hands[id].put
    case Keep(id) => id in c.hands && c.hands[id].put
  }

  function Apply(c: Cell, op: Op): Cell
    requires Can(c, op)
  {
    match op
    case Read(add) =>
      var id := |c.added|;
      c.(added := c.added + [add], hands := c.hands[id := Hand(c.mem + add, c.seen + {id}, false)])
    case Put(id) =>
      c.(put := c.hands[id].sum, hands := c.hands[id := c.hands[id].(put := true)])
    case Keep(id) =>
      c.(mem := c.hands[id].sum, seen := c.hands[id].seen, kept := c.kept + {id}, hands := c.hands - {id},
         crossed := c.crossed || c.hands.Keys != {id})
  }

  function Fresh(start: int): Cell {
    Cell(start, start, {}, {}, map[], [], false)
  }

  /// Sums over some of the additions

  function SumIn(added: seq<int>, s: set<nat>): int {
    if added == [] then 0
    else
      var n := |added| - 1;
      SumIn(added[..n], s) + if n in s then added[n] else 0
  }

  /** The first n ids. */
  function Ids(n: nat): (ids: set<nat>)
    ensures forall i :: i in ids <==> 0 <= i < n
  {
    if n == 0 then {} else Ids(n - 1) + {n - 1}
  }

  lemma {:induction false} SumInSame(added: seq<int>, s: set<nat>, t: set<nat>)
    requires forall i :: 0 <= i < |added| ==> (i in s <==> i in t)
    ensures SumIn(added, s) == SumIn(added, t)
  {
    if added != [] {
      SumInSame(added[..|added| - 1], s, t);
    }
  }

  lemma SumInPush(added: seq<int>, add: int, s: set<nat>)
    requires |added| !in s
    ensures SumIn(added + [add], s) == SumIn(added, s)
    ensures SumIn(added + [add], s + {|added|}) == SumIn(added, s) + add
  {
    assert (added + [add])[..|added|] == added;
    SumInSame(added, s, s + {|added|});
  }

  lemma {:induction false} SumInParts(added: seq<int>, s: set<nat>, t: set<nat>)
    requires s <= t
    ensures SumIn(added, t) == SumIn(added, s) + SumIn(added, t - s)
  {
    if added != [] {
      SumInParts(added[..|added| - 1], s, t);
    }
  }

  ghost predicate AllPositive(added: seq<int>) {
    forall i :: 0 <= i < |added| ==> added[i] > 0
  }

  ghost predicate AllNegative(added: seq<int>) {
    forall i :: 0 <= i < |added| ==> added[i] < 0
  }

  lemma {:induction false} SumInSign(added: seq<int>, s: set<nat>)
    ensures AllPositive(added) ==> SumIn(added, s) >= 0
    ensures AllPositive(added) && (exists i :: 0 <= i < |added| && i in s) ==> SumIn(added, s) > 0
    ensures AllNegative(added) ==> SumIn(added, s) <= 0
    ensures AllNegative(added) && (exists i :: 0 <= i < |added| && i in s) ==> SumIn(added, s) < 0
  {
    if added != [] {
      var n := |added| - 1;
      SumInSign(added[..n], s);
    }
  }

  /// Invariants

  ghost predicate Numbered(c: Cell) {
    && c.seen <= c.kept
    && (forall id :: id in c.kept || id in c.hands <==> id in Ids(|c.added|))
    && (forall id :: id in c.hands ==> id !in c.kept && id in c.hands[id].seen && c.hands[id].seen <= c.kept + {id})
  }

  ghost predicate Valued(start: int, c: Cell) {
    && c.mem == start + SumIn(c.added, c.seen)
    && (forall id :: id in c.hands ==> c.hands[id].sum == start + SumIn(c.added, c.hands[id].seen))
  }

  /** As long as nothing has crossed, nothing is missing anywhere, and the store is only ahead by a hand. */
  ghost predicate Straight(c: Cell) {
    && c.seen == c.kept
    && (forall id :: id in c.hands ==> c.hands[id].seen == c.kept + {id})
    && (c.hands == map[] ==> c.put == c.mem)
    && (forall id :: c.hands.Keys == {id} ==> c.put == if c.hands[id].put then c.hands[id].sum else c.mem)
  }

  ghost predicate Apart(c: Cell, x: nat, y: nat) {
    && x != y && x in c.kept && (y in c.kept || y in c.hands)
    && !(x in c.seen && y in c.seen)
    && (forall id :: id in c.hands ==> !(x in c.hands[id].seen && y in c.hands[id].seen))
  }

  /** Once something has crossed, two additions are never accounted for together again. */
  ghost predicate Parted(c: Cell) {
    exists x, y :: Apart(c, x, y)
  }

  ghost predicate Tracked(start: int, c: Cell) {
    Numbered(c) && Valued(start, c) && if c.crossed then Parted(c) else Straight(c)
  }

  lemma ReadKeepsNumbered(c: Cell, add: int)
    requires Numbered(c)
    ensures Numbered(Apply(c, Read(add)))
    ensures |c.added| !in c.hands && |c.added| !in c.kept
  {
    assert |c.added| !in Ids(|c.added|);
    assert Ids(|c.added| + 1) == Ids(|c.added|) + {|c.added|};
  }

  /** A sum in other hands stays there, as it is. */
  lemma OtherHandStays(c: Cell, op: Op, id: nat)
    requires Numbered(c) && Can(c, op) && id in c.hands
    requires op.Read? || op.id != id
    ensures id in Apply(c, op).hands && Apply(c, op).hands[id] == c.hands[id]
  {
    if op.Read? { ReadKeepsNumbered(c, op.add); }
  }

  lemma ReadKeepsValued(start: int, c: Cell, add: int)
    requires Numbered(c) && Valued(start, c)
    ensures Valued(start, Apply(c, Read(add)))
  {
    ReadKeepsNumbered(c, add);
    var c1 := Apply(c, Read(add));
    SumInPush(c.added, add, c.seen);
    forall id | id in c1.hands ensures c1.hands[id].sum == start + SumIn(c1.added, c1.hands[id].seen) {
      if id != |c.added| {
        SumInPush(c.added, add, c.hands[id].seen);
      }
    }
  }

  lemma ReadKeepsTracked(start: int, c: Cell, add: int)
    requires Tracked(start, c)
    ensures Tracked(start, Apply(c, Read(add)))
  {
    ReadKeepsNumbered(c, add);
    ReadKeepsValued(start, c, add);
    var c1 := Apply(c, Read(add));
    if c.crossed {
      var x, y :| Apart(c, x, y);
      assert Apart(c1, x, y);
    } else {
      ReadKeepsStraight(c, add);
    }
  }

  lemma ReadAddsAHand(c: Cell, add: int)
    requires Numbered(c) && c.hands != map[]
    ensures forall id :: Apply(c, Read(add)).hands.Keys != {id}
  {
    ReadKeepsNumbered(c, add);
    var h :| h in c.hands;
    var keys := Apply(c, Read(add)).hands.Keys;
    assert h in keys && |c.added| in keys && h != |c.added|;
  }

  lemma ReadKeepsStraight(c: Cell, add: int)
    requires Numbered(c) && Straight(c)
    ensures Straight(Apply(c, Read(add)))
  {
    ReadKeepsNumbered(c, add);
    assert |c.added| in Apply(c, Read(add)).hands;
    if c.hands == map[] {
      assert Apply(c, Read(add)).hands.Keys == {|c.added|};
    } else {
      ReadAddsAHand(c, add);
    }
  }

  lemma PutKeepsTracked(start: int, c: Cell, id: nat)
    requires Tracked(start, c) && Can(c, Put(id))
    ensures Tracked(start, Apply(c, Put(id)))
  {
    var c1 := Apply(c, Put(id));
    if c.crossed {
      var x, y :| Apart(c, x, y);
      assert Apart(c1, x, y);
    } else {
      assert c1.hands.Keys == c.hands.Keys;
      assert id in c1.hands.Keys;
    }
  }

  lemma KeepKeepsNumbered(start: int, c: Cell, id: nat)
    requires Numbered(c) && Valued(start, c) && Can(c, Keep(id))
    ensures Numbered(Apply(c, Keep(id))) && Valued(start, Apply(c, Keep(id)))
  {
  }

  /** Keeping one of two sums parts their additions for good. */
  lemma CrossingParts(start: int, c: Cell, id: nat, other: nat)
    requires Numbered(c) && Can(c, Keep(id)) && other in c.hands && other != id
    ensures Apart(Apply(c, Keep(id)), id, other)
  {
  }

  lemma KeepKeepsTracked(start: int, c: Cell, id: nat)
    requires Tracked(start, c) && Can(c, Keep(id))
    ensures Tracked(start, Apply(c, Keep(id)))
  {
    var c1 := Apply(c, Keep(id));
    KeepKeepsNumbered(start, c, id);
    if c.crossed {
      var x, y :| Apart(c, x, y);
      assert Apart(c1, x, y);
    } else if c.hands.Keys != {id} {
      var other :| other in c.hands && other != id;
      CrossingParts(start, c, id, other);
    } else {
      assert c1.hands == map[];
    }
  }

  /** Every step keeps the invariant, whatever is added and in whatever order. */
  lemma ApplyKeepsTracked(start: int, c: Cell, op: Op)
    requires Tracked(start, c) && Can(c, op)
    ensures Tracked(start, Apply(c, op))
  {
    match op
    case Read(add) => ReadKeepsTracked(start, c, add);
    case Put(id) => PutKeepsTracked(start, c, id);
    case Keep(id) => KeepKeepsTracked(start, c, id);
  }

  lemma AppliedIsTracked(start: int, c: Cell, op: Op, c': Cell)
    requires Tracked(start, c) && Can(c, op) && c' == Apply(c, op)
    ensures Tracked(start, c')
  {
    ApplyKeepsTracked(start, c, op);
  }

  /// At rest

  function Total(added: seq<int>): int {
    SumIn(added, Ids(|added|))
  }

  /** What the number in memory does not account for. */
  function Lost(c: Cell): int {
    SumIn(c.added, Ids(|c.added|) - c.seen)
  }

  /** Once every addition has ended: what is missing is what was lost, and if all additions are of one sign,
      nothing is lost exactly when none was kept between another's reading and keeping. Then the store is
      right as well. */
  lemma RightIffNothingCrossed(start: int, c: Cell)
    requires Tracked(start, c) && c.hands == map[]
    ensures c.mem == start + Total(c.added) - Lost(c)
    ensures !c.crossed ==> Lost(c) == 0 && c.put == c.mem
    ensures AllPositive(c.added) || AllNegative(c.added) ==> (c.mem == start + Total(c.added) <==> !c.crossed)
    ensures AllPositive(c.added) ==> Lost(c) >= 0
  {
    var ids := Ids(|c.added|);
    assert c.kept == ids;
    SumInParts(c.added, c.seen, ids);
    SumInSign(c.added, ids - c.seen);
    if c.crossed {
      var x, y :| Apart(c, x, y);
      assert x in ids - c.seen || y in ids - c.seen;
    } else {
      assert ids - c.seen == {};
      SumInNone(c.added);
    }
  }

  lemma {:induction false} SumInNone(added: seq<int>)
    ensures SumIn(added, {}) == 0
  {
    if added != [] {
      SumInNone(added[..|added| - 1]);
    }
  }

  /** The number one writer keeps last is its own sum: of two additions that crossed, the other is lost. */
  lemma TheLastOfTwoWins(start: int, c: Cell, id: nat)
    requires Tracked(start, c) && Can(c, Keep(id)) && |c.added| == 2
    requires var c1 := Apply(c, Keep(id)); c1.hands == map[] && c1.crossed
    ensures var c1 := Apply(c, Keep(id)); id < 2 && c1.seen == {id} && c1.mem == start + c.added[id]
  {
    var c1 := Apply(c, Keep(id));
    KeepKeepsTracked(start, c, id);
    var x, y :| Apart(c1, x, y);
    assert Ids(2) == {0, 1};
    assert c1.seen == {id};
    SumInOne(c.added, id);
  }

  lemma {:induction false} SumInOne(added: seq<int>, id: nat)
    ensures SumIn(added, {id}) == if id < |added| then added[id] else 0
  {
    if added != [] {
      SumInOne(added[..|added| - 1], id);
    }
  }

  lemma TotalPush(added: seq<int>, add: int)
    ensures Total(added + [add]) == Total(added) + add
  {
    assert Ids(|added| + 1) == Ids(|added|) + {|added|};
    SumInPush(added, add, Ids(|added|));
  }

  /// Sums over the goroutines

  function SumOver<T>(s: seq<T>, f: T -> int): int {
    if s == [] then 0 else SumOver(s[..|s| - 1], f) + f(s[|s| - 1])
  }

  lemma {:induction false} SumOverUpdate<T>(s: seq<T>, f: T -> int, i: nat, a: T)
    requires i < |s|
    ensures SumOver(s[i := a], f) == SumOver(s, f) - f(s[i]) + f(a)
  {
    var n := |s| - 1;
    if i == n {
      assert s[i := a][..n] == s[..n];
    } else {
      assert s[i := a][..n] == s[..n][i := a];
      SumOverUpdate(s[..n], f, i, a);
    }
  }

  lemma {:induction false} SumOverConstant<T>(s: seq<T>, f: T -> int, x: int)
    requires forall i :: 0 <= i < |s| ==> f(s[i]) == x
    ensures SumOver(s, f) == x * |s|
  {
    if s != [] {
      SumOverConstant(s[..|s| - 1], f, x);
    }
  }
}
