/**
 Linear probing over home slots: the collision rule of the spawn-slot derivation
 (game/fairness/seed.gd, docs/fairness.md), apart from where the home slots come from.
 */
module Probing {
  import opened Common
  import opened Words

  type Slots = set<nat>

  /** d is the number of probes from s to the cyclically first free slot. */
  ghost predicate IsFirst(taken: Slots, s: nat, n: nat, d: nat)
    requires n > 0
  {
    (s + d) % n !in taken && forall e | 0 <= e < d :: Taken(taken, s, n, e)
  }

  predicate Taken(taken: Slots, s: nat, n: nat, e: nat)
    requires n > 0
  {
    (s + e) % n in taken
  }

  ghost predicate HasRoom(taken: Slots, n: nat) {
    (forall x | x in taken :: x < n) && |taken| < n
  }

  // ---------------------------------------------------------------------------
  // Pigeonhole: probing ends
  // ---------------------------------------------------------------------------

  function Range(n: nat): (r: Slots)
    ensures |r| == n && forall x: nat :: x in r <==> x < n
  {
    if n == 0 then {} else Range(n - 1) + {n - 1}
  }

  lemma {:induction false} SubsetSize(a: Slots, b: Slots)
    requires a <= b
    ensures |a| <= |b|
    decreases |b|
  {
    if b != {} {
      var x :| x in b;
      SubsetSize(a - {x}, b - {x});
    }
  }

  lemma SomeFree(taken: Slots, n: nat) returns (s: nat)
    requires HasRoom(taken, n)
    ensures s < n && s !in taken
  {
    if forall x: nat | x < n :: x in taken {
      SubsetSize(Range(n), taken);
      assert false;
    }
    s :| s < n && s !in taken;
  }

  lemma {:induction false} LeastOffset(taken: Slots, s: nat, n: nat, d: nat) returns (least: nat)
    requires n > 0 && !Taken(taken, s, n, d)
    ensures IsFirst(taken, s, n, least)
    decreases d
  {
    if e :| 0 <= e < d && !Taken(taken, s, n, e) {
      least := LeastOffset(taken, s, n, e);
    } else {
      least := d;
    }
  }

  /** As long as a slot is free, probing from anywhere ends. */
  lemma ProbingEnds(taken: Slots, s: nat, n: nat)
    requires HasRoom(taken, n)
    ensures exists d: nat :: IsFirst(taken, s, n, d)
  {
    var f := SomeFree(taken, n);
    var d := OffsetTo(s, f, n);
    var least := LeastOffset(taken, s, n, d);
  }

  /** Every slot is some number of probes away. */
  lemma OffsetTo(s: nat, f: nat, n: nat) returns (d: nat)
    requires f < n
    ensures (s + d) % n == f
  {
    AtLeast(n, s);
    d := f + n * s - s;
    ModIs(f + n * s, n, s, f);
  }

  lemma AtLeast(n: nat, s: nat)
    requires n > 0
    ensures n * s >= s
  {
    assert n * s - s == (n - 1) * s;
  }

  lemma FirstIsUnique(taken: Slots, s: nat, n: nat, d: nat, e: nat)
    requires n > 0 && IsFirst(taken, s, n, d) && IsFirst(taken, s, n, e)
    ensures d == e
  {
    assert d < e ==> Taken(taken, s, n, d);
    assert e < d ==> Taken(taken, s, n, e);
  }

  /** The number of probes beyond the home slot. */
  ghost function Steps(taken: Slots, s: nat, n: nat): (d: nat)
    requires HasRoom(taken, n)
    ensures IsFirst(taken, s, n, d)
  {
    ProbingEnds(taken, s, n);
    var d :| IsFirst(taken, s, n, d);
    d
  }

  /** The slot found. */
  ghost function Find(taken: Slots, s: nat, n: nat): (r: nat)
    requires HasRoom(taken, n)
    ensures r < n && r !in taken
  {
    (s + Steps(taken, s, n)) % n
  }

  lemma StepsIs(taken: Slots, s: nat, n: nat, d: nat)
    requires HasRoom(taken, n) && IsFirst(taken, s, n, d)
    ensures Steps(taken, s, n) == d && Find(taken, s, n) == (s + d) % n
  {
    FirstIsUnique(taken, s, n, d, Steps(taken, s, n));
  }

  // ---------------------------------------------------------------------------
  // The two orders of two marbles
  // ---------------------------------------------------------------------------

  /** Marbles bound for different slots do not get in each other's way. */
  lemma OtherSlotIgnored(taken: Slots, g: nat, h: nat, n: nat)
    requires HasRoom(taken, n) && |taken| + 1 < n
    requires Find(taken, g, n) != Find(taken, h, n)
    ensures var taken' := taken + {Find(taken, g, n)};
      HasRoom(taken', n) && Steps(taken', h, n) == Steps(taken, h, n) && Find(taken', h, n) == Find(taken, h, n)
  {
    var taken' := taken + {Find(taken, g, n)};
    var d := Steps(taken, h, n);
    assert forall e | 0 <= e < d :: Taken(taken, h, n, e) && Taken(taken', h, n, e);
    StepsIs(taken', h, n, d);
  }

  lemma SameResidue(a: nat, b: nat, j: nat, n: nat)
    requires n > 0 && a % n == b % n
    ensures (a + j) % n == (b + j) % n
  {
    ModAdd(a, j, n);
    ModAdd(b, j, n);
  }

  lemma ModAdd(a: nat, j: nat, n: nat)
    requires n > 0
    ensures (a + j) % n == (a % n + j) % n
  {
    var b := a % n + j;
    Factored(n, a / n, b / n, b % n);
    ModIs(a + j, n, a / n + b / n, b % n);
  }

  lemma Factored(n: nat, p: nat, q: nat, r: nat)
    ensures n * p + (n * q + r) == n * (p + q) + r
  {
  }

  /** From where two marbles meet they probe alike. */
  lemma ProbeAlike(taken: Slots, g: nat, c: nat, h: nat, d: nat, e: nat, n: nat)
    requires n > 0 && (g + c) % n == (h + d) % n
    ensures (g + (c + e)) % n == (h + (d + e)) % n
    ensures Taken(taken, g, n, c + e) <==> Taken(taken, h, n, d + e)
  {
    SameResidue(g + c, h + d, e, n);
    assert g + (c + e) == g + c + e && h + (d + e) == h + d + e;
  }

  /** Marbles bound for the same slot: the second goes on from there to the same next slot, whoever it is. */
  lemma SameSlotShared(taken: Slots, g: nat, h: nat, n: nat)
    requires HasRoom(taken, n) && |taken| + 1 < n
    requires Find(taken, g, n) == Find(taken, h, n)
    ensures var taken' := taken + {Find(taken, g, n)};
      && HasRoom(taken', n)
      && Find(taken', g, n) == Find(taken', h, n)
      && Steps(taken, g, n) + Steps(taken', h, n) == Steps(taken, h, n) + Steps(taken', g, n)
  {
    var p := Find(taken, g, n);
    var taken' := taken + {p};
    var c, d := Steps(taken, g, n), Steps(taken, h, n);
    var b := Steps(taken', h, n);
    assert forall e | 0 <= e < d :: Taken(taken, h, n, e) && Taken(taken', h, n, e);
    assert Taken(taken', h, n, d);
    assert !Taken(taken', h, n, b);
    var k := b - d;
    forall e | 0 <= e < c + k ensures Taken(taken', g, n, e) {
      if e < c {
        assert Taken(taken, g, n, e);
      } else {
        assert Taken(taken', h, n, d + (e - c));
        ProbeAlike(taken', g, c, h, d, e - c, n);
      }
    }
    ProbeAlike(taken', g, c, h, d, k, n);
    StepsIs(taken', g, n, c + k);
  }

  // ---------------------------------------------------------------------------
  // Whole insertion orders
  // ---------------------------------------------------------------------------

  ghost predicate Fits(taken: Slots, k: nat, n: nat) {
    (forall x | x in taken :: x < n) && |taken| + k <= n
  }

  /** The occupied slots after inserting marbles with these home slots, in order. */
  ghost function TakenAfter(taken: Slots, homes: seq<nat>, n: nat): Slots
    requires Fits(taken, |homes|, n)
    decreases |homes|
  {
    if homes == [] then taken else TakenAfter(taken + {Find(taken, homes[0], n)}, homes[1..], n)
  }

  /** The probes beyond the home slots, all marbles together. */
  ghost function TotalSteps(taken: Slots, homes: seq<nat>, n: nat): nat
    requires Fits(taken, |homes|, n)
    decreases |homes|
  {
    if homes == [] then 0
    else Steps(taken, homes[0], n) + TotalSteps(taken + {Find(taken, homes[0], n)}, homes[1..], n)
  }

  /** Two insertion orders leave the same table at the same cost. */
  ghost predicate SameOutcome(taken: Slots, a: seq<nat>, b: seq<nat>, n: nat)
    requires Fits(taken, |a|, n) && |a| == |b|
  {
    TakenAfter(taken, a, n) == TakenAfter(taken, b, n) && TotalSteps(taken, a, n) == TotalSteps(taken, b, n)
  }

  lemma SwapFirst(taken: Slots, g: nat, h: nat, rest: seq<nat>, n: nat)
    requires Fits(taken, 2 + |rest|, n)
    ensures SameOutcome(taken, [g] + ([h] + rest), [h] + ([g] + rest), n)
  {
    var p, q := Find(taken, g, n), Find(taken, h, n);
    if p == q {
      SameSlotShared(taken, g, h, n);
    } else {
      OtherSlotIgnored(taken, g, h, n);
      OtherSlotIgnored(taken, h, g, n);
      assert taken + {p} + {q} == taken + {q} + {p};
    }
    InsertTwo(taken, g, h, rest, n);
    InsertTwo(taken, h, g, rest, n);
  }

  lemma InsertOne(taken: Slots, g: nat, rest: seq<nat>, n: nat)
    requires Fits(taken, 1 + |rest|, n)
    ensures var taken' := taken + {Find(taken, g, n)};
      && TakenAfter(taken, [g] + rest, n) == TakenAfter(taken', rest, n)
      && TotalSteps(taken, [g] + rest, n) == Steps(taken, g, n) + TotalSteps(taken', rest, n)
  {
    assert ([g] + rest)[1..] == rest;
  }

  lemma InsertTwo(taken: Slots, g: nat, h: nat, rest: seq<nat>, n: nat)
    requires Fits(taken, 2 + |rest|, n)
    ensures var taken1 := taken + {Find(taken, g, n)}; var taken2 := taken1 + {Find(taken1, h, n)};
      && TakenAfter(taken, [g] + ([h] + rest), n) == TakenAfter(taken2, rest, n)
      && TotalSteps(taken, [g] + ([h] + rest), n) ==
           Steps(taken, g, n) + Steps(taken1, h, n) + TotalSteps(taken2, rest, n)
  {
    InsertOne(taken, g, [h] + rest, n);
    InsertOne(taken + {Find(taken, g, n)}, h, rest, n);
  }

  lemma HeadOut(x: seq<nat>, y: seq<nat>)
    requires x != []
    ensures x + y == [x[0]] + (x[1..] + y)
  {
  }

  /** A marble may go first. */
  lemma {:induction false} MoveToFront(taken: Slots, x: seq<nat>, h: nat, y: seq<nat>, n: nat)
    requires Fits(taken, |x| + 1 + |y|, n)
    ensures SameOutcome(taken, x + ([h] + y), [h] + (x + y), n)
    decreases |x|
  {
    if x == [] {
      assert [] + ([h] + y) == [h] + ([] + y);
    } else {
      var g, x' := x[0], x[1..];
      HeadOut(x, [h] + y);
      HeadOut(x, y);
      InsertOne(taken, g, x' + ([h] + y), n);
      MoveToFront(taken + {Find(taken, g, n)}, x', h, y, n);
      InsertOne(taken, g, [h] + (x' + y), n);
      SwapFirst(taken, g, h, x' + y, n);
    }
  }

  /**
   Order-invariance: whatever the order in which marbles with given home slots are inserted, the same slots
   are occupied in the end, after the same total number of probes.
   */
  lemma {:induction false} OrderInvariance(taken: Slots, a: seq<nat>, b: seq<nat>, n: nat)
    requires Fits(taken, |a|, n) && |a| == |b| && multiset(a) == multiset(b)
    ensures SameOutcome(taken, a, b, n)
    decreases |a|
  {
    if a != [] {
      var h := a[0];
      var x, y := TakeOut(a, b);
      MoveToFront(taken, x, h, y, n);
      InsertOne(taken, h, a[1..], n);
      InsertOne(taken, h, x + y, n);
      OrderInvariance(taken + {Find(taken, h, n)}, a[1..], x + y, n);
      assert a == [h] + a[1..];
    }
  }

  lemma RemoveOne(x: seq<nat>, h: nat, y: seq<nat>)
    ensures multiset(x + y) == multiset(x + ([h] + y)) - multiset{h}
  {
    assert multiset(x + ([h] + y)) == multiset(x) + multiset{h} + multiset(y);
  }

  lemma SameRest(h: nat, rest: seq<nat>, x: seq<nat>, y: seq<nat>)
    requires multiset([h] + rest) == multiset(x + ([h] + y))
    ensures multiset(rest) == multiset(x + y)
  {
    RemoveOne(x, h, y);
    assert multiset([h] + rest) == multiset{h} + multiset(rest);
  }

  lemma SplitAt(b: seq<nat>, i: nat)
    requires i < |b|
    ensures b == b[..i] + ([b[i]] + b[i + 1..])
  {
  }

  /** The first element of one order, taken out of the other. */
  lemma TakeOut(a: seq<nat>, b: seq<nat>) returns (x: seq<nat>, y: seq<nat>)
    requires a != [] && |a| == |b| && multiset(a) == multiset(b)
    ensures b == x + ([a[0]] + y) && |x + y| == |a| - 1 && multiset(a[1..]) == multiset(x + y)
  {
    assert a[0] in multiset(b);
    var i :| 0 <= i < |b| && b[i] == a[0];
    x, y := b[..i], b[i + 1..];
    SplitAt(b, i);
    SplitAt(a, 0);
    assert a == [a[0]] + a[1..];
    SameRest(a[0], a[1..], x, y);
  }

  /**
   Who gets which slot does depend on the order: two marbles receive the same slots in both orders if and
   only if probing from their homes leads to different slots.
   */
  lemma AssignmentKeptIff(taken: Slots, g: nat, h: nat, n: nat)
    requires Fits(taken, 2, n)
    ensures
      var p := Find(taken, g, n); var q := Find(taken, h, n);
      && Find(taken + {q}, g, n) == p && Find(taken + {p}, h, n) == q <==> p != q
  {
    if Find(taken, g, n) != Find(taken, h, n) {
      OtherSlotIgnored(taken, g, h, n);
      OtherSlotIgnored(taken, h, g, n);
    }
  }

  // ---------------------------------------------------------------------------
  // Assignments
  // ---------------------------------------------------------------------------

  function SetOf(s: seq<nat>): Slots { set x | x in s }

  /** Every marble sits in the cyclically first slot, from its home, that no earlier marble occupies. */
  ghost predicate IsAssignment(homes: seq<nat>, slots: seq<nat>, n: nat)
    requires n > 0 && |homes| == |slots|
  {
    forall i | 0 <= i < |homes| :: FirstFreeFor(homes[i], slots[i], SetOf(slots[..i]), n)
  }

  ghost predicate FirstFreeFor(home: nat, slot: nat, taken: Slots, n: nat)
    requires n > 0
  {
    exists d: nat :: IsFirst(taken, home, n, d) && slot == (home + d) % n
  }

  /** The cyclic distance from home to x, upwards. */
  lemma CyclicGap(home: nat, x: nat, n: nat)
    requires home < n && x < n
    ensures (x + n - home) % n == if home <= x then x - home else x + n - home
    ensures (home + (x + n - home) % n) % n == x
  {
    if home <= x {
      ModIs(x + n - home, n, 1, x - home);
      ModIs(x, n, 0, x);
    } else {
      ModIs(x + n - home, n, 0, x + n - home);
      ModIs(x + n, n, 1, x);
    }
  }

  lemma GapBound(home: nat, d: nat, n: nat)
    requires home < n
    ensures var slot := (home + d) % n; (slot + n - home) % n <= d
  {
    var slot := (home + d) % n;
    CyclicGap(home, slot, n);
    if home + d < n {
      ModIs(home + d, n, 0, home + d);
    } else if d < n {
      ModIs(home + d, n, 1, home + d - n);
    }
  }

  /** The slot that a marble gets is free, and no free slot is nearer to its home, counting upwards round the rail. */
  lemma NearestFree(home: nat, slot: nat, taken: Slots, n: nat)
    requires home < n && FirstFreeFor(home, slot, taken, n)
    ensures slot < n && slot !in taken
    ensures forall x: nat | x < n && x !in taken :: (slot + n - home) % n <= (x + n - home) % n
  {
    var d: nat :| IsFirst(taken, home, n, d) && slot == (home + d) % n;
    GapBound(home, d, n);
    forall x: nat | x < n && x !in taken ensures d <= (x + n - home) % n {
      CyclicGap(home, x, n);
      assert !Taken(taken, home, n, (x + n - home) % n);
    }
  }

  lemma AssignmentPrefix(homes: seq<nat>, slots: seq<nat>, n: nat, k: nat)
    requires n > 0 && |homes| == |slots| && k <= |homes| && IsAssignment(homes, slots, n)
    ensures IsAssignment(homes[..k], slots[..k], n)
  {
    forall i | 0 <= i < k ensures FirstFreeFor(homes[..k][i], slots[..k][i], SetOf(slots[..k][..i]), n) {
      assert slots[..k][..i] == slots[..i];
      assert FirstFreeFor(homes[i], slots[i], SetOf(slots[..i]), n);
    }
  }

  /** The rule determines the slots; they are in range and pairwise different. */
  lemma {:induction false} AssignmentIsUnique(homes: seq<nat>, a: seq<nat>, b: seq<nat>, n: nat)
    requires n > 0 && |homes| == |a| == |b| && IsAssignment(homes, a, n) && IsAssignment(homes, b, n)
    ensures a == b
    decreases |homes|
  {
    if homes != [] {
      var k := |homes| - 1;
      AssignmentPrefix(homes, a, n, k);
      AssignmentPrefix(homes, b, n, k);
      AssignmentIsUnique(homes[..k], a[..k], b[..k], n);
      assert FirstFreeFor(homes[k], a[k], SetOf(a[..k]), n) && FirstFreeFor(homes[k], b[k], SetOf(b[..k]), n);
      var d: nat :| IsFirst(SetOf(a[..k]), homes[k], n, d) && a[k] == (homes[k] + d) % n;
      var e: nat :| IsFirst(SetOf(b[..k]), homes[k], n, e) && b[k] == (homes[k] + e) % n;
      FirstIsUnique(SetOf(a[..k]), homes[k], n, d, e);
      assert a == a[..k] + [a[k]] && b == b[..k] + [b[k]];
    }
  }

  lemma AssignmentIsValid(homes: seq<nat>, slots: seq<nat>, n: nat)
    requires n > 0 && |homes| == |slots| && IsAssignment(homes, slots, n)
    ensures NoDuplicates(slots) && forall i | 0 <= i < |slots| :: slots[i] < n
  {
    forall i | 0 <= i < |slots| ensures slots[i] < n && slots[i] !in slots[..i] {
      assert FirstFreeFor(homes[i], slots[i], SetOf(slots[..i]), n);
    }
    forall i, j | 0 <= i < j < |slots| ensures slots[i] != slots[j] {
      assert slots[..j][i] == slots[i];
    }
  }

  lemma {:induction false} InsertLast(taken: Slots, homes: seq<nat>, h: nat, n: nat)
    requires Fits(taken, |homes| + 1, n)
    ensures var t := TakenAfter(taken, homes, n);
      Fits(t, 1, n) && TakenAfter(taken, homes + [h], n) == t + {Find(t, h, n)}
    decreases |homes|
  {
    if homes == [] {
      assert [] + [h] == [h];
      InsertOne(taken, h, [], n);
      assert [h] + [] == [h];
    } else {
      InsertLast(taken + {Find(taken, homes[0], n)}, homes[1..], h, n);
      assert homes + [h] == [homes[0]] + (homes[1..] + [h]);
      InsertOne(taken, homes[0], homes[1..] + [h], n);
    }
  }

  /** The slots of an assignment are those occupied after inserting the marbles one by one. */
  lemma {:induction false} AssignmentTaken(homes: seq<nat>, slots: seq<nat>, n: nat)
    requires n > 0 && |homes| == |slots| <= n && IsAssignment(homes, slots, n)
    ensures SetOf(slots) == TakenAfter({}, homes, n)
    decreases |homes|
  {
    if homes != [] {
      var k := |homes| - 1;
      AssignmentPrefix(homes, slots, n, k);
      AssignmentTaken(homes[..k], slots[..k], n);
      assert FirstFreeFor(homes[k], slots[k], SetOf(slots[..k]), n);
      TakenGrows(homes[..k], SetOf(slots[..k]), homes[k], slots[k], n);
      assert homes == homes[..k] + [homes[k]];
      SetOfLast(slots, k);
    }
  }

  lemma TakenGrows(homes: seq<nat>, taken: Slots, home: nat, slot: nat, n: nat)
    requires |homes| < n && taken == TakenAfter({}, homes, n) && FirstFreeFor(home, slot, taken, n)
    ensures TakenAfter({}, homes + [home], n) == taken + {slot}
  {
    InsertLast({}, homes, home, n);
    LastSlot(taken, home, slot, n);
  }

  lemma LastSlot(taken: Slots, home: nat, slot: nat, n: nat)
    requires HasRoom(taken, n) && FirstFreeFor(home, slot, taken, n)
    ensures slot == Find(taken, home, n)
  {
    var d: nat :| IsFirst(taken, home, n, d) && slot == (home + d) % n;
    StepsIs(taken, home, n, d);
  }

  lemma SetOfLast(slots: seq<nat>, k: nat)
    requires |slots| == k + 1
    ensures SetOf(slots) == SetOf(slots[..k]) + {slots[k]}
  {
    assert slots == slots[..k] + [slots[k]];
  }

  lemma {:induction false} SizeOfDistinct(s: seq<nat>)
    requires NoDuplicates(s)
    ensures |SetOf(s)| == |s|
  {
    if s != [] {
      var k := |s| - 1;
      SizeOfDistinct(s[..k]);
      SetOfLast(s, k);
    }
  }

  lemma {:induction false} SameSizeSubset(a: Slots, b: Slots)
    requires a <= b && |a| == |b|
    ensures a == b
  {
    if x :| x in b && x !in a {
      SubsetSize(a, b - {x});
      assert false;
    }
  }

  lemma {:induction false} AssignmentExists(homes: seq<nat>, n: nat) returns (slots: seq<nat>)
    requires n > 0 && |homes| <= n
    ensures |slots| == |homes| && IsAssignment(homes, slots, n)
    decreases |homes|
  {
    if homes == [] {
      slots := [];
    } else {
      var k := |homes| - 1;
      var front := AssignmentExists(homes[..k], n);
      AssignmentIsValid(homes[..k], front, n);
      SizeOfDistinct(front);
      slots := front + [Find(SetOf(front), homes[k], n)];
      AssignmentGrows(homes, front, slots, n);
    }
  }

  lemma AssignmentGrows(homes: seq<nat>, front: seq<nat>, slots: seq<nat>, n: nat)
    requires n > 0 && |homes| == |front| + 1 && IsAssignment(homes[..|front|], front, n)
    requires HasRoom(SetOf(front), n) && slots == front + [Find(SetOf(front), homes[|front|], n)]
    ensures IsAssignment(homes, slots, n)
  {
    var k := |front|;
    forall i | 0 <= i < |homes| ensures FirstFreeFor(homes[i], slots[i], SetOf(slots[..i]), n) {
      if i < k {
        assert slots[..i] == front[..i] && homes[..k][i] == homes[i];
        assert FirstFreeFor(homes[..k][i], front[i], SetOf(front[..i]), n);
      } else {
        assert slots[..k] == front;
        assert IsFirst(SetOf(front), homes[k], n, Steps(SetOf(front), homes[k], n));
      }
    }
  }

  // ---------------------------------------------------------------------------
  // Who gets which slot
  // ---------------------------------------------------------------------------

  /** With pairwise different homes in range, everybody sits at home. */
  lemma {:induction false} DistinctHomes(homes: seq<nat>, slots: seq<nat>, n: nat)
    requires n > 0 && |homes| == |slots| && IsAssignment(homes, slots, n)
    requires NoDuplicates(homes) && forall i | 0 <= i < |homes| :: homes[i] < n
    ensures slots == homes
    decreases |homes|
  {
    if homes != [] {
      var k := |homes| - 1;
      AssignmentPrefix(homes, slots, n, k);
      DistinctHomes(homes[..k], slots[..k], n);
      assert FirstFreeFor(homes[k], slots[k], SetOf(slots[..k]), n);
      var d: nat :| IsFirst(SetOf(slots[..k]), homes[k], n, d) && slots[k] == (homes[k] + d) % n;
      AtHome(SetOf(slots[..k]), homes[k], n, d);
      assert slots == slots[..k] + [slots[k]] && homes == homes[..k] + [homes[k]];
    }
  }

  /** A free home is the slot found. */
  lemma AtHome(taken: Slots, home: nat, n: nat, d: nat)
    requires home < n && home !in taken && IsFirst(taken, home, n, d)
    ensures d == 0 && (home + d) % n == home
  {
    ModIs(home, n, 0, home);
    assert !Taken(taken, home, n, 0);
  }

  /** An order in which to take k marbles. */
  ghost predicate IsOrder(p: seq<nat>, k: nat) {
    |p| == k && NoDuplicates(p) && forall i | 0 <= i < k :: p[i] < k
  }

  /** What belongs to the marbles, in that order. */
  function Along(p: seq<nat>, xs: seq<nat>): seq<nat>
    requires forall i | 0 <= i < |p| :: p[i] < |xs|
  {
    seq(|p|, i requires 0 <= i < |p| => xs[p[i]])
  }

  /** Taken in the order p, every marble gets the slot that it gets in the given order. */
  ghost predicate SameInOrder(homes: seq<nat>, p: seq<nat>, n: nat)
    requires n > 0 && IsOrder(p, |homes|)
  {
    forall slots: seq<nat>, slots': seq<nat> | |slots| == |slots'| == |homes| ::
      IsAssignment(homes, slots, n) && IsAssignment(Along(p, homes), slots', n) ==> slots' == Along(p, slots)
  }

  lemma AlongDistinct(homes: seq<nat>, p: seq<nat>, n: nat)
    requires IsOrder(p, |homes|) && NoDuplicates(homes) && forall i | 0 <= i < |homes| :: homes[i] < n
    ensures NoDuplicates(Along(p, homes)) && forall i | 0 <= i < |p| :: Along(p, homes)[i] < n
  {
    forall i, j | 0 <= i < j < |p| ensures Along(p, homes)[i] != Along(p, homes)[j] {
      assert p[i] != p[j];
      assert p[i] < p[j] || p[j] < p[i];
    }
  }

  lemma DistinctSameInOrder(homes: seq<nat>, p: seq<nat>, n: nat)
    requires n > 0 && IsOrder(p, |homes|) && NoDuplicates(homes) && forall i | 0 <= i < |homes| :: homes[i] < n
    ensures SameInOrder(homes, p, n)
  {
    forall slots: seq<nat>, slots': seq<nat> | |slots| == |slots'| == |homes|
      && IsAssignment(homes, slots, n) && IsAssignment(Along(p, homes), slots', n)
      ensures slots' == Along(p, slots)
    {
      AlongDistinct(homes, p, n);
      DistinctHomes(homes, slots, n);
      DistinctHomes(Along(p, homes), slots', n);
    }
  }

  function Transposed(k: nat, i: nat, j: nat): seq<nat> {
    seq(k, x requires 0 <= x < k => if x == i then j else if x == j then i else x)
  }

  /** Two marbles with the same home trade their slots when they trade places. */
  lemma TradingPlaces(homes: seq<nat>, i: nat, j: nat, n: nat)
    requires n > 0 && |homes| <= n && i < j < |homes| && homes[i] == homes[j]
    ensures IsOrder(Transposed(|homes|, i, j), |homes|) && !SameInOrder(homes, Transposed(|homes|, i, j), n)
  {
    var p := Transposed(|homes|, i, j);
    var slots := AssignmentExists(homes, n);
    AssignmentIsValid(homes, slots, n);
    assert Along(p, homes) == homes;
    assert Along(p, slots)[i] == slots[j] != slots[i];
  }

  /**
   The order of the marbles does not matter to anybody if and only if all homes are different: otherwise two
   marbles with the same home would trade slots.
   */
  lemma OrderIrrelevantIff(homes: seq<nat>, n: nat)
    requires n > 0 && |homes| <= n && forall i | 0 <= i < |homes| :: homes[i] < n
    ensures (forall p | IsOrder(p, |homes|) :: SameInOrder(homes, p, n)) <==> NoDuplicates(homes)
  {
    if NoDuplicates(homes) {
      forall p | IsOrder(p, |homes|) ensures SameInOrder(homes, p, n) {
        DistinctSameInOrder(homes, p, n);
      }
    } else {
      var i, j :| 0 <= i < j < |homes| && homes[i] == homes[j];
      TradingPlaces(homes, i, j, n);
    }
  }

  /** When there are as many marbles as slots, probing for one more never ends, wherever it starts. */
  lemma FullTableNeverEnds(homes: seq<nat>, slots: seq<nat>, n: nat, home: nat, d: nat)
    requires n > 0 && |homes| == |slots| == n && IsAssignment(homes, slots, n)
    ensures !IsFirst(SetOf(slots), home, n, d)
  {
    AssignmentIsValid(homes, slots, n);
    SizeOfDistinct(slots);
    SameSizeSubset(SetOf(slots), Range(n));
  }

  /** Marbles taken in another order fill the same slots. */
  lemma SameSlotsFilled(a: seq<nat>, slotsA: seq<nat>, b: seq<nat>, slotsB: seq<nat>, n: nat)
    requires n > 0 && |a| == |slotsA| == |b| == |slotsB| <= n && multiset(a) == multiset(b)
    requires IsAssignment(a, slotsA, n) && IsAssignment(b, slotsB, n)
    ensures SetOf(slotsA) == SetOf(slotsB)
  {
    AssignmentTaken(a, slotsA, n);
    AssignmentTaken(b, slotsB, n);
    OrderInvariance({}, a, b, n);
  }
}
