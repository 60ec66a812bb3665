/**
 The fairness derivation (game/fairness/seed.gd) and its independent reference
 (scripts/gen_fairness_vectors.py): hash preimages and spawn slots.

 SHA-256 is a parameter `sha`; client seeds are their UTF-8 bytes.
 */
module FairSeed {
  import opened Common
  import opened Words
  import opened Probing

  type Hash = Bytes -> Bytes

  const SEED_BYTES: nat := 32

  ghost predicate IsSha256(sha: Hash) {
    forall b: Bytes :: |sha(b)| == 32
  }

  /** server_seed, round_id as u64 and marble_index as u32 in network order, the client seed between them. */
  function Preimage(serverSeed: Bytes, roundId: Uint64, clientSeed: Bytes, index: nat): Bytes {
    serverSeed + BE(roundId, 8) + clientSeed + BE(index, 4)
  }

  /**
   One preimage, one marble of one round: for seeds of the protocol's 32 bytes nothing can be shifted between
   fields.
   */
  lemma PreimageInjective(seed: Bytes, id: Uint64, cs: Bytes, i: nat, seed': Bytes, id': Uint64, cs': Bytes, i': nat)
    requires |seed| == |seed'| == SEED_BYTES && i < TWO_32 && i' < TWO_32
    requires Preimage(seed, id, cs, i) == Preimage(seed', id', cs', i')
    ensures seed == seed' && id == id' && cs == cs' && i == i'
  {
    var p := Preimage(seed, id, cs, i);
    FieldsOf(seed, id, cs, i);
    FieldsOf(seed', id', cs', i');
    Widths();
    BERoundTrip(id, 8);
    BERoundTrip(id', 8);
    BERoundTrip(i, 4);
    BERoundTrip(i', 4);
    ModIs(id, TWO_64, 0, id);
    ModIs(id', TWO_64, 0, id');
    ModIs(i, TWO_32, 0, i);
    ModIs(i', TWO_32, 0, i');
  }

  /** Where the fields are. */
  lemma FieldsOf(seed: Bytes, id: Uint64, cs: Bytes, i: nat)
    requires |seed| == SEED_BYTES
    ensures var p := Preimage(seed, id, cs, i);
      && |p| == 44 + |cs| && p[..32] == seed && p[32..40] == BE(id, 8) && p[40..|p| - 4] == cs
        && p[|p| - 4..] == BE(i, 4)
  {
    Slices(seed, BE(id, 8), cs, BE(i, 4));
  }

  lemma Slices(a: Bytes, b: Bytes, c: Bytes, d: Bytes)
    ensures var p := a + b + c + d;
      && p[..|a|] == a && p[|a|..|a| + |b|] == b
      && p[|a| + |b|..|p| - |d|] == c && p[|p| - |d|..] == d
  {
  }

  /** With seeds of other lengths a byte can move from the client seed through the round id into the seed. */
  lemma PreimageNeedsFixedSeed(x: Byte, i: nat)
    ensures Preimage([], 0, [x], i) == Preimage([0], x, [], i)
  {
    BEFront(0, 7);
    assert BE(x, 8) == BE(x as nat / 0x100, 7) + [x];
    assert [] + BE(0, 8) + [x] + BE(i, 4) == [0] + (BE(0, 7) + [x]) + [] + BE(i, 4);
  }

  // ---------------------------------------------------------------------------
  // The programs
  // ---------------------------------------------------------------------------

  /** _u64_be and _u32_be: k bytes filled from the back, the n-th of them by a shift and a mask. */
  method BigEndian(n: nat, k: nat) returns (out: array<Byte>)
    ensures fresh(out) && out[..] == BE(n, k)
  {
    out := new Byte[k](_ => 0);
    for i := 0 to k
      invariant out[k - i..] == BE(n, i)
    {
      BEFront(n, i);
      out[k - 1 - i] := ShiftRight(n, i) % 0x100;
      assert out[k - 1 - i..] == [ShiftRight(n, i) % 0x100] + out[k - i..];
    }
    assert out[..] == out[0..];
  }

  /** _bytes_to_u32_be: the inverse of _u32_be. */
  function BytesToU32(bytes: Bytes, offset: nat): (n: nat)
    requires offset + 4 <= |bytes|
  {
    var b0: int, b1: int, b2: int, b3: int := bytes[offset], bytes[offset + 1], bytes[offset + 2], bytes[offset + 3];
    b0 * 0x100_0000 + b1 * 0x1_0000 + b2 * 0x100 + b3
  }

  lemma BytesToU32Inverse(bytes: Bytes, offset: nat, n: nat)
    requires offset + 4 <= |bytes|
    ensures BytesToU32(bytes, offset) < TWO_32 && BE(BytesToU32(bytes, offset), 4) == bytes[offset..offset + 4]
    ensures n < TWO_32 ==> BytesToU32(BE(n, 4), 0) == n
  {
    var w := bytes[offset..offset + 4];
    FourBytes(w);
    BEInverse(w);
    Widths();
    FourBytes(BE(n, 4));
    BERoundTrip(n, 4);
    if n < TWO_32 {
      ModIs(n, TWO_32, 0, n);
    }
  }

  lemma FourBytes(w: Bytes)
    requires |w| == 4
    ensures FromBE(w) == BytesToU32(w, 0)
  {
    assert w[..3][..2] == w[..2] && w[..3][..2][..1] == w[..1] && w[..1][..0] == [];
    assert FromBE(w[..1]) == w[0] as int;
    assert FromBE(w[..2]) == 0x100 * FromBE(w[..2][..1]) + w[1] as int;
    assert w[..2][..1] == w[..1];
    assert FromBE(w[..3]) == 0x100 * FromBE(w[..2]) + w[2] as int;
  }

  /** A SHA-256 context: what it has been fed. */
  class HashingContext {
    var fed: Bytes

    constructor ()
      ensures fed == []
    {
      fed := [];
    }

    method Update(b: Bytes)
      modifies this
      ensures fed == old(fed) + b
    {
      fed := fed + b;
    }
  }

  /** _hash_marble and hash_marble: an empty client seed is not fed at all. */
  method HashMarble(sha: Hash, serverSeed: Bytes, roundId: Uint64, clientSeed: Bytes, index: nat)
    returns (digest: Bytes)
    ensures digest == sha(Preimage(serverSeed, roundId, clientSeed, index))
  {
    var ctx := new HashingContext();
    ctx.Update(serverSeed);
    var id := BigEndian(roundId, 8);
    ctx.Update(id[..]);
    if |clientSeed| > 0 {
      ctx.Update(clientSeed);
    }
    var at := BigEndian(index, 4);
    ctx.Update(at[..]);
    assert ctx.fed == Preimage(serverSeed, roundId, clientSeed, index);
    return sha(ctx.fed);
  }

  /** The slot a marble's hash points at. */
  function Home(sha: Hash, serverSeed: Bytes, roundId: Uint64, clientSeed: Bytes, index: nat, slotCount: nat): (h: nat)
    requires slotCount > 0 && |sha(Preimage(serverSeed, roundId, clientSeed, index))| == 32
    ensures h < slotCount
  {
    BytesToU32(sha(Preimage(serverSeed, roundId, clientSeed, index)), 0) % slotCount
  }

  ghost function Homes(sha: Hash, serverSeed: Bytes, roundId: Uint64, clientSeeds: seq<Bytes>,
                       slotCount: nat): (h: seq<nat>)
    requires slotCount > 0 && IsSha256(sha)
    ensures |h| == |clientSeeds|
  {
    seq(|clientSeeds|, i requires 0 <= i < |clientSeeds| =>
      Home(sha, serverSeed, roundId, clientSeeds[i], i, slotCount))
  }

  /** The probing loop: ends because a slot is free, and stops at the first one from the home slot. */
  method Probe(home: nat, taken: set<nat>, slotCount: nat) returns (slot: nat)
    requires home < slotCount && HasRoom(taken, slotCount)
    ensures FirstFreeFor(home, slot, taken, slotCount) && slot < slotCount && slot !in taken
  {
    slot := home;
    ghost var d := Steps(taken, home, slotCount);
    ghost var e := 0;
    ModIs(home, slotCount, 0, home);
    while slot in taken
      invariant e <= d && slot == (home + e) % slotCount && slot < slotCount
      decreases d - e
    {
      assert e != d;
      ModAdd(home + e, 1, slotCount);
      slot := (slot + 1) % slotCount;
      e := e + 1;
    }
    assert !Taken(taken, home, slotCount, e);
  }

  /** The marbles so far have their slots, and `taken` is the set of these. */
  ghost predicate Placed(homes: seq<nat>, slots: seq<nat>, taken: set<nat>, n: nat) {
    && 0 < n && |slots| == |homes| && IsAssignment(homes, slots, n)
    && taken == SetOf(slots) && |taken| <= |homes| && forall x | x in taken :: x < n
  }

  /** One turn of the marble loop, behind the hash. */
  method Place(ghost homes: seq<nat>, slots: seq<nat>, taken: set<nat>, home: nat, n: nat)
    returns (slots': seq<nat>, taken': set<nat>)
    requires Placed(homes, slots, taken, n) && home < n && |homes| < n
    ensures Placed(homes + [home], slots', taken', n)
  {
    var slot := Probe(home, taken, n);
    taken' := taken + {slot};
    slots' := slots + [slot];
    AssignmentGrows(homes, slots, home, slot, n);
  }

  /**
   derive_spawn_slots.  With at most as many marbles as slots it ends, and every marble gets the
   cyclically first slot from its home that no earlier marble has.
   */
  method DeriveSpawnSlots(sha: Hash, serverSeed: Bytes, roundId: Uint64, clientSeeds: seq<Bytes>, slotCount: nat)
    returns (slots: seq<nat>)
    requires IsSha256(sha) && 0 < slotCount && |clientSeeds| <= slotCount
    ensures |slots| == |clientSeeds|
    ensures IsAssignment(Homes(sha, serverSeed, roundId, clientSeeds, slotCount), slots, slotCount)
    ensures NoDuplicates(slots) && forall i | 0 <= i < |slots| :: slots[i] < slotCount
  {
    var taken: set<nat> := {};
    slots := [];
    ghost var homes := Homes(sha, serverSeed, roundId, clientSeeds, slotCount);
    for i := 0 to |clientSeeds|
      invariant Placed(homes[..i], slots, taken, slotCount)
    {
      var raw := HashMarble(sha, serverSeed, roundId, clientSeeds[i], i);
      var home := BytesToU32(raw, 0) % slotCount;
      slots, taken := Place(homes[..i], slots, taken, home, slotCount);
      assert homes[..i + 1] == homes[..i] + [home];
    }
    assert homes[..|clientSeeds|] == homes;
    AssignmentIsValid(homes, slots, slotCount);
  }

  lemma HomeWritten(sha: Hash, serverSeed: Bytes, roundId: Uint64, clientSeeds: seq<Bytes>, slotCount: nat, i: nat)
    requires IsSha256(sha) && 0 < slotCount && i < |clientSeeds|
    ensures var d := sha(serverSeed + BE(roundId, 8) + clientSeeds[i] + BE(i, 4));
      && |d| == 32
      && Homes(sha, serverSeed, roundId, clientSeeds, slotCount)[i] < slotCount
      && Homes(sha, serverSeed, roundId, clientSeeds, slotCount)[i]
        == (d[0] * 0x100_0000 + d[1] * 0x1_0000 + d[2] * 0x100 + d[3]) % slotCount
  {
  }

  lemma NearestInRow(home: nat, slot: nat, before: seq<nat>, n: nat)
    requires home < n && FirstFreeFor(home, slot, SetOf(before), n)
    ensures slot < n && slot !in before
    ensures forall x: nat | x < n && x !in before :: (slot + n - home) % n <= (x + n - home) % n
  {
    NearestFree(home, slot, SetOf(before), n);
    forall x: nat | x < n && x !in before ensures (slot + n - home) % n <= (x + n - home) % n {
      assert x !in SetOf(before);
    }
  }

  /**
   The rule of the fairness protocol, written out: marble i is hashed as server seed, round id, client seed and
   index; the first four bytes of the digest, as a number, modulo the number of slots are its home; and of the
   slots that no earlier marble has it gets the nearest one, counting upwards round the rail from its home.
   */
  lemma SpawnRule(sha: Hash, serverSeed: Bytes, roundId: Uint64, clientSeeds: seq<Bytes>, slotCount: nat,
                  slots: seq<nat>, i: nat)
    requires IsSha256(sha) && 0 < slotCount && i < |clientSeeds| == |slots|
    requires IsAssignment(Homes(sha, serverSeed, roundId, clientSeeds, slotCount), slots, slotCount)
    ensures var d := sha(serverSeed + BE(roundId, 8) + clientSeeds[i] + BE(i, 4));
      var home := (d[0] * 0x100_0000 + d[1] * 0x1_0000 + d[2] * 0x100 + d[3]) % slotCount;
      && 0 <= slots[i] < slotCount && slots[i] !in slots[..i]
      && forall x: nat | x < slotCount && x !in slots[..i] ::
        (slots[i] + slotCount - home) % slotCount <= (x + slotCount - home) % slotCount
  {
    var homes := Homes(sha, serverSeed, roundId, clientSeeds, slotCount);
    HomeWritten(sha, serverSeed, roundId, clientSeeds, slotCount, i);
    assert FirstFreeFor(homes[i], slots[i], SetOf(slots[..i]), slotCount);
    NearestInRow(homes[i], slots[i], slots[..i], slotCount);
  }

  lemma AssignmentGrows(homes: seq<nat>, slots: seq<nat>, home: nat, slot: nat, n: nat)
    requires n > 0 && |homes| == |slots| && IsAssignment(homes, slots, n)
    requires FirstFreeFor(home, slot, SetOf(slots), n)
    ensures IsAssignment(homes + [home], slots + [slot], n)
    ensures SetOf(slots + [slot]) == SetOf(slots) + {slot}
  {
    forall i | 0 <= i <= |homes|
      ensures FirstFreeFor((homes + [home])[i], (slots + [slot])[i], SetOf((slots + [slot])[..i]), n)
    {
      if i < |homes| {
        assert FirstFreeFor(homes[i], slots[i], SetOf(slots[..i]), n);
        assert (slots + [slot])[..i] == slots[..i];
      } else {
        assert (slots + [slot])[..i] == slots;
      }
    }
  }

  /** struct.unpack(">I", raw[0:4]). */
  method Unpack(raw: Bytes) returns (n: nat)
    requires |raw| >= 4
    ensures n == BytesToU32(raw, 0)
  {
    FourBytes(raw[0..4]);
    return FromBE(raw[0..4]);
  }

  /** The reference implementation, over a set and a list. */
  method ReferenceSlots(sha: Hash, serverSeed: Bytes, roundId: Uint64, clientSeeds: seq<Bytes>, slotCount: nat)
    returns (slots: seq<nat>)
    requires IsSha256(sha) && 0 < slotCount && |clientSeeds| <= slotCount
    ensures |slots| == |clientSeeds|
    ensures IsAssignment(Homes(sha, serverSeed, roundId, clientSeeds, slotCount), slots, slotCount)
  {
    var taken: set<nat> := {};
    slots := [];
    ghost var homes := Homes(sha, serverSeed, roundId, clientSeeds, slotCount);
    for i := 0 to |clientSeeds|
      invariant Placed(homes[..i], slots, taken, slotCount)
    {
      var raw := HashMarble(sha, serverSeed, roundId, clientSeeds[i], i);
      var word := Unpack(raw);
      slots, taken := Place(homes[..i], slots, taken, word % slotCount, slotCount);
      assert homes[..i + 1] == homes[..i] + [word % slotCount];
    }
    assert homes[..|clientSeeds|] == homes;
  }

  /** The game and its reference derive the same slots, for every round. */
  method CrossCheck(sha: Hash, serverSeed: Bytes, roundId: Uint64, clientSeeds: seq<Bytes>, slotCount: nat)
    returns (game: seq<nat>, reference: seq<nat>)
    requires IsSha256(sha) && 0 < slotCount && |clientSeeds| <= slotCount
    ensures game == reference && |game| == |clientSeeds|
  {
    game := DeriveSpawnSlots(sha, serverSeed, roundId, clientSeeds, slotCount);
    reference := ReferenceSlots(sha, serverSeed, roundId, clientSeeds, slotCount);
    AssignmentIsUnique(Homes(sha, serverSeed, roundId, clientSeeds, slotCount), game, reference, slotCount);
  }
}
