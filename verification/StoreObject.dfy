/**
 The Store object (server/replay/store.go): uninterrupted Save, Load, List and Verify over the root
 directory.  System calls that may fail take their fate from a parameter.
 */
module Stores {
  import opened Common
  import opened Text
  import opened ReplayStore

  /** The manifest argument of Save, which is filled in in place. */
  class Draft {
    var fields: Manifest

    constructor (fields: Manifest)
      ensures this.fields == fields
    {
      this.fields := fields;
    }
  }

  datatype Call = StatCall | MkdirCall | CopyCall | ManifestCall | RenameCall

  ghost predicate Strict(ids: seq<Uint64>) {
    forall i, j | 0 <= i < j < |ids| :: ids[i] < ids[j]
  }

  predicate Sorted(ids: seq<Uint64>) {
    forall i, j | 0 <= i < j < |ids| :: ids[i] <= ids[j]
  }

  class Store {
    const sha: Bytes -> Bytes
    var root: Root

    constructor (sha: Bytes -> Bytes)
      ensures this.sha == sha && root == map[]
    {
      this.sha, root := sha, map[];
    }

    /**
     Save: the round appears with both files complete, or the root is as before.  `failing` are the system
     calls that fail; the temporary directory is always removed.
     */
    method Save(m: Draft, src: Bytes, tmp: string, now: int, failing: set<Call>) returns (err: Option<Error>)
      requires tmp !in root && IsTemp(tmp)
      requires forall id: Uint64 | RoundDir(id) in root :: !root[RoundDir(id)].Empty()
      modifies this, m
      ensures err.None? <==> !Invalid(old(m.fields)) && RoundDir(old(m.fields).roundId) !in old(root) && failing == {}
      ensures err.None? ==>
        && m.fields == Sealed(sha, old(m.fields), src, now)
        && root == old(root)[RoundDir(m.fields.roundId) := Dir(Some(src), Whole(m.fields))]
      ensures err.None? ==>
        && m.fields == old(m.fields).(replaySha256Hex := HexEncode(sha(src)), createdAt := m.fields.createdAt)
        && m.fields.createdAt == (if old(m.fields).createdAt == 0 then now else old(m.fields).createdAt)
        && FormatUint(m.fields.roundId) in root
        && root[FormatUint(m.fields.roundId)] == Dir(Some(src), Whole(m.fields))
      ensures RootOk(sha, old(root)) ==> RootOk(sha, root)
      ensures err.Some? ==>
        root == old(root) && (m.fields == old(m.fields) || m.fields == Sealed(sha, old(m.fields), src, now))
      ensures Invalid(old(m.fields)) <==> err == Some(InvalidManifest)
      ensures err == Some(InvalidManifest) <==>
        var f := old(m.fields);
        f.roundId == 0 || f.serverSeedHashHex == "" || f.serverSeedHex == "" || f.participants == []
      ensures !Invalid(old(m.fields)) && RoundDir(old(m.fields).roundId) in old(root) && StatCall !in failing ==>
        err == Some(RoundExists)
    {
      if Invalid(m.fields) {
        return Some(InvalidManifest);
      }
      var dir := RoundDir(m.fields.roundId);
      RoundNames(m.fields.roundId, m.fields.roundId);
      if StatCall in failing {
        return Some(Io);
      }
      if dir in root {
        return Some(RoundExists);
      }
      if MkdirCall in failing {
        return Some(Io);
      }
      root := root[tmp := Dir(None, Absent)];
      err := Fill(m, src, tmp, now, failing);
      if err.None? {
        if RenameCall in failing {
          err := Some(RenameFailed);
        } else {
          root := (root - {tmp})[dir := root[tmp]];
          assert root == old(root)[dir := Dir(Some(src), Whole(m.fields))];
          assert failing == {} by { Exhausted(failing); }
          return None;
        }
      }
      root := root - {tmp};
      assert root == old(root);
    }

    /** The two files of a round, in its temporary directory. */
    method Fill(m: Draft, src: Bytes, tmp: string, now: int, failing: set<Call>) returns (err: Option<Error>)
      requires tmp in root && root[tmp] == Dir(None, Absent)
      modifies this, m
      ensures tmp in root && root - {tmp} == old(root) - {tmp}
      ensures err.None? <==> CopyCall !in failing && ManifestCall !in failing
      ensures err.None? ==>
        root[tmp] == Dir(Some(src), Whole(m.fields)) && m.fields == Sealed(sha, old(m.fields), src, now)
      ensures err.Some? ==>
        err == Some(Io) && (m.fields == old(m.fields) || m.fields == Sealed(sha, old(m.fields), src, now))
    {
      if CopyCall in failing {
        return Some(Io);
      }
      root := root[tmp := Dir(Some(src), Absent)];
      m.fields := m.fields.(replaySha256Hex := HexEncode(sha(src)));
      if m.fields.createdAt == 0 {
        m.fields := m.fields.(createdAt := now);
      }
      if ManifestCall in failing {
        return Some(Io);
      }
      root := root[tmp := Dir(Some(src), Whole(m.fields))];
      return None;
    }

    /** Load: the manifest of a round; a round without a manifest file counts as missing. */
    method Load(id: Uint64) returns (r: Result<Manifest, Error>)
      ensures r.Ok? <==> RoundDir(id) in root && root[RoundDir(id)].manifest.Whole?
      ensures r.Ok? ==> r.value == root[RoundDir(id)].manifest.m
      ensures r == Err(RoundMissing) <==> RoundDir(id) !in root || root[RoundDir(id)].manifest.Absent?
    {
      var dir := RoundDir(id);
      if dir !in root {
        return Err(RoundMissing);
      }
      match root[dir].manifest
      case Absent => return Err(RoundMissing);
      case CutShort => return Err(Io);
      case Whole(m) => return Ok(m);
    }

    /** Verify: recomputes the hash of the replay. */
    method Verify(id: Uint64) returns (err: Option<Error>)
      ensures err.None? <==>
        && RoundDir(id) in root && root[RoundDir(id)].manifest.Whole? && root[RoundDir(id)].replay.Some?
        && HexEncode(sha(root[RoundDir(id)].replay.value)) == root[RoundDir(id)].manifest.m.replaySha256Hex
      ensures Checked(id) ==> err == if Intact(id) then None else Some(ChecksumMismatch)
      ensures RootOk(sha, root) && RoundDir(id) in root ==> err.None?
    {
      if RootOk(sha, root) && RoundDir(id) in root {
        RoundIsComplete(sha, root, id);
      }
      var m := Load(id);
      if m.Err? {
        return Some(m.error);
      }
      if root[RoundDir(id)].replay.None? {
        return Some(Io);
      }
      var got := HexEncode(sha(root[RoundDir(id)].replay.value));
      if got != m.value.replaySha256Hex {
        return Some(ChecksumMismatch);
      }
      return None;
    }

    /** Both files of the round are there. */
    ghost predicate Checked(id: Uint64)
      reads this
    {
      RoundDir(id) in root && root[RoundDir(id)].manifest.Whole? && root[RoundDir(id)].replay.Some?
    }

    ghost predicate Intact(id: Uint64)
      requires Checked(id)
      reads this
    {
      HexEncode(sha(root[RoundDir(id)].replay.value)) == root[RoundDir(id)].manifest.m.replaySha256Hex
    }

    /**
     List: the ids of all numeric directories, ascending.  Where only Saves have written, these are exactly
     the stored rounds, each once.
     */
    method List() returns (ids: seq<Uint64>)
      ensures Sorted(ids)
      ensures forall n: Uint64 :: n in ids <==> exists name :: name in root && ParseUint(name) == Some(n)
      ensures RootOk(sha, root) ==> Strict(ids) && forall n: Uint64 :: n in ids <==> RoundDir(n) in root
    {
      var found := NumericNamesOf(root, sha);
      ids := SortIds(found);
      if RootOk(sha, root) {
        DistinctSorted(found, ids);
        ListedRounds(sha, root, ids);
      }
    }
  }

  /** The loop over the directory: the ids of its numeric entries, in no particular order. */
  method NumericNamesOf(root: Root, ghost sha: Bytes -> Bytes) returns (found: seq<Uint64>)
    ensures Collected(found, root.Keys)
    ensures RootOk(sha, root) ==> NoDuplicates(found)
  {
    found := [];
    var rest := root.Keys;
    while rest != {}
      invariant rest <= root.Keys
      invariant Collected(found, root.Keys - rest)
      invariant RootOk(sha, root) ==> NoDuplicates(found)
      decreases |rest|
    {
      var name :| name in rest;
      if RootOk(sha, root) {
        CanonicalNames(sha, root, name, found, root.Keys - rest);
      }
      Collects(found, root.Keys - rest, name);
      assert root.Keys - rest + {name} == root.Keys - (rest - {name});
      var n := ParseUint(name);
      if n.Some? {
        found := found + [n.value];
      }
      rest := rest - {name};
    }
    assert root.Keys - {} == root.Keys;
  }

  lemma Exhausted(failing: set<Call>)
    requires StatCall !in failing && MkdirCall !in failing && CopyCall !in failing
    requires ManifestCall !in failing && RenameCall !in failing
    ensures failing == {}
  {
    forall c | c in failing ensures false {
      match c case StatCall => case MkdirCall => case CopyCall => case ManifestCall => case RenameCall =>
    }
  }

  /** The ids found among these names. */
  ghost predicate Collected(ids: seq<Uint64>, names: set<string>) {
    forall n: Uint64 :: n in ids <==> exists name :: name in names && ParseUint(name) == Some(n)
  }

  lemma Collects(ids: seq<Uint64>, names: set<string>, name: string)
    requires Collected(ids, names)
    ensures Collected(match ParseUint(name) case None => ids case Some(n) => ids + [n], names + {name})
  {
    var ids' := match ParseUint(name) case None => ids case Some(n) => ids + [n];
    forall n: Uint64 ensures n in ids' <==> exists x :: x in names + {name} && ParseUint(x) == Some(n) {
      if n in ids {
        var x :| x in names && ParseUint(x) == Some(n);
        assert x in names + {name};
      } else if ParseUint(name) == Some(n) {
        assert name in names + {name};
      }
    }
  }

  /** An id that a new name stands for has not been found before. */
  lemma CanonicalNames(sha: Bytes -> Bytes, root: Root, name: string, ids: seq<Uint64>, names: set<string>)
    requires RootOk(sha, root) && name in root && name !in names && names <= root.Keys && Collected(ids, names)
    ensures ParseUint(name).Some? ==> ParseUint(name).value !in ids
  {
    if ParseUint(name).Some? && ParseUint(name).value in ids {
      var x :| x in names && ParseUint(x) == ParseUint(name);
      NumericNames(sha, root, name);
      NumericNames(sha, root, x);
      assert false;
    }
  }

  lemma ListedRounds(sha: Bytes -> Bytes, root: Root, ids: seq<Uint64>)
    requires RootOk(sha, root)
    requires forall n: Uint64 :: n in ids <==> exists name :: name in root && ParseUint(name) == Some(n)
    ensures forall n: Uint64 :: n in ids <==> RoundDir(n) in root
  {
    forall n: Uint64 ensures n in ids <==> RoundDir(n) in root {
      ParseFormat(n);
      if n in ids {
        var name :| name in root && ParseUint(name) == Some(n);
        NumericNames(sha, root, name);
      }
    }
  }

  function Insert(ids: seq<Uint64>, n: Uint64): (r: seq<Uint64>)
    ensures multiset(r) == multiset(ids) + multiset{n}
  {
    if ids == [] || n <= ids[0] then [n] + ids
    else
      assert [ids[0]] + ids[1..] == ids;
      [ids[0]] + Insert(ids[1..], n)
  }

  lemma {:induction false} InsertSorted(ids: seq<Uint64>, n: Uint64)
    requires Sorted(ids)
    ensures Sorted(Insert(ids, n))
  {
    if ids != [] && n > ids[0] {
      InsertSorted(ids[1..], n);
      var tail := Insert(ids[1..], n);
      forall j | 0 <= j < |tail| ensures ids[0] <= tail[j] {
        assert tail[j] in multiset(tail);
        assert tail[j] == n || tail[j] in ids[1..];
      }
    }
  }

  /** sort.Slice on ids. */
  method SortIds(ids: seq<Uint64>) returns (r: seq<Uint64>)
    ensures Sorted(r) && multiset(r) == multiset(ids)
    ensures forall n :: n in r <==> n in ids
  {
    r := [];
    for i := 0 to |ids|
      invariant Sorted(r) && multiset(r) == multiset(ids[..i])
    {
      InsertSorted(r, ids[i]);
      r := Insert(r, ids[i]);
      assert ids[..i + 1] == ids[..i] + [ids[i]];
    }
    assert ids[..|ids|] == ids;
    forall n ensures n in r <==> n in ids {
      assert n in multiset(r) <==> n in multiset(ids);
    }
  }

  /** Sorting different ids makes them strictly ascending. */
  lemma DistinctSorted(ids: seq<Uint64>, sorted: seq<Uint64>)
    requires NoDuplicates(ids) && Sorted(sorted) && multiset(ids) == multiset(sorted)
    ensures Strict(sorted)
  {
    forall i, j | 0 <= i < j < |sorted| ensures sorted[i] < sorted[j] {
      if sorted[i] == sorted[j] {
        var n := sorted[i];
        TwoOccurrences(sorted, i, j);
        OneOccurrence(ids, n);
        assert false;
      }
    }
  }

  lemma TwoOccurrences(s: seq<Uint64>, i: nat, j: nat)
    requires i < j < |s| && s[i] == s[j]
    ensures multiset(s)[s[i]] >= 2
  {
    assert s == s[..i] + [s[i]] + s[i + 1..j] + [s[j]] + s[j + 1..];
  }

  lemma {:induction false} OneOccurrence(s: seq<Uint64>, n: Uint64)
    requires NoDuplicates(s)
    ensures multiset(s)[n] <= 1
  {
    if s != [] {
      var k := |s| - 1;
      OneOccurrence(s[..k], n);
      assert s == s[..k] + [s[k]];
      if s[k] == n {
        assert n !in s[..k];
      }
    }
  }
}
