/**
 The append-only replay store (server/replay/store.go): any number of Saves, interleaved at every system
 call and cut off by errors and crashes, over one root directory that nobody else writes to.

 A rename onto a directory that is not empty fails, as rename() does in POSIX.1-2017.  SHA-256 is a
 parameter; the JSON file is either absent, cut short, or holds the manifest.
 */
module ReplayStore {
  import opened Common
  import opened Text

  type Hash = Bytes -> Bytes

  datatype Participant = Participant(marbleIndex: int, name: string, clientSeed: string)

  datatype Manifest = Manifest(
    roundId: Uint64, createdAt: int, trackId: Byte, serverSeedHashHex: string, serverSeedHex: string,
    participants: seq<Participant>, winner: int, replaySha256Hex: string)

  datatype Error = InvalidManifest | RoundExists | RoundMissing | ChecksumMismatch | RenameFailed | Io

  datatype ManifestFile = Absent | CutShort | Whole(m: Manifest)

  datatype Dir = Dir(replay: Option<Bytes>, manifest: ManifestFile) {
    predicate Empty() { replay.None? && manifest.Absent? }
  }

  type Root = map<string, Dir>

  /** The name of a round's directory. */
  function RoundDir(id: Uint64): string { FormatUint(id) }

  const PENDING := "pending-"

  /** The temporary directories of Saves: never numeric. */
  predicate IsTemp(name: string) { PENDING <= name }

  /** validateManifestForSave. */
  function Invalid(m: Manifest): bool {
    m.roundId == 0 || m.serverSeedHashHex == "" || m.serverSeedHex == "" || m.participants == []
  }

  // ---------------------------------------------------------------------------
  // Saves, system call by system call
  // ---------------------------------------------------------------------------

  datatype Stage =
    | Checking                              // manifest accepted, the round not looked for yet
    | Making                                // no such round: a temporary directory is next
    | Copying(tmp: string)                  // replay.bin is being written
    | Hashed(tmp: string)                   // replay.bin is complete, the manifest is next
    | Ready(tmp: string)                    // both files are complete, the rename is next
    | Cleaning(tmp: string, e: Error)       // failed: file by file the temporary directory goes, as far as it can be
                                            // removed, then the error is returned
    | Saved
    | Refused(e: Error)
    | Crashed

  datatype Saver = Saver(m: Manifest, src: Bytes, stage: Stage)

  /** `winner` is history: which Save committed a round. */
  datatype State = State(root: Root, savers: map<nat, Saver>, winner: map<Uint64, nat>)

  datatype File = ReplayFile | ManifestJson

  datatype Action =
    | Begin(p: nat, m: Manifest, src: Bytes)
    | Stat(p: nat)
    | MakeTemp(p: nat, tmp: string)
    | Copy(p: nat, n: nat)
    | Hash(p: nat, now: int)
    | WriteManifest(p: nat, whole: bool)
    | Rename(p: nat)
    | Fail(p: nat)
    | Discard(p: nat, file: File)
    | CleanUp(p: nat, whole: bool)
    | Crash

  function At(s: State, p: nat, st: Stage): State
    requires p in s.savers
  {
    s.(savers := s.savers[p := s.savers[p].(stage := st)])
  }

  /** The manifest with its hash, and a creation time if it had none. */
  function Sealed(sha: Bytes -> Bytes, m: Manifest, src: Bytes, now: int): Manifest {
    m.(replaySha256Hex := HexEncode(sha(src)), createdAt := if m.createdAt == 0 then now else m.createdAt)
  }

  predicate Enabled(s: State, a: Action) {
    match a
    case Begin(p, _, _) => p !in s.savers
    case Stat(p) => p in s.savers && s.savers[p].stage == Checking
    case MakeTemp(p, tmp) =>
      p in s.savers && s.savers[p].stage == Making && tmp !in s.root && IsTemp(tmp)
    case Copy(p, n) =>
      p in s.savers && s.savers[p].stage.Copying? && s.savers[p].stage.tmp in s.root && n <= |s.savers[p].src|
    case Hash(p, _) =>
      && p in s.savers && s.savers[p].stage.Copying? && s.savers[p].stage.tmp in s.root
      && s.root[s.savers[p].stage.tmp].replay == Some(s.savers[p].src)
    case WriteManifest(p, _) => p in s.savers && s.savers[p].stage.Hashed? && s.savers[p].stage.tmp in s.root
    case Rename(p) => p in s.savers && s.savers[p].stage.Ready? && s.savers[p].stage.tmp in s.root
    case Fail(p) =>
      p in s.savers && (s.savers[p].stage.Checking? || s.savers[p].stage.Making? || s.savers[p].stage.Copying?
                        || s.savers[p].stage.Hashed? || s.savers[p].stage.Ready?)
    case Discard(p, _) => p in s.savers && s.savers[p].stage.Cleaning? && s.savers[p].stage.tmp in s.root
    case CleanUp(p, _) => p in s.savers && s.savers[p].stage.Cleaning?
    case Crash => true
  }

  function Next(sha: Bytes -> Bytes, s: State, a: Action): State
    requires Enabled(s, a)
  {
    match a
    case Begin(p, m, src) =>
      s.(savers := s.savers[p := Saver(m, src, if Invalid(m) then Refused(InvalidManifest) else Checking)])
    case Stat(p) =>
      At(s, p, if RoundDir(s.savers[p].m.roundId) in s.root then Refused(RoundExists) else Making)
    case MakeTemp(p, tmp) => At(s, p, Copying(tmp)).(root := s.root[tmp := Dir(None, Absent)])
    case Copy(p, n) =>
      var tmp := s.savers[p].stage.tmp;
      s.(root := s.root[tmp := s.root[tmp].(replay := Some(s.savers[p].src[..n]))])
    case Hash(p, now) =>
      var saver := s.savers[p];
      s.(savers := s.savers[p := Saver(Sealed(sha, saver.m, saver.src, now), saver.src, Hashed(saver.stage.tmp))])
    case WriteManifest(p, whole) =>
      var tmp := s.savers[p].stage.tmp;
      var file := if whole then Whole(s.savers[p].m) else CutShort;
      At(s, p, if whole then Ready(tmp) else s.savers[p].stage).(root := s.root[tmp := s.root[tmp].(manifest := file)])
    case Rename(p) =>
      var id := s.savers[p].m.roundId;
      var tmp := s.savers[p].stage.tmp;
      if RoundDir(id) in s.root && !s.root[RoundDir(id)].Empty() then At(s, p, Cleaning(tmp, RenameFailed))
      else At(s, p, Saved).(root := (s.root - {tmp})[RoundDir(id) := s.root[tmp]], winner := s.winner[id := p])
    case Fail(p) =>
      At(s, p, if s.savers[p].stage.Checking? || s.savers[p].stage.Making? then Refused(Io)
               else Cleaning(s.savers[p].stage.tmp, Io))
    case Discard(p, file) =>
      var tmp := s.savers[p].stage.tmp;
      var d := s.root[tmp];
      s.(root := s.root[tmp := if file.ReplayFile? then d.(replay := None) else d.(manifest := Absent)])
    case CleanUp(p, whole) =>
      // a removal that fails is ignored
      At(s, p, Refused(s.savers[p].stage.e)).(root := if whole then s.root - {s.savers[p].stage.tmp} else s.root)
    case Crash =>
      s.(savers := map p | p in s.savers :: s.savers[p].(stage := AfterCrash(s.savers[p].stage)))
  }

  function AfterCrash(st: Stage): Stage { if st.Saved? || st.Refused? then st else Crashed }

  // ---------------------------------------------------------------------------
  // What every interleaving keeps
  // ---------------------------------------------------------------------------

  /** A complete round: both files, under the manifest's own id, with the hash of the replay. */
  ghost predicate Complete(sha: Bytes -> Bytes, id: Uint64, d: Dir) {
    && d.replay.Some? && d.manifest.Whole? && d.manifest.m.roundId == id && !Invalid(d.manifest.m)
    && d.manifest.m.replaySha256Hex == HexEncode(sha(d.replay.value))
  }

  /** Every entry is a temporary directory, or a complete round under its canonical name. */
  ghost predicate RootOk(sha: Bytes -> Bytes, root: Root) {
    forall name | name in root ::
      IsTemp(name) || exists id: Uint64 :: name == RoundDir(id) && Complete(sha, id, root[name])
  }

  function TempOf(st: Stage): Option<string> {
    match st
    case Copying(t) => Some(t)
    case Hashed(t) => Some(t)
    case Ready(t) => Some(t)
    case Cleaning(t, _) => Some(t)
    case _ => None
  }

  /** How far a Save in progress has come. */
  ghost predicate Progress(sha: Bytes -> Bytes, root: Root, saver: Saver) {
    match saver.stage
    case Hashed(t) =>
      t in root && root[t].replay == Some(saver.src) && saver.m.replaySha256Hex == HexEncode(sha(saver.src))
    case Ready(t) =>
      && t in root && root[t] == Dir(Some(saver.src), Whole(saver.m))
      && saver.m.replaySha256Hex == HexEncode(sha(saver.src))
    case _ => true
  }

  ghost predicate SaverOk(sha: Bytes -> Bytes, root: Root, winner: map<Uint64, nat>, p: nat, saver: Saver) {
    && (saver.stage == Refused(InvalidManifest) || !Invalid(saver.m))
    && (TempOf(saver.stage).Some? ==> IsTemp(TempOf(saver.stage).value) && TempOf(saver.stage).value in root)
    && Progress(sha, root, saver)
    && (saver.stage == Saved ==>
        && RoundDir(saver.m.roundId) in root && root[RoundDir(saver.m.roundId)] == Dir(Some(saver.src), Whole(saver.m))
        && saver.m.roundId in winner && winner[saver.m.roundId] == p)
    && (saver.stage.Cleaning? ==> saver.stage.e == RenameFailed || saver.stage.e == Io)
    && ((saver.stage == Refused(RoundExists) || saver.stage == Refused(RenameFailed)
         || (saver.stage.Cleaning? && saver.stage.e == RenameFailed)) ==> RoundDir(saver.m.roundId) in root)
  }

  ghost predicate SaversOk(sha: Bytes -> Bytes, root: Root, winner: map<Uint64, nat>, savers: map<nat, Saver>) {
    forall p | p in savers :: SaverOk(sha, root, winner, p, savers[p])
  }

  /** No two Saves share a temporary directory. */
  ghost predicate TempsDiffer(savers: map<nat, Saver>) {
    forall p, q | p in savers && q in savers && p != q && TempOf(savers[p].stage).Some? ::
      TempOf(savers[p].stage) != TempOf(savers[q].stage)
  }

  ghost predicate WinnersSaved(winner: map<Uint64, nat>, savers: map<nat, Saver>) {
    forall id | id in winner ::
      winner[id] in savers && savers[winner[id]].stage == Saved && savers[winner[id]].m.roundId == id
  }

  ghost predicate Inv(sha: Bytes -> Bytes, s: State) {
    && RootOk(sha, s.root) && SaversOk(sha, s.root, s.winner, s.savers)
    && TempsDiffer(s.savers) && WinnersSaved(s.winner, s.savers)
  }

  /** Numeric names are not temporary, and different ids have different names. */
  lemma RoundNames(id: Uint64, id': Uint64)
    ensures !IsTemp(RoundDir(id))
    ensures RoundDir(id) == RoundDir(id') ==> id == id'
  {
    ParseFormat(id);
    ParseFormat(id');
    assert IsDigit(RoundDir(id)[0]) && PENDING[0] == 'p';
  }

  lemma RoundIsComplete(sha: Bytes -> Bytes, root: Root, id: Uint64)
    requires RootOk(sha, root) && RoundDir(id) in root
    ensures Complete(sha, id, root[RoundDir(id)]) && !root[RoundDir(id)].Empty()
  {
    RoundNames(id, id);
    var id': Uint64 :| RoundDir(id) == RoundDir(id') && Complete(sha, id', root[RoundDir(id)]);
    RoundNames(id, id');
  }

  /** The two roots agree everywhere but at `tmp`. */
  ghost predicate AgreeBut(root: Root, root': Root, tmp: string) {
    forall name | name != tmp :: (name in root <==> name in root') && (name in root ==> root'[name] == root[name])
  }

  /** A Save does not notice what happens in somebody else's temporary directory. */
  lemma OthersUnaffected(sha: Bytes -> Bytes, root: Root, root': Root, tmp: string, winner: map<Uint64, nat>, p: nat,
                         saver: Saver)
    requires SaverOk(sha, root, winner, p, saver) && AgreeBut(root, root', tmp)
    requires IsTemp(tmp) && TempOf(saver.stage) != Some(tmp)
    ensures SaverOk(sha, root', winner, p, saver)
  {
    RoundNames(saver.m.roundId, saver.m.roundId);
  }

  lemma RootStaysOk(sha: Bytes -> Bytes, root: Root, root': Root, tmp: string)
    requires RootOk(sha, root) && AgreeBut(root, root', tmp) && IsTemp(tmp)
    ensures RootOk(sha, root')
  {
  }

  /** The invariant after one Save has changed its own temporary directory and its own stage. */
  lemma TempStep(sha: Bytes -> Bytes, s: State, s': State, p: nat, tmp: string)
    requires Inv(sha, s) && IsTemp(tmp)
    requires p in s.savers && p in s'.savers && s'.savers == s.savers[p := s'.savers[p]] && s'.winner == s.winner
    requires AgreeBut(s.root, s'.root, tmp)
    requires forall q | q in s.savers && q != p :: TempOf(s.savers[q].stage) != Some(tmp)
    requires TempOf(s'.savers[p].stage) == None || TempOf(s'.savers[p].stage) == Some(tmp)
    requires s.savers[p].stage != Saved && SaverOk(sha, s'.root, s.winner, p, s'.savers[p])
    ensures Inv(sha, s')
  {
    RootStaysOk(sha, s.root, s'.root, tmp);
    OneSaverMoves(s.winner, s.savers, p, s'.savers[p]);
    forall q | q in s'.savers ensures SaverOk(sha, s'.root, s'.winner, q, s'.savers[q]) {
      if q != p {
        OthersUnaffected(sha, s.root, s'.root, tmp, s.winner, q, s.savers[q]);
      }
    }
  }

  /** The invariant after one Save has only changed its stage. */
  lemma QuietStep(sha: Bytes -> Bytes, s: State, s': State, p: nat)
    requires Inv(sha, s) && s'.root == s.root && s'.winner == s.winner
    requires p in s'.savers && s'.savers == s.savers[p := s'.savers[p]]
    requires p in s.savers ==> s.savers[p].stage != Saved
    requires TempOf(s'.savers[p].stage).Some? ==>
      p in s.savers && TempOf(s'.savers[p].stage) == TempOf(s.savers[p].stage)
    requires SaverOk(sha, s.root, s.winner, p, s'.savers[p])
    ensures Inv(sha, s')
  {
    OneSaverMoves(s.winner, s.savers, p, s'.savers[p]);
  }

  lemma OneSaverMoves(winner: map<Uint64, nat>, savers: map<nat, Saver>, p: nat, saver: Saver)
    requires TempsDiffer(savers) && WinnersSaved(winner, savers)
    requires p in savers ==> savers[p].stage != Saved
    requires TempOf(saver.stage).Some? ==>
      forall q | q in savers && q != p :: TempOf(savers[q].stage) != TempOf(saver.stage)
    ensures TempsDiffer(savers[p := saver]) && WinnersSaved(winner, savers[p := saver])
  {
  }

  lemma WinnersAreVisible(sha: Bytes -> Bytes, s: State)
    requires Inv(sha, s)
    ensures forall id | id in s.winner :: RoundDir(id) in s.root
  {
    forall id | id in s.winner ensures RoundDir(id) in s.root {
      assert SaverOk(sha, s.root, s.winner, s.winner[id], s.savers[s.winner[id]]);
    }
  }

  lemma RenameKeeps(sha: Bytes -> Bytes, s: State, p: nat)
    requires Inv(sha, s) && Enabled(s, Rename(p))
    ensures Inv(sha, Next(sha, s, Rename(p)))
  {
    var s' := Next(sha, s, Rename(p));
    var id, tmp := s.savers[p].m.roundId, s.savers[p].stage.tmp;
    assert SaverOk(sha, s.root, s.winner, p, s.savers[p]);
    RoundNames(id, id);
    if RoundDir(id) in s.root {
      RoundIsComplete(sha, s.root, id);
      QuietStep(sha, s, s', p);
    } else {
      WinnersAreVisible(sha, s);
      NewRoundRoot(sha, s.root, tmp, id);
      NewRoundSavers(sha, s, p);
      NewWinner(s.winner, s.savers, id, p);
    }
  }

  lemma NewWinner(winner: map<Uint64, nat>, savers: map<nat, Saver>, id: Uint64, p: nat)
    requires TempsDiffer(savers) && WinnersSaved(winner, savers) && p in savers && savers[p].m.roundId == id
    requires savers[p].stage != Saved
    ensures var savers' := savers[p := savers[p].(stage := Saved)];
      TempsDiffer(savers') && WinnersSaved(winner[id := p], savers')
  {
  }

  lemma NewRoundRoot(sha: Bytes -> Bytes, root: Root, tmp: string, id: Uint64)
    requires RootOk(sha, root) && tmp in root && Complete(sha, id, root[tmp]) && RoundDir(id) !in root
    ensures RootOk(sha, (root - {tmp})[RoundDir(id) := root[tmp]])
  {
  }

  lemma NewRoundSavers(sha: Bytes -> Bytes, s: State, p: nat)
    requires Inv(sha, s) && Enabled(s, Rename(p)) && RoundDir(s.savers[p].m.roundId) !in s.root
    requires s.savers[p].m.roundId !in s.winner
    ensures var s' := Next(sha, s, Rename(p)); SaversOk(sha, s'.root, s'.winner, s'.savers)
  {
    var s' := Next(sha, s, Rename(p));
    var id, tmp := s.savers[p].m.roundId, s.savers[p].stage.tmp;
    assert SaverOk(sha, s.root, s.winner, p, s.savers[p]);
    RoundNames(id, id);
    TempIsOwn(s, p);
    forall q | q in s'.savers ensures SaverOk(sha, s'.root, s'.winner, q, s'.savers[q]) {
      if q != p {
        assert SaverOk(sha, s.root, s.winner, q, s.savers[q]);
        SeesRename(sha, s.root, tmp, id, s.winner, p, q, s.savers[q]);
      }
    }
  }

  /** A new round does not disturb anybody: its name was free. */
  lemma SeesRename(sha: Bytes -> Bytes, root: Root, tmp: string, id: Uint64, winner: map<Uint64, nat>, p: nat, q: nat,
                   saver: Saver)
    requires SaverOk(sha, root, winner, q, saver)
    requires tmp in root && IsTemp(tmp) && RoundDir(id) !in root && id !in winner && TempOf(saver.stage) != Some(tmp)
    ensures SaverOk(sha, (root - {tmp})[RoundDir(id) := root[tmp]], winner[id := p], q, saver)
  {
    RoundNames(id, saver.m.roundId);
    RoundNames(saver.m.roundId, id);
  }

  lemma CrashKeeps(sha: Bytes -> Bytes, s: State)
    requires Inv(sha, s)
    ensures Inv(sha, Next(sha, s, Crash))
  {
    CrashSavers(sha, s.root, s.winner, s.savers);
  }

  lemma CrashSavers(sha: Bytes -> Bytes, root: Root, winner: map<Uint64, nat>, savers: map<nat, Saver>)
    requires SaversOk(sha, root, winner, savers) && TempsDiffer(savers) && WinnersSaved(winner, savers)
    ensures var savers' := map p | p in savers :: savers[p].(stage := AfterCrash(savers[p].stage));
      SaversOk(sha, root, winner, savers') && TempsDiffer(savers') && WinnersSaved(winner, savers')
  {
    var savers' := map p | p in savers :: savers[p].(stage := AfterCrash(savers[p].stage));
    forall p | p in savers' ensures SaverOk(sha, root, winner, p, savers'[p]) && TempOf(savers'[p].stage).None? {
      CrashedSaver(sha, root, winner, p, savers[p]);
    }
  }

  lemma CrashedSaver(sha: Bytes -> Bytes, root: Root, winner: map<Uint64, nat>, p: nat, saver: Saver)
    requires SaverOk(sha, root, winner, p, saver)
    ensures SaverOk(sha, root, winner, p, saver.(stage := AfterCrash(saver.stage)))
    ensures TempOf(AfterCrash(saver.stage)).None?
  {
  }

  lemma QuietKeeps(sha: Bytes -> Bytes, s: State, a: Action)
    requires Inv(sha, s) && Enabled(s, a) && (a.Begin? || a.Stat? || a.Hash? || a.Fail?)
    ensures Inv(sha, Next(sha, s, a))
  {
    if !a.Begin? {
      assert SaverOk(sha, s.root, s.winner, a.p, s.savers[a.p]);
    }
    QuietStep(sha, s, Next(sha, s, a), a.p);
  }

  lemma MakeTempKeeps(sha: Bytes -> Bytes, s: State, p: nat, tmp: string)
    requires Inv(sha, s) && Enabled(s, MakeTemp(p, tmp))
    ensures Inv(sha, Next(sha, s, MakeTemp(p, tmp)))
  {
    assert SaverOk(sha, s.root, s.winner, p, s.savers[p]);
    TempIsFresh(sha, s, tmp);
    TempStep(sha, s, Next(sha, s, MakeTemp(p, tmp)), p, tmp);
  }

  lemma WriteKeeps(sha: Bytes -> Bytes, s: State, a: Action)
    requires Inv(sha, s) && Enabled(s, a) && (a.Copy? || a.WriteManifest?)
    ensures Inv(sha, Next(sha, s, a))
  {
    assert SaverOk(sha, s.root, s.winner, a.p, s.savers[a.p]);
    TempIsOwn(s, a.p);
    TempStep(sha, s, Next(sha, s, a), a.p, s.savers[a.p].stage.tmp);
  }

  lemma CleanUpKeeps(sha: Bytes -> Bytes, s: State, a: Action)
    requires Inv(sha, s) && Enabled(s, a) && (a.Discard? || a.CleanUp?)
    ensures Inv(sha, Next(sha, s, a))
  {
    assert SaverOk(sha, s.root, s.winner, a.p, s.savers[a.p]);
    TempIsOwn(s, a.p);
    RoundNames(s.savers[a.p].m.roundId, s.savers[a.p].m.roundId);
    TempStep(sha, s, Next(sha, s, a), a.p, s.savers[a.p].stage.tmp);
  }

  /** One step of any Save, an error or a crash keeps the invariant. */
  lemma StepKeeps(sha: Bytes -> Bytes, s: State, a: Action)
    requires Inv(sha, s) && Enabled(s, a)
    ensures Inv(sha, Next(sha, s, a))
  {
    match a
    case MakeTemp(p, tmp) => MakeTempKeeps(sha, s, p, tmp);
    case Copy(_, _) => WriteKeeps(sha, s, a);
    case WriteManifest(_, _) => WriteKeeps(sha, s, a);
    case Rename(p) => RenameKeeps(sha, s, p);
    case Discard(_, _) => CleanUpKeeps(sha, s, a);
    case CleanUp(_, _) => CleanUpKeeps(sha, s, a);
    case Crash => CrashKeeps(sha, s);
    case _ => QuietKeeps(sha, s, a);
  }

  lemma TempIsFresh(sha: Bytes -> Bytes, s: State, tmp: string)
    requires Inv(sha, s) && tmp !in s.root
    ensures forall q | q in s.savers :: TempOf(s.savers[q].stage) != Some(tmp)
  {
    forall q | q in s.savers ensures TempOf(s.savers[q].stage) != Some(tmp) {
      assert SaverOk(sha, s.root, s.winner, q, s.savers[q]);
    }
  }

  lemma TempIsOwn(s: State, p: nat)
    requires p in s.savers && TempOf(s.savers[p].stage).Some?
    requires TempsDiffer(s.savers)
    ensures forall q | q in s.savers && q != p :: TempOf(s.savers[q].stage) != TempOf(s.savers[p].stage)
  {
  }

  // ---------------------------------------------------------------------------
  // Whole histories
  // ---------------------------------------------------------------------------

  /** A store as the process finds it: rounds and leftovers of interrupted Saves, nobody at work. */
  ghost predicate Initial(sha: Bytes -> Bytes, s: State) {
    RootOk(sha, s.root) && s.savers == map[] && s.winner == map[]
  }

  ghost predicate IsPath(sha: Bytes -> Bytes, s: State, path: seq<Action>)
    decreases |path|
  {
    path == [] || (Enabled(s, path[0]) && IsPath(sha, Next(sha, s, path[0]), path[1..]))
  }

  ghost function After(sha: Bytes -> Bytes, s: State, path: seq<Action>): State
    requires IsPath(sha, s, path)
    decreases |path|
  {
    if path == [] then s else After(sha, Next(sha, s, path[0]), path[1..])
  }

  lemma {:induction false} PathKeeps(sha: Bytes -> Bytes, s: State, path: seq<Action>)
    requires Inv(sha, s) && IsPath(sha, s, path)
    ensures Inv(sha, After(sha, s, path))
    decreases |path|
  {
    if path != [] {
      StepKeeps(sha, s, path[0]);
      PathKeeps(sha, Next(sha, s, path[0]), path[1..]);
    }
  }

  /** A step touches temporary directories, or adds a round that was not there. */
  lemma StepKeepsRounds(sha: Bytes -> Bytes, s: State, a: Action, id: Uint64)
    requires Inv(sha, s) && Enabled(s, a)
    ensures RoundDir(id) in s.root ==>
      RoundDir(id) in Next(sha, s, a).root && Next(sha, s, a).root[RoundDir(id)] == s.root[RoundDir(id)]
    ensures RoundDir(id) in Next(sha, s, a).root ==> RoundDir(id) in s.root || id in Next(sha, s, a).winner
    ensures id in s.winner ==> id in Next(sha, s, a).winner
  {
    RoundNames(id, id);
    if a.Copy? || a.WriteManifest? || a.Discard? || a.CleanUp? || a.Rename? {
      assert SaverOk(sha, s.root, s.winner, a.p, s.savers[a.p]);
      if a.Rename? {
        RoundNames(id, s.savers[a.p].m.roundId);
        if RoundDir(s.savers[a.p].m.roundId) in s.root {
          RoundIsComplete(sha, s.root, s.savers[a.p].m.roundId);
        }
      }
    }
  }

  /** Append-only: a visible round stays, byte for byte, whatever Saves, errors and crashes follow. */
  lemma {:induction false} VisibleNeverChanges(sha: Bytes -> Bytes, s: State, path: seq<Action>, id: Uint64)
    requires Inv(sha, s) && IsPath(sha, s, path)
    ensures RoundDir(id) in s.root ==>
      RoundDir(id) in After(sha, s, path).root && After(sha, s, path).root[RoundDir(id)] == s.root[RoundDir(id)]
    ensures RoundDir(id) in After(sha, s, path).root ==> RoundDir(id) in s.root || id in After(sha, s, path).winner
    ensures id in s.winner ==> id in After(sha, s, path).winner
    decreases |path|
  {
    if path != [] {
      StepKeeps(sha, s, path[0]);
      StepKeepsRounds(sha, s, path[0], id);
      VisibleNeverChanges(sha, Next(sha, s, path[0]), path[1..], id);
    }
  }

  /** What List and Load can see is always complete, and its hash is that of its manifest. */
  lemma VisibleIsComplete(sha: Bytes -> Bytes, s: State, path: seq<Action>, id: Uint64)
    requires Initial(sha, s) && IsPath(sha, s, path) && RoundDir(id) in After(sha, s, path).root
    ensures var d := After(sha, s, path).root[RoundDir(id)];
      && d.replay.Some? && d.manifest.Whole? && d.manifest.m.roundId == id != 0
      && d.manifest.m.replaySha256Hex == HexEncode(sha(d.replay.value))
      && d.manifest.m.serverSeedHashHex != "" && d.manifest.m.serverSeedHex != "" && d.manifest.m.participants != []
  {
    PathKeeps(sha, s, path);
    RoundIsComplete(sha, After(sha, s, path).root, id);
  }

  ghost predicate HasSaved(s: State, p: nat, id: Uint64) {
    p in s.savers && s.savers[p].stage == Saved && s.savers[p].m.roundId == id
  }

  /** The Save has come to an end, and not by an I/O error or a crash. */
  predicate Decided(st: Stage) { st == Saved || st == Refused(RoundExists) || st == Refused(RenameFailed) }

  /**
   Of any number of racing Saves of a round that was not stored before, exactly one wins: as soon as one of
   them has come to its end undisturbed, one has saved, no other ever does, and what is visible is what the
   winner was given.
   */
  lemma ExactlyOneWins(sha: Bytes -> Bytes, s: State, path: seq<Action>, p: nat) returns (w: nat)
    requires Initial(sha, s) && IsPath(sha, s, path) && p in After(sha, s, path).savers
    requires var saver := After(sha, s, path).savers[p];
      Decided(saver.stage) && RoundDir(saver.m.roundId) !in s.root
    ensures var t := After(sha, s, path); var id := t.savers[p].m.roundId;
      && HasSaved(t, w, id) && (forall q :: HasSaved(t, q, id) ==> q == w)
      && RoundDir(id) in t.root && t.root[RoundDir(id)] == Dir(Some(t.savers[w].src), Whole(t.savers[w].m))
  {
    var t := After(sha, s, path);
    var id := t.savers[p].m.roundId;
    PathKeeps(sha, s, path);
    assert SaverOk(sha, t.root, t.winner, p, t.savers[p]);
    VisibleNeverChanges(sha, s, path, id);
    w := t.winner[id];
    assert SaverOk(sha, t.root, t.winner, w, t.savers[w]);
    forall q | HasSaved(t, q, id) ensures q == w {
      assert SaverOk(sha, t.root, t.winner, q, t.savers[q]);
    }
  }

  /** No crash and no error leaves anything behind that List could take for a round. */
  lemma LeftoversAreInvisible(sha: Bytes -> Bytes, s: State, path: seq<Action>, name: string)
    requires Initial(sha, s) && IsPath(sha, s, path) && name in After(sha, s, path).root
    ensures ParseUint(name).Some? <==> exists id: Uint64 :: name == RoundDir(id)
    ensures ParseUint(name).Some? ==> name == RoundDir(ParseUint(name).value)
  {
    PathKeeps(sha, s, path);
    NumericNames(sha, After(sha, s, path).root, name);
  }

  /** In a sound root the numeric names are exactly the canonical names of rounds. */
  lemma NumericNames(sha: Bytes -> Bytes, root: Root, name: string)
    requires RootOk(sha, root) && name in root
    ensures ParseUint(name).Some? <==> exists id: Uint64 :: name == RoundDir(id)
    ensures ParseUint(name).Some? ==> name == RoundDir(ParseUint(name).value)
  {
    if IsTemp(name) {
      NoLeadingDigit(name);
      forall id: Uint64 ensures name != RoundDir(id) {
        RoundNames(id, id);
      }
    } else {
      var id: Uint64 :| name == RoundDir(id) && Complete(sha, id, root[name]);
      ParseFormat(id);
    }
  }
}
