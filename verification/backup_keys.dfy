/** The object key of a backup is chosen once: every upload and every restore
    of it uses that key, whatever crashes, redeliveries and list calls do. */
module BackupKeys {
  import opened BackupProtocol

  predicate HasKey(row: Row) {
    row.filePath != ""
  }

  // ---------------------------------------------------------------- statements

  /** Running and completed backups have a key. */
  ghost predicate KeyedWhenLive(w: World) {
    forall b | 0 <= b < |w.rows| && w.rows[b].status in {Running, Completed} :: HasKey(w.rows[b])
  }

  /** Every transfer ever launched for a backup used the key on its row. */
  ghost predicate TransfersUseKey(w: World) {
    && (forall t | t in w.uploads :: t.0 < |w.rows| && HasKey(w.rows[t.0]) && t.1 == w.rows[t.0].filePath)
    && (forall t | t in w.downloads :: t.0 < |w.rows| && HasKey(w.rows[t.0]) && t.1 == w.rows[t.0].filePath)
  }

  /** Keys set in `w` are the same in `w'`. */
  ghost predicate KeysKept(w: World, w': World) {
    && |w.rows| <= |w'.rows|
    && forall b | 0 <= b < |w.rows| && HasKey(w.rows[b]) :: w'.rows[b].filePath == w.rows[b].filePath
  }

  // ----------------------------------------------------------------- invariant

  predicate RowOK(row: Row) {
    row.status in {Running, Completed} || row.restore != NoRestore ==> HasKey(row)
  }

  /** A copy that carries a key carries the stored one. */
  ghost predicate CopyOK(w: World, b: BackupId, row: Row) {
    b < |w.rows| && RowOK(row) && (HasKey(row) ==> w.rows[b].filePath == row.filePath)
  }

  /** A copy whose key, set or not, is the stored one, held by the only actor allowed to choose it. */
  ghost predicate OwnedOK(w: World, own: map<BackupId, ActorId>, a: ActorId, b: BackupId, row: Row) {
    b < |w.rows| && RowOK(row) && w.rows[b].filePath == row.filePath && b in own && own[b] == a
  }

  ghost predicate ActorOK(w: World, own: map<BackupId, ActorId>, a: ActorId)
    requires a in w.actors
  {
    match w.actors[a]
    case TrigCreated(b) => OwnedOK(w, own, a, b, PENDING) && b !in w.sent
    case TrigUnsent(b) => OwnedOK(w, own, a, b, PENDING) && b !in w.sent
    case RunLoaded(b, row) => OwnedOK(w, own, a, b, row) && b in w.sent
    case RunMarked(b, row) => OwnedOK(w, own, a, b, row) && b in w.sent && HasKey(row)
    case RunDoomed(b, row) => OwnedOK(w, own, a, b, row) && b in w.sent
    case Listing(items, _, _) => forall i | 0 <= i < |items| :: CopyOK(w, items[i].0, items[i].1)
    case RestoreLoaded(b, row) => CopyOK(w, b, row) && HasKey(row)
    case RestoreStarted(b, row) => CopyOK(w, b, row) && HasKey(row)
  }

  ghost predicate Inv(w: World, own: map<BackupId, ActorId>) {
    && (forall b | 0 <= b < |w.rows| :: RowOK(w.rows[b]))
    && (forall a | a in w.actors :: ActorOK(w, own, a))
    && TransfersUseKey(w)
    && (forall b | b in w.sent :: b < |w.rows|)
  }

  // ------------------------------------------------------ what each write keeps

  /** Whatever leaves every key alone leaves every other actor's clause alone. */
  lemma OthersKeep(w: World, own: map<BackupId, ActorId>, w': World, a: ActorId, b: ActorId)
    requires b in w.actors && b != a && ActorOK(w, own, b)
    requires |w.rows| <= |w'.rows| && w'.sent == w.sent && b in w'.actors && w'.actors[b] == w.actors[b]
    requires forall k | 0 <= k < |w.rows| :: w'.rows[k].filePath == w.rows[k].filePath
    ensures ActorOK(w', own, b)
  {
  }

  /** A step whose row write carries the stored key. */
  lemma QuietStep(w: World, own: map<BackupId, ActorId>, w': World, a: ActorId)
    requires Inv(w, own)
    requires |w.rows| <= |w'.rows| && w'.sent == w.sent && w'.uploads == w.uploads && w'.downloads == w.downloads
    requires forall k | 0 <= k < |w.rows| :: w'.rows[k].filePath == w.rows[k].filePath
    requires forall k | 0 <= k < |w'.rows| :: RowOK(w'.rows[k])
    requires forall b | b in w'.actors && b != a :: b in w.actors && w'.actors[b] == w.actors[b]
    requires a in w'.actors ==> ActorOK(w', own, a)
    ensures Inv(w', own) && KeysKept(w, w')
  {
    forall b | b in w'.actors ensures ActorOK(w', own, b) {
      if b != a {
        OthersKeep(w, own, w', a, b);
      }
    }
  }

  lemma TriggerKeeps(w: World, own: map<BackupId, ActorId>, l: Label) returns (own': map<BackupId, ActorId>)
    requires Inv(w, own) && (l.TriggerCreate? || l.TriggerEnqueue? || l.TriggerFailRow?)
    ensures Inv(Step(w, l), own') && KeysKept(w, Step(w, l))
  {
    own' := own;
    var w' := Step(w, l);
    if w' != w {
      if l.TriggerCreate? {
        own' := own[|w.rows| := l.a];
        forall b | b in w'.actors ensures ActorOK(w', own', b) {
          assert b != l.a ==> ActorOK(w, own, b);
        }
      } else {
        assert ActorOK(w, own, l.a);
        if l.TriggerEnqueue? && l.ok {
          forall b | b in w'.actors ensures ActorOK(w', own, b) {
            assert ActorOK(w, own, b);
          }
        } else {
          QuietStep(w, own, w', l.a);
        }
      }
    }
  }

  lemma RunLoadKeeps(w: World, own: map<BackupId, ActorId>, a: ActorId, k: BackupId)
    returns (own': map<BackupId, ActorId>)
    requires Inv(w, own) && NoOverlap(w, RunLoad(a, k))
    ensures Inv(StepRunLoad(w, a, k), own') && KeysKept(w, StepRunLoad(w, a, k))
  {
    own' := own;
    var w' := StepRunLoad(w, a, k);
    if w' != w {
      own' := own[k := a];
      forall b | b in w'.actors ensures ActorOK(w', own', b) {
        if b != a {
          assert ActorOK(w, own, b) && !RunsOn(w.actors[b], k);
        }
      }
    }
  }

  /** The one step that sets a key: nobody else can be holding a different one. */
  lemma RunMarkKeeps(w: World, own: map<BackupId, ActorId>, a: ActorId, newKey: string, write: Write)
    requires Inv(w, own)
    ensures Inv(StepRunMark(w, a, newKey, write), own) && KeysKept(w, StepRunMark(w, a, newKey, write))
  {
    var w' := StepRunMark(w, a, newKey, write);
    if a in w.actors && w.actors[a].RunLoaded? && newKey != "" {
      assert ActorOK(w, own, a);
      forall b | b in w'.actors ensures ActorOK(w', own, b) {
        assert ActorOK(w, own, b);
      }
    }
  }

  lemma RunOthersKeep(w: World, own: map<BackupId, ActorId>, l: Label)
    requires Inv(w, own) && (l.RunReconcile? || l.RunFail?)
    ensures Inv(Step(w, l), own) && KeysKept(w, Step(w, l))
  {
    var w' := Step(w, l);
    if w' != w {
      assert ActorOK(w, own, l.a);
      QuietStep(w, own, w', l.a);
    }
  }

  lemma UploadKeeps(w: World, own: map<BackupId, ActorId>, a: ActorId, storage: bool, ok: bool)
    requires Inv(w, own)
    ensures Inv(StepRunLaunch(w, a, storage, ok), own) && KeysKept(w, StepRunLaunch(w, a, storage, ok))
  {
    var w' := StepRunLaunch(w, a, storage, ok);
    if w' != w {
      assert ActorOK(w, own, a);
      var quiet := w'.(uploads := w.uploads);
      QuietStep(w, own, quiet, a);
      NewTransfer(quiet, own, w');
    }
  }

  lemma DownloadKeeps(w: World, own: map<BackupId, ActorId>, a: ActorId, legacy: string, ok: bool)
    requires Inv(w, own)
    ensures Inv(StepRestoreLaunch(w, a, legacy, ok), own) && KeysKept(w, StepRestoreLaunch(w, a, legacy, ok))
  {
    var w' := StepRestoreLaunch(w, a, legacy, ok);
    if w' != w {
      assert ActorOK(w, own, a);
      var quiet := w'.(downloads := w.downloads);
      QuietStep(w, own, quiet, a);
      NewTransfer(quiet, own, w');
    }
  }

  lemma NewTransfer(w: World, own: map<BackupId, ActorId>, w': World)
    requires Inv(w, own) && w' == w.(uploads := w'.uploads, downloads := w'.downloads)
    requires TransfersUseKey(w')
    ensures Inv(w', own)
  {
    forall b | b in w'.actors ensures ActorOK(w', own, b) {
      assert ActorOK(w, own, b);
    }
  }

  lemma CopiesKeep(w: World, own: map<BackupId, ActorId>, l: Label)
    requires Inv(w, own) && (l.ListLoad? || l.ListStep? || l.RestoreLoad? || l.RestoreMark? || l.Crash?)
    ensures Inv(Step(w, l), own) && KeysKept(w, Step(w, l))
  {
    var w' := Step(w, l);
    if w' != w {
      if l.ListStep? || l.RestoreMark? {
        assert ActorOK(w, own, l.a);
      }
      QuietStep(w, own, w', l.a);
    }
  }

  lemma StepKeepsInv(w: World, own: map<BackupId, ActorId>, l: Label) returns (own': map<BackupId, ActorId>)
    requires Inv(w, own) && NoOverlap(w, l)
    ensures Inv(Step(w, l), own') && KeysKept(w, Step(w, l))
  {
    hide Inv, KeysKept, NoOverlap;
    own' := own;
    match l
    case RunLoad(a, b) => own' := RunLoadKeeps(w, own, a, b);
    case RunMark(a, newKey, write) => RunMarkKeeps(w, own, a, newKey, write);
    case RunReconcile(_, _, _) => RunOthersKeep(w, own, l);
    case RunFail(_, _, _) => RunOthersKeep(w, own, l);
    case RunLaunch(a, storage, ok) => UploadKeeps(w, own, a, storage, ok);
    case RestoreLaunch(a, legacy, ok) => DownloadKeeps(w, own, a, legacy, ok);
    case TriggerCreate(_) => own' := TriggerKeeps(w, own, l);
    case TriggerEnqueue(_, _) => own' := TriggerKeeps(w, own, l);
    case TriggerFailRow(_, _, _) => own' := TriggerKeeps(w, own, l);
    case _ => CopiesKeep(w, own, l);
  }

  lemma {:induction false} ExecKeepsInv(w: World, own: map<BackupId, ActorId>, ls: seq<Label>)
    returns (own': map<BackupId, ActorId>)
    requires Inv(w, own) && Serial(w, ls)
    ensures Inv(Exec(w, ls), own') && KeysKept(w, Exec(w, ls))
    decreases |ls|
  {
    hide Inv, Step, NoOverlap;
    own' := own;
    if |ls| > 0 {
      own' := StepKeepsInv(w, own, ls[0]);
      own' := ExecKeepsInv(Step(w, ls[0]), own', ls[1..]);
    }
  }

  lemma {:induction false} ExecSplit(w: World, ls: seq<Label>, k: nat)
    requires Serial(w, ls) && k <= |ls|
    ensures Serial(w, ls[..k]) && Serial(Exec(w, ls[..k]), ls[k..])
    ensures Exec(w, ls) == Exec(Exec(w, ls[..k]), ls[k..])
    decreases |ls|
  {
    hide Step, NoOverlap;
    if k == 0 {
      assert ls[0..] == ls;
    } else {
      ExecSplit(Step(w, ls[0]), ls[1..], k - 1);
      assert ls[..k][1..] == ls[1..][..k - 1] && ls[1..][k - 1..] == ls[k..];
    }
  }

  // --------------------------------------------------------------- main result

  /** Over every run in which executions of one job do not overlap: live backups
      have keys, every transfer used the key on its row, and a key set at any
      point of the run is the key at its end. */
  lemma BackupKeyIsStable(ls: seq<Label>, k: nat)
    requires Serial(EMPTY, ls) && k <= |ls|
    ensures KeyedWhenLive(Exec(EMPTY, ls)) && TransfersUseKey(Exec(EMPTY, ls))
    ensures KeysKept(Exec(EMPTY, ls[..k]), Exec(EMPTY, ls))
  {
    ExecSplit(EMPTY, ls, k);
    var own := ExecKeepsInv(EMPTY, map[], ls[..k]);
    own := ExecKeepsInv(Exec(EMPTY, ls[..k]), own, ls[k..]);
  }

  /** All uploads and restores of one backup name one object. */
  lemma OneObjectPerBackup(ls: seq<Label>, b: BackupId, s: string, t: string)
    requires Serial(EMPTY, ls)
    requires var w := Exec(EMPTY, ls); (b, s) in w.uploads + w.downloads && (b, t) in w.uploads + w.downloads
    ensures s == t
  {
    BackupKeyIsStable(ls, 0);
  }

  lemma BothLoaded() returns (ls: seq<Label>)
    ensures Exec(EMPTY, ls) ==
              World([PENDING], {0}, map[1 := RunLoaded(0, PENDING), 2 := RunLoaded(0, PENDING)], {}, {})
  {
    hide Exec;
    ls := [TriggerCreate(0), TriggerEnqueue(0, true), RunLoad(1, 0), RunLoad(2, 0)];
    assert ls[..1] == [] + [ls[0]] && ls[..2] == ls[..1] + [ls[1]] && ls[..3] == ls[..2] + [ls[2]]
           && ls == ls[..3] + [ls[3]];
    ExecNothing(EMPTY);
    ExecSnoc(EMPTY, [], ls[0]);
    ExecSnoc(EMPTY, ls[..1], ls[1]);
    assert Exec(EMPTY, ls[..2]) == EMPTY.(rows := [PENDING], sent := {0});
    ExecSnoc(EMPTY, ls[..2], ls[2]);
    ExecSnoc(EMPTY, ls[..3], ls[3]);
  }

  lemma ExecNothing(w: World)
    ensures Exec(w, []) == w
  {
  }

  /** Two executions of one job that both load the row before either marks it
      upload to two objects. */
  lemma OverlapUploadsTwice() returns (ls: seq<Label>)
    ensures {(0, "x"), (0, "y")} <= Exec(EMPTY, ls).uploads
  {
    hide Exec;
    ls := BothLoaded();
    ExecSnoc(EMPTY, ls, RunMark(1, "x", Stored));
    ls := ls + [RunMark(1, "x", Stored)];
    ExecSnoc(EMPTY, ls, RunMark(2, "y", Stored));
    ls := ls + [RunMark(2, "y", Stored)];
    var w := Exec(EMPTY, ls);
    assert w.actors == map[1 := RunMarked(0, Keyed(PENDING, "x")), 2 := RunMarked(0, Keyed(PENDING, "y"))];
    ExecSnoc(EMPTY, ls, RunLaunch(1, true, true));
    ls := ls + [RunLaunch(1, true, true)];
    ExecSnoc(EMPTY, ls, RunLaunch(2, true, true));
    ls := ls + [RunLaunch(2, true, true)];
  }
}
