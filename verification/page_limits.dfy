/** Runs showing that the page guarantees need their hypotheses: each theorem's
    conclusion fails as soon as one hypothesis is dropped. */
module PageLimits {
  import opened Options
  import opened PageRows
  import opened PageProtocol
  import opened PageExclusive
  import opened PageDedup

  // ------------------------------------------------------- runs put end to end

  /** The rules a run keeps to: all of a calm run's but the one on overlapping
      runs, a plain run's, or those of a run that keeps every target and loses no
      record, builds or not. */
  datatype Rules = ButOverlap | Plainly | AtHome

  predicate Meets(m: Rules, w: World, l: Label) {
    match m
    case ButOverlap => RowWriteOk(l) && NoEditOverlap(w, l)
    case Plainly => Allowed(w, l) && PlainAllowed(w, l)
    case AtHome => Allowed(w, l) && TargetAllowed(w, l) && RecordingAllowed(w, l)
  }

  predicate Follows(m: Rules, w: World, ls: seq<Label>)
    decreases |ls|
  {
    |ls| > 0 ==> Meets(m, w, ls[0]) && Follows(m, Step(w, ls[0]), ls[1..])
  }

  lemma {:induction false} FollowsMeans(m: Rules, w: World, ls: seq<Label>)
    requires Follows(m, w, ls)
    ensures m.Plainly? ==> Plain(w, ls) && Calm(w, ls)
    ensures m.AtHome? ==> Homed(w, ls) && Recording(w, ls)
    decreases |ls|
  {
    hide Step, Allowed, PlainAllowed, TargetAllowed, RecordingAllowed;
    if |ls| > 0 {
      FollowsMeans(m, Step(w, ls[0]), ls[1..]);
    }
  }

  /** `ls` goes from `w` to `w'` within the rules. */
  predicate Goes(m: Rules, w: World, ls: seq<Label>, w': World) {
    Exec(w, ls) == w' && Follows(m, w, ls)
  }

  lemma {:induction false} Then(m: Rules, w: World, ls: seq<Label>, w1: World, ms: seq<Label>, w2: World)
    requires Goes(m, w, ls, w1) && Goes(m, w1, ms, w2)
    ensures Goes(m, w, ls + ms, w2)
    decreases |ls|
  {
    hide Step, Meets;
    if |ls| == 0 {
      assert ls + ms == ms;
    } else {
      assert (ls + ms)[1..] == ls[1..] + ms;
      Then(m, Step(w, ls[0]), ls[1..], w1, ms, w2);
    }
  }

  lemma OneStep(m: Rules, w: World, l: Label)
    requires Meets(m, w, l)
    ensures Goes(m, w, [l], Step(w, l))
  {
    hide Step, Meets;
    var w' := Step(w, l);
    assert [l][1..] == [];
    assert Exec(w', []) == w' && Follows(m, w', []);
  }

  /** Two steps in a row, with the worlds between them named by the caller. */
  lemma TwoSteps(m: Rules, w: World, l: Label, w1: World, k: Label, w2: World)
    requires Step(w, l) == w1 && Step(w1, k) == w2
    requires Meets(m, w, l) && Meets(m, w1, k)
    ensures Goes(m, w, [l, k], w2)
  {
    hide Step, Goes, Meets;
    OneStep(m, w, l);
    OneStep(m, w1, k);
    Then(m, w, [l], w1, [k], w2);
    assert [l] + [k] == [l, k];
  }

  // -------------------------------------------------- one actor left to itself

  /** A trigger that nothing disturbs. */
  function Triggering(a: ActorId, p: PageId): seq<Label> {
    [TriggerLoad(a, p), TriggerMark(a)] + [TriggerCreate(a, 0, true), TriggerEnqueue(a, true)]
  }

  function Triggered(w: World, p: PageId): World {
    w.(pages := WithStatus(w.pages, p, Deploying), deps := w.deps + [QueuedRow(p, 0)], sent := w.sent + {|w.deps|})
  }

  lemma TriggeringDoes(m: Rules, w: World, a: ActorId, p: PageId)
    requires a !in w.actors && NotDeploying(w.pages, p) && w.pages[p].cloudAccount.Some?
    ensures Goes(m, w, Triggering(a, p), Triggered(w, p))
  {
    hide Goes;
    var prev := w.pages[p].status;
    var w1 := Goto(w, a, TrigLoaded(p, prev));
    var w2 := Goto(SetStatus(w, p, Deploying, true), a, TrigMarked(p, prev));
    assert StepTriggerMark(w1, a) == w2 by {
      assert w1.actors[a := TrigMarked(p, prev)] == w2.actors;
    }
    TwoSteps(m, w, TriggerLoad(a, p), w1, TriggerMark(a), w2);
    TriggeringSends(m, w, a, p);
    Then(m, w, [TriggerLoad(a, p), TriggerMark(a)], w2,
         [TriggerCreate(a, 0, true), TriggerEnqueue(a, true)], Triggered(w, p));
  }

  lemma TriggeringSends(m: Rules, w: World, a: ActorId, p: PageId)
    requires a !in w.actors && NotDeploying(w.pages, p)
    ensures var w2 := Goto(SetStatus(w, p, Deploying, true), a, TrigMarked(p, w.pages[p].status));
      Goes(m, w2, [TriggerCreate(a, 0, true), TriggerEnqueue(a, true)], Triggered(w, p))
  {
    hide Goes;
    var prev := w.pages[p].status;
    var w2 := Goto(SetStatus(w, p, Deploying, true), a, TrigMarked(p, prev));
    var w3 := StepTriggerCreate(w2, a, 0, true);
    assert StepTriggerEnqueue(w3, a, true) == Triggered(w, p) by {
      assert w3.actors - {a} == w.actors;
    }
    TwoSteps(m, w2, TriggerCreate(a, 0, true), w3, TriggerEnqueue(a, true), Triggered(w, p));
  }

  /** A run up to and including its load of the page. */
  function Starting(a: ActorId, d: DepId): seq<Label> {
    [RunLoad(a, d), RunLoadPage(a)]
  }

  function Started(w: World, a: ActorId, d: DepId): World
    requires d < |w.deps| && w.deps[d].page in w.pages
  {
    Goto(w, a, Run(d, w.deps[d], w.pages[w.deps[d].page], LoadedPage))
  }

  lemma StartingDoes(m: Rules, w: World, a: ActorId, d: DepId)
    requires a !in w.actors && d in w.sent && d < |w.deps| && !IsTerminal(w.deps[d].status) && w.deps[d].page in w.pages
    requires m.ButOverlap? || forall b :: b in w.actors ==> !WorksOn(w.actors[b], d)
    ensures Goes(m, w, Starting(a, d), Started(w, a, d))
  {
    hide Goes;
    var w1 := Goto(w, a, RunFresh(d, w.deps[d]));
    var w2 := Started(w, a, d);
    assert w1.actors[a := w2.actors[a]] == w2.actors;
    TwoSteps(m, w, RunLoad(a, d), w1, RunLoadPage(a), w2);
  }

  /** The two writes that open a run. */
  function Marking(a: ActorId): seq<Label> {
    [RunMarkRow(a, 0, true), RunMarkPage(a, true)]
  }

  function MarkedAsRunning(row: Deployment): Deployment {
    row.(status := Running, startedAt := Some(0))
  }

  function Marked(w: World, a: ActorId, d: DepId, row: Deployment, snap: Page): World {
    Goto(PutRow(w, d, MarkedAsRunning(row), true), a, Run(d, MarkedAsRunning(row), snap, Preparing))
  }

  lemma MarkingDoes(m: Rules, w: World, a: ActorId, d: DepId, row: Deployment, snap: Page)
    requires a in w.actors && w.actors[a] == Run(d, row, snap, LoadedPage) && snap.status == Deploying
    ensures Goes(m, w, Marking(a), Marked(w, a, d, row, snap))
  {
    hide Goes;
    var w1 := StepRunMarkRow(w, a, 0, true);
    var w2 := Marked(w, a, d, row, snap);
    assert w1.actors[a := w2.actors[a]] == w2.actors;
    assert snap.(status := Deploying) == snap;
    TwoSteps(m, w, RunMarkRow(a, 0, true), w1, RunMarkPage(a, true), w2);
  }

  /** A run that gives up, and its closing status write. */
  function Failing(a: ActorId): seq<Label> {
    [RunFail(a, 0, true), RunClose(a, true)]
  }

  function GaveUp(w: World, a: ActorId, d: DepId, row: Deployment): World {
    Done(SetStatus(PutRow(w, d, AsFailed(row, 0), true), row.page, Errored, true), a)
  }

  lemma FailingDoes(m: Rules, w: World, a: ActorId, d: DepId, row: Deployment, snap: Page, phase: Phase)
    requires a in w.actors && w.actors[a] == Run(d, row, snap, phase) && snap.status == Deploying
    requires phase.Preparing? || phase.Cloud?
    ensures Goes(m, w, Failing(a), GaveUp(w, a, d, row))
  {
    hide Goes, WithStatus, AsFailed;
    var w1 := StepRunFail(w, a, 0, true);
    assert w1.actors - {a} == w.actors - {a};
    TwoSteps(m, w, RunFail(a, 0, true), w1, RunClose(a, true), GaveUp(w, a, d, row));
  }

  /** A settings request on a page it does not repoint, loaded and written. */
  function Editing(a: ActorId, p: PageId, patch: Patch): seq<Label> {
    [EditLoad(a, p, patch), EditWrite(a)]
  }

  lemma EditingMeets(m: Rules, w: World, a: ActorId, p: PageId, patch: Patch, w1: World)
    requires w.actors == map[] && p in w.pages && patch.cloudAccount.None? && patch.region.None?
    requires PlanEdit(w.pages[p], patch).Plan?
    requires var Plan(edited, retargets) := PlanEdit(w.pages[p], patch);
      w1 == Goto(w, a, EditLoaded(p, w.pages[p], edited, retargets))
    ensures Meets(m, w, EditLoad(a, p, patch)) && Meets(m, w1, EditWrite(a))
  {
    hide HasServed;
  }

  lemma EditingDoes(m: Rules, w: World, a: ActorId, p: PageId, patch: Patch)
    requires w.actors == map[] && p in w.pages && patch.cloudAccount.None? && patch.region.None?
    requires PlanEdit(w.pages[p], patch).Plan?
    ensures Goes(m, w, Editing(a, p, patch), w.(pages := WithSettings(w.pages, p, PlanEdit(w.pages[p], patch).edited)))
  {
    hide Goes, Meets;
    var Plan(edited, retargets) := PlanEdit(w.pages[p], patch);
    var w1 := Goto(w, a, EditLoaded(p, w.pages[p], edited, retargets));
    EditingMeets(m, w, a, p, patch, w1);
    assert w1.actors - {a} == w.actors;
    TwoSteps(m, w, EditLoad(a, p, patch), w1, EditWrite(a), w.(pages := WithSettings(w.pages, p, edited)));
  }

  // ------------------------------------------------------------ the first page

  /** A fresh page, its build on or off. */
  function Fresh(built: bool): Page {
    Page(AwsCloudFront, Some(1), "us-east-1", ".", built, map[], Idle)
  }

  function Held(built: bool): Page {
    Fresh(built).(status := Deploying)
  }

  function Created(built: bool): World {
    EMPTY.(pages := map[0 := Fresh(built)], saved := map[0 := map[]])
  }

  lemma Creating(m: Rules, built: bool)
    ensures Goes(m, EMPTY, [CreatePage(0, Fresh(built))], Created(built))
  {
    hide Goes;
    assert Step(EMPTY, CreatePage(0, Fresh(built))) == Created(built);
    OneStep(m, EMPTY, CreatePage(0, Fresh(built)));
  }

  const ROW := QueuedRow(0, 0)

  /** A first page with one deployment queued. */
  lemma Opening(m: Rules, built: bool) returns (ls: seq<Label>, w: World)
    ensures Goes(m, EMPTY, ls, w)
    ensures w == Triggered(Created(built), 0)
    ensures w.pages == map[0 := Held(built)] && w.deps == [ROW] && w.sent == {0} && w.actors == map[]
  {
    hide Goes;
    Creating(m, built);
    TriggeringDoes(m, Created(built), 0, 0);
    w := Triggered(Created(built), 0);
    Then(m, EMPTY, [CreatePage(0, Fresh(built))], Created(built), Triggering(0, 0), w);
    ls := [CreatePage(0, Fresh(built))] + Triggering(0, 0);
  }

  // ---------------------------------------------------------- overlapping runs

  /** The same message taken twice, both runs having read the page. */
  lemma TwiceLoaded() returns (ls: seq<Label>, w: World)
    ensures Goes(ButOverlap, EMPTY, ls, w)
    ensures w.pages == map[0 := Held(false)] && w.deps == [ROW] && w.sent == {0}
    ensures w.actors == map[2 := Run(0, ROW, Held(false), LoadedPage), 3 := Run(0, ROW, Held(false), LoadedPage)]
  {
    hide Goes, Triggered;
    var ls0, w0 := Opening(ButOverlap, false);
    StartingDoes(ButOverlap, w0, 2, 0);
    var w1 := Started(w0, 2, 0);
    Then(ButOverlap, EMPTY, ls0, w0, Starting(2, 0), w1);
    StartingDoes(ButOverlap, w1, 3, 0);
    w := Started(w1, 3, 0);
    Then(ButOverlap, EMPTY, ls0 + Starting(2, 0), w1, Starting(3, 0), w);
    ls := ls0 + Starting(2, 0) + Starting(3, 0);
  }

  /** One of the two runs gives up, and the page is triggered again. */
  lemma Retriggered() returns (ls: seq<Label>, w: World)
    ensures Goes(ButOverlap, EMPTY, ls, w)
    ensures w.pages == map[0 := Held(false)] && w.deps == [AsFailed(MarkedAsRunning(ROW), 0), ROW]
    ensures w.actors == map[3 := Run(0, ROW, Held(false), LoadedPage)]
  {
    hide Goes;
    var ls0, w0 := TwiceLoaded();
    MarkingDoes(ButOverlap, w0, 2, 0, ROW, Held(false));
    var w1 := Marked(w0, 2, 0, ROW, Held(false));
    Then(ButOverlap, EMPTY, ls0, w0, Marking(2), w1);
    FailingDoes(ButOverlap, w1, 2, 0, MarkedAsRunning(ROW), Held(false), Preparing);
    var w2 := GaveUp(w1, 2, 0, MarkedAsRunning(ROW));
    Then(ButOverlap, EMPTY, ls0 + Marking(2), w1, Failing(2), w2);
    TriggeringDoes(ButOverlap, w2, 4, 0);
    w := Triggered(w2, 0);
    Then(ButOverlap, EMPTY, ls0 + Marking(2) + Failing(2), w2, Triggering(4, 0), w);
    ls := ls0 + Marking(2) + Failing(2) + Triggering(4, 0);
  }

  /** A redelivery that starts while the first run is still alive ends up
      reviving the finished row, next to the row of a later trigger. */
  lemma OverlapBreaksExclusivity() returns (ls: seq<Label>)
    ensures Follows(ButOverlap, EMPTY, ls) && !Exclusive(Exec(EMPTY, ls))
  {
    hide Step;
    var ls0, w0 := Retriggered();
    MarkingDoes(ButOverlap, w0, 3, 0, ROW, Held(false));
    var w := Marked(w0, 3, 0, ROW, Held(false));
    Then(ButOverlap, EMPTY, ls0, w0, Marking(3), w);
    ls := ls0 + Marking(3);
    assert w.deps == [MarkedAsRunning(ROW), ROW];
    assert IsActive(w.deps[0].status) && IsActive(w.deps[1].status);
  }

  // ------------------------------------------------- runs as far as the origin

  /** Recording a run's inputs and asking whether the sync can be skipped. */
  function Looking(a: ActorId, commit: string): seq<Label> {
    [RunPrepare(a, commit, ".", true), RunLookup(a, true)]
  }

  function Ready(row: Deployment, commit: string): Deployment {
    row.(commitSHA := commit, publishPath := ".")
  }

  function Looked(w: World, a: ActorId, d: DepId, row: Deployment, snap: Page, commit: string): World
    requires d < |w.deps|
  {
    var w1 := PutRow(w, d, Ready(row, commit), true);
    var phase :=
      if !snap.buildEnabled && DedupMatches(w1, Ready(row, commit))
      then Skipping(w1.deps[LatestSuccess(w1.deps, row.page).value].providerRef)
      else Cloud;
    Goto(w1, a, Run(d, Ready(row, commit), snap, phase))
  }

  lemma LookingDoes(m: Rules, w: World, a: ActorId, d: DepId, row: Deployment, snap: Page, commit: string)
    requires a in w.actors && w.actors[a] == Run(d, row, snap, Preparing) && d < |w.deps| && commit != ""
    ensures Goes(m, w, Looking(a, commit), Looked(w, a, d, row, snap, commit))
  {
    hide Goes;
    var w1 := StepRunPrepare(w, a, commit, ".", true);
    var w2 := Looked(w, a, d, row, snap, commit);
    assert w1.actors[a := w2.actors[a]] == w2.actors;
    TwoSteps(m, w, RunPrepare(a, commit, ".", true), w1, RunLookup(a, true), w2);
  }

  /** A queued deployment taken by one worker as far as its dedup decision. */
  function Reaching(a: ActorId, d: DepId, commit: string): seq<Label> {
    Starting(a, d) + Marking(a) + Looking(a, commit)
  }

  lemma ReachingDoes(m: Rules, w: World, a: ActorId, d: DepId, commit: string) returns (w': World)
    requires a !in w.actors && d in w.sent && d < |w.deps| && w.deps[d] == ROW && commit != "" && 0 in w.pages
    requires w.pages[0].status == Deploying
    requires forall b :: b in w.actors ==> !WorksOn(w.actors[b], d)
    ensures Goes(m, w, Reaching(a, d, commit), w')
    ensures var started := Marked(Started(w, a, d), a, d, ROW, w.pages[0]);
      && w' == Looked(started, a, d, MarkedAsRunning(ROW), w.pages[0], commit)
      && w'.deps == w.deps[d := Inputs(commit)] && a in w'.actors && w'.actors == w.actors[a := w'.actors[a]]
  {
    hide Goes;
    var w1 := Started(w, a, d);
    StartingDoes(m, w, a, d);
    var w2 := Marked(w1, a, d, ROW, w.pages[0]);
    MarkingDoes(m, w1, a, d, ROW, w.pages[0]);
    w' := Looked(w2, a, d, MarkedAsRunning(ROW), w.pages[0], commit);
    LookingDoes(m, w2, a, d, MarkedAsRunning(ROW), w.pages[0], commit);
    Then(m, w, Starting(a, d), w1, Marking(a), w2);
    Then(m, w, Starting(a, d) + Marking(a), w2, Looking(a, commit), w');
    assert w'.deps == w.deps[d := Inputs(commit)];
  }

  const HOME := TargetOf(0, Fresh(false))

  function Inputs(commit: string): Deployment {
    Ready(MarkedAsRunning(ROW), commit)
  }

  function Published(commit: string): Deployment {
    Succeeded(Inputs(commit), "", 0)
  }

  function Output(built: bool, commit: string): Content {
    if built then Built(0) else Files(commit, ".")
  }

  /** Once a sync is recorded, only a build stays untold. */
  function Told(w: World, built: bool): map<PageId, Content> {
    if built then w.untold[0 := Built(0)] else w.untold - {0}
  }

  /** Sync, record, close. */
  lemma Publishing(m: Rules, w: World, a: ActorId, d: DepId, commit: string, built: bool)
    returns (ls: seq<Label>, w': World)
    requires a in w.actors && w.actors[a] == Run(d, Inputs(commit), Held(built), Cloud) && d < |w.deps| && 0 in w.pages
    requires m.Plainly? ==> !built
    ensures Goes(m, w, ls, w')
    ensures w' == Done(w, a).(
            pages := w.pages[0 := w.pages[0].(status := Live)],
            deps := w.deps[d := Published(commit)],
            origin := w.origin[HOME := Output(built, commit)],
            untold := Told(w, built))
  {
    hide Goes, LatestSuccess;
    var w1 := StepRunSync(w, a, 0, SyncOk(""));
    var c := Output(built, commit);
    assert w1 == Goto(w.(origin := w.origin[HOME := c], untold := w.untold[0 := c]),
                      a, Run(d, Inputs(commit), Held(built), Synced("")));
    OneStep(m, w, RunSync(a, 0, SyncOk("")));
    hide Step;
    var w2, tail := RecordAndClose(m, w1, a, d, commit, built);
    Then(m, w, [RunSync(a, 0, SyncOk(""))], w1, tail, w2);
    ls, w' := [RunSync(a, 0, SyncOk(""))] + tail, w2;
    assert w1.actors - {a} == w.actors - {a};
    assert Told(w1, built) == Told(w, built);
  }

  lemma Closing(m: Rules, w: World, a: ActorId, snap: Page, outcome: PageStatus) returns (w': World)
    requires a in w.actors && w.actors[a] == RunClosing(0, snap, outcome)
    requires snap.status == Deploying && outcome != Deploying
    ensures Goes(m, w, [RunClose(a, true)], w')
    ensures w' == Done(SetStatus(w, 0, outcome, true), a)
  {
    hide Goes;
    w' := Done(SetStatus(w, 0, outcome, true), a);
    assert Step(w, RunClose(a, true)) == w';
    OneStep(m, w, RunClose(a, true));
  }

  lemma RecordAndClose(m: Rules, w: World, a: ActorId, d: DepId, commit: string, built: bool)
    returns (w': World, ls: seq<Label>)
    requires a in w.actors && w.actors[a] == Run(d, Inputs(commit), Held(built), Synced(""))
    requires d < |w.deps| && 0 in w.pages && (built ==> w.untold[0 := Built(0)] == w.untold)
    ensures Goes(m, w, ls, w')
    ensures w' == Done(w, a).(
            pages := w.pages[0 := w.pages[0].(status := Live)],
            deps := w.deps[d := Published(commit)],
            untold := Told(w, built))
  {
    hide Goes;
    var w1 := Goto(w.(deps := w.deps[d := Published(commit)], untold := Told(w, built)),
                   a, RunClosing(0, Held(built), Live));
    assert Step(w, RunSucceed(a, 0, true)) == w1;
    OneStep(m, w, RunSucceed(a, 0, true));
    w' := Closing(m, w1, a, Held(built), Live);
    Then(m, w, [RunSucceed(a, 0, true)], w1, [RunClose(a, true)], w');
    ls := [RunSucceed(a, 0, true)] + [RunClose(a, true)];
    assert w1.actors - {a} == w.actors - {a};
  }

  /** Commit "a" published and recorded. */
  lemma FirstPublished(m: Rules, built: bool) returns (ls: seq<Label>, w: World)
    requires m.Plainly? ==> !built
    ensures Goes(m, EMPTY, ls, w)
    ensures w.pages == map[0 := Fresh(built).(status := Live)] && w.deps == [Published("a")] && w.sent == {0}
    ensures w.actors == map[] && w.origin == map[HOME := Output(built, "a")]
  {
    hide Goes, Step;
    var ls0, w0 := Opening(m, built);
    var w1 := ReachingDoes(m, w0, 2, 0, "a");
    Then(m, EMPTY, ls0, w0, Reaching(2, 0, "a"), w1);
    assert w1.actors == map[2 := Run(0, Inputs("a"), Held(built), Cloud)];
    var tail, w2 := Publishing(m, w1, 2, 0, "a", built);
    Then(m, EMPTY, ls0 + Reaching(2, 0, "a"), w1, tail, w2);
    ls, w := ls0 + Reaching(2, 0, "a") + tail, w2;
  }

  lemma OnlyFirst(deps: Deployments)
    requires |deps| > 0 && deps[0] == Published("a") && forall d :: 1 <= d < |deps| ==> deps[d].status != Success
    ensures LatestSuccess(deps, 0) == Some(0)
  {
    LatestSuccessIsLast(deps, 0);
  }

  /** A third run of the same commit finds that success and skips. */
  lemma SkipsToFirst(w: World, a: ActorId, d: DepId)
    requires 0 < d < |w.deps| && w.deps[d] == MarkedAsRunning(ROW) && w.deps[0] == Published("a")
    requires forall e :: 1 <= e < |w.deps| ==> w.deps[e].status != Success
    ensures Looked(w, a, d, MarkedAsRunning(ROW), Held(false), "a").actors
         == w.actors[a := Run(d, Inputs("a"), Held(false), Skipping(""))]
  {
    OnlyFirst(PutRow(w, d, Inputs("a"), true).deps);
  }

  /** Skipping while the origin holds something else claims files that are not there. */
  lemma SkipMisleads(w: World, a: ActorId, d: DepId, c: Content)
    requires a in w.actors && w.actors[a] == Run(d, Inputs("a"), Held(false), Skipping(""))
    requires Serving(w, HOME, c) && c != Files("a", ".")
    ensures Succeeding(w, a) && !ServesItsRow(w, a)
  {
  }

  /** A queued run of that commit up to its skip. */
  lemma Skipped(m: Rules, w: World, a: ActorId, d: DepId) returns (w': World)
    requires w.actors == map[] && w.pages == map[0 := Held(false)] && d in w.sent && 0 < d < |w.deps|
    requires w.deps[d] == ROW && w.deps[0] == Published("a")
    requires forall e :: 1 <= e < |w.deps| ==> w.deps[e].status != Success
    ensures Goes(m, w, Reaching(a, d, "a"), w')
    ensures w'.origin == w.origin && w'.actors == map[a := Run(d, Inputs("a"), Held(false), Skipping(""))]
  {
    hide Goes, LatestSuccess;
    w' := ReachingDoes(m, w, a, d, "a");
    SkipsToFirst(Marked(Started(w, a, d), a, d, ROW, Held(false)), a, d);
  }

  // ------------------------------------------------------------- lost records

  /** Sync, then the worker dies. */
  lemma Losing(w: World, a: ActorId, d: DepId, commit: string) returns (ls: seq<Label>, w': World)
    requires a in w.actors && w.actors[a] == Run(d, Inputs(commit), Held(false), Cloud)
    ensures Goes(Plainly, w, ls, w')
    ensures w' == Done(w, a).(origin := w.origin[HOME := Files(commit, ".")],
                              untold := w.untold[0 := Files(commit, ".")])
  {
    hide Goes;
    var w1 := StepRunSync(w, a, 0, SyncOk(""));
    w' := Done(w1, a);
    assert w1.actors - {a} == w.actors - {a};
    TwoSteps(Plainly, w, RunSync(a, 0, SyncOk("")), w1, Crash(a), w');
    ls := [RunSync(a, 0, SyncOk("")), Crash(a)];
  }

  /** The stale sweep fails an abandoned row and frees the page. */
  lemma Recovering(w: World, a: ActorId, d: DepId) returns (ls: seq<Label>, w': World)
    requires w.actors == map[] && d < |w.deps| && w.deps[d].status == Running && w.deps[d].page in w.pages
    ensures Goes(Plainly, w, ls, w')
    ensures w' == w.(pages := WithStatus(w.pages, w.deps[d].page, Errored), deps := w.deps[d := AsFailed(w.deps[d], 0)])
  {
    hide Goes, WithStatus, AsFailed, HasServed;
    var w1 := StepStaleMark(w, a, d, 0);
    w' := StepStaleClose(w1, a, true);
    assert w1.actors - {a} == w.actors;
    TwoSteps(Plainly, w, StaleMark(a, d, 0), w1, StaleClose(a, true), w');
    ls := [StaleMark(a, d, 0), StaleClose(a, true)];
  }

  /** Then commit "b" on its way to the provider. */
  lemma SecondInCloud() returns (ls: seq<Label>, w: World)
    ensures Goes(Plainly, EMPTY, ls, w)
    ensures w.pages == map[0 := Held(false)] && w.deps == [Published("a"), Inputs("b")] && w.sent == {0, 1}
    ensures w.actors == map[4 := Run(1, Inputs("b"), Held(false), Cloud)]
  {
    hide Goes, Step;
    var ls0, w0 := FirstPublished(Plainly, false);
    TriggeringDoes(Plainly, w0, 3, 0);
    var w1 := Triggered(w0, 0);
    assert w1.deps == [Published("a"), ROW];
    Then(Plainly, EMPTY, ls0, w0, Triggering(3, 0), w1);
    w := ReachingDoes(Plainly, w1, 4, 1, "b");
    ls := ls0 + Triggering(3, 0) + Reaching(4, 1, "b");
    Then(Plainly, EMPTY, ls0 + Triggering(3, 0), w1, Reaching(4, 1, "b"), w);
    OnlyFirst(w.deps);
  }

  /** And synced, by a worker that dies before recording it. */
  lemma SecondLost() returns (ls: seq<Label>, w: World)
    ensures Goes(Plainly, EMPTY, ls, w)
    ensures w.pages == map[0 := Held(false)] && w.deps == [Published("a"), Inputs("b")]
    ensures w.sent == {0, 1} && w.actors == map[] && Serving(w, HOME, Files("b", "."))
  {
    hide Goes, Step;
    var ls0, w0 := SecondInCloud();
    var tail, w1 := Losing(w0, 4, 1, "b");
    Then(Plainly, EMPTY, ls0, w0, tail, w1);
    ls, w := ls0 + tail, w1;
  }

  /** The stale sweep fails that row, and the page is triggered once more. */
  lemma ThirdQueued() returns (ls: seq<Label>, w: World)
    ensures Goes(Plainly, EMPTY, ls, w)
    ensures w.pages == map[0 := Held(false)] && w.deps == [Published("a"), AsFailed(Inputs("b"), 0), ROW]
    ensures w.sent == {0, 1, 2} && w.actors == map[] && Serving(w, HOME, Files("b", "."))
  {
    hide Goes;
    var ls0, w0 := SecondLost();
    var sweep, w1 := Recovering(w0, 5, 1);
    Then(Plainly, EMPTY, ls0, w0, sweep, w1);
    TriggeringDoes(Plainly, w1, 6, 0);
    w := Triggered(w1, 0);
    Then(Plainly, EMPTY, ls0 + sweep, w1, Triggering(6, 0), w);
    ls := ls0 + sweep + Triggering(6, 0);
  }

  /** A worker lost between its sync and the row recording it makes a later
      deployment of the older commit skip its sync and claim files that are not there. */
  lemma LostRecordBreaksDedup() returns (ls: seq<Label>)
    ensures Plain(EMPTY, ls) && Succeeding(Exec(EMPTY, ls), 7) && !ServesItsRow(Exec(EMPTY, ls), 7)
  {
    hide Step, Plain, Succeeding, ServesItsRow, LatestSuccess, Meets, Exec, Follows, Reaching;
    var ls0, w0 := ThirdQueued();
    var w := Skipped(Plainly, w0, 7, 2);
    Then(Plainly, EMPTY, ls0, w0, Reaching(7, 2, "a"), w);
    ls := ls0 + Reaching(7, 2, "a");
    FollowsMeans(Plainly, EMPTY, ls);
    SkipMisleads(w, 7, 2, Files("b", "."));
  }

  // -------------------------------------------------------- builds turned off

  const UNBUILD := Patch(None, None, None, Some(false))

  /** Commit "a" built and published, the build turned off, the page triggered again. */
  lemma BuildTurnedOff() returns (ls: seq<Label>, w: World)
    ensures Goes(AtHome, EMPTY, ls, w)
    ensures w.pages == map[0 := Held(false)] && w.deps == [Published("a"), ROW] && w.sent == {0, 1}
    ensures w.actors == map[] && Serving(w, HOME, Built(0))
  {
    hide Goes, Step;
    var ls0, w0 := FirstPublished(AtHome, true);
    EditingDoes(AtHome, w0, 5, 0, UNBUILD);
    var w1 := w0.(pages := WithSettings(w0.pages, 0, Fresh(false).(status := Live)));
    Then(AtHome, EMPTY, ls0, w0, Editing(5, 0, UNBUILD), w1);
    TriggeringDoes(AtHome, w1, 6, 0);
    w := Triggered(w1, 0);
    Then(AtHome, EMPTY, ls0 + Editing(5, 0, UNBUILD), w1, Triggering(6, 0), w);
    ls := ls0 + Editing(5, 0, UNBUILD) + Triggering(6, 0);
  }

  /** The lookup never asks whether the last success was built: deploying the same
      commit with the build turned off skips its sync and claims the plain files
      while the origin still holds the build's output. */
  lemma BuildTurnedOffBreaksDedup() returns (ls: seq<Label>)
    ensures Homed(EMPTY, ls) && Recording(EMPTY, ls)
    ensures Succeeding(Exec(EMPTY, ls), 7) && !ServesItsRow(Exec(EMPTY, ls), 7)
  {
    hide Step, Homed, Recording, Succeeding, ServesItsRow, LatestSuccess, Meets, Exec, Follows, Reaching;
    var ls0, w0 := BuildTurnedOff();
    var w := Skipped(AtHome, w0, 7, 1);
    Then(AtHome, EMPTY, ls0, w0, Reaching(7, 1, "a"), w);
    ls := ls0 + Reaching(7, 1, "a");
    FollowsMeans(AtHome, EMPTY, ls);
    SkipMisleads(w, 7, 1, Built(0));
  }

  // ---------------------------------------------------------- racing settings

  /** A region change planned before a first run saves its bucket is still
      written after that run has closed: the page's files stay behind in the old
      region. */
  lemma GuardedEditCanStrandResources() returns (ls: seq<Label>, a: ActorId)
    ensures Calm(EMPTY, ls)
    ensures var w := Exec(EMPTY, ls);
      EditPending(w, a) && MovesPinnedRegion(w, a)
  {
    hide Goes, Calm;
    Creating(Plainly, false);
    var patch := Patch(None, Some("eu-west-1"), None, None);
    var edit := EditLoaded(0, Fresh(false), Fresh(false).(region := "eu-west-1"), true);
    var w1 := Goto(Created(false), 1, edit);
    OneStep(Plainly, Created(false), EditLoad(1, 0, patch));
    ls := [CreatePage(0, Fresh(false))] + [EditLoad(1, 0, patch)];
    Then(Plainly, EMPTY, [CreatePage(0, Fresh(false))], Created(false), [EditLoad(1, 0, patch)], w1);
    TriggeringDoes(Plainly, w1, 0, 0);
    var w2 := Triggered(w1, 0);
    Then(Plainly, EMPTY, ls, w1, Triggering(0, 0), w2);
    ls := ls + Triggering(0, 0);
    assert w2.deps == [ROW];
    var w3 := ReachingDoes(Plainly, w2, 2, 0, "a");
    Then(Plainly, EMPTY, ls, w2, Reaching(2, 0, "a"), w3);
    ls := ls + Reaching(2, 0, "a");
    assert w3.actors[2] == Run(0, Inputs("a"), Held(false), Cloud);
    var w4, tail := SaveAndFail(w3, 1, edit);
    Then(Plainly, EMPTY, ls, w3, tail, w4);
    ls := ls + tail;
    a := 1;
    Stranded(ls, w4, edit);
  }

  lemma Stranded(ls: seq<Label>, w: World, edit: Actor)
    requires Goes(Plainly, EMPTY, ls, w) && 1 in w.actors && w.actors[1] == edit
    requires edit.EditLoaded? && edit.page == 0 && edit.edited.region == "eu-west-1" && 0 in w.pages
    requires w.pages[0] == Held(false).(runtime := map[BucketName := "b"], status := Errored)
    ensures Calm(EMPTY, ls) && EditPending(Exec(EMPTY, ls), 1) && MovesPinnedRegion(Exec(EMPTY, ls), 1)
  {
    hide Step, Calm;
    FollowsMeans(Plainly, EMPTY, ls);
  }

  lemma SaveBucket(w: World) returns (w': World)
    requires 2 in w.actors && w.actors[2] == Run(0, Inputs("a"), Held(false), Cloud) && 0 in w.pages
    ensures Goes(Plainly, w, [RunSave(2, BucketName, "b", true)], w')
    ensures w'.pages == WithRuntime(w.pages, 0, map[BucketName := "b"])
    ensures w'.actors == w.actors[2 := Run(0, Inputs("a"), Held(false).(runtime := map[BucketName := "b"]), Cloud)]
  {
    hide Goes;
    w' := StepRunSave(w, 2, BucketName, "b", true);
    OneStep(Plainly, w, RunSave(2, BucketName, "b", true));
  }

  lemma SaveAndFail(w: World, a: ActorId, edit: Actor) returns (w': World, ls: seq<Label>)
    requires a != 2 && a in w.actors && w.actors[a] == edit && edit.EditLoaded?
    requires 2 in w.actors && w.actors[2] == Run(0, Inputs("a"), Held(false), Cloud) && 0 in w.pages
    ensures Goes(Plainly, w, ls, w')
    ensures 0 in w'.pages && w'.pages[0] == w.pages[0].(runtime := map[BucketName := "b"], status := Errored)
    ensures a in w'.actors && w'.actors[a] == edit
  {
    hide Goes;
    var snap := Held(false).(runtime := map[BucketName := "b"]);
    var w1 := SaveBucket(w);
    FailingDoes(Plainly, w1, 2, 0, Inputs("a"), snap, Cloud);
    w' := GaveUp(w1, 2, 0, Inputs("a"));
    Then(Plainly, w, [RunSave(2, BucketName, "b", true)], w1, Failing(2), w');
    ls := [RunSave(2, BucketName, "b", true)] + Failing(2);
  }
}
