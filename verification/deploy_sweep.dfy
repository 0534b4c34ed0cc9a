/** The stale-deployment sweep: it pages through a status filter while failing
    rows, so the rows of later pages move up under it. */
module DeploySweep {
  import opened Options
  import opened DeployStates

  datatype Row = Row(app: AppId, status: DeployStatus, createdAt: int, startedAt: Option<int>, finishedAt: Option<int>)

  const STALE_SECONDS := 30 * 60

  predicate IsStale(row: Row, now: int) {
    now - (if row.startedAt.Some? then row.startedAt.value else row.createdAt) >= STALE_SECONDS
  }

  /** A row is stale half an hour after its run started or, when none has, after it was made. */
  lemma StaleCountsFrom(row: Row, started: int, now: int)
    ensures IsStale(row.(startedAt := Some(started)), now) <==> now >= started + 1800
    ensures row.startedAt.None? ==> (IsStale(row, now) <==> now >= row.createdAt + 1800)
  {
  }

  function AsFailed(row: Row, now: int): Row {
    row.(status := Failed, finishedAt := Some(now))
  }

  // ---------------------------------------------------- what the store returns

  /** Positions of the rows a status filter keeps, in table order. */
  function Matching(rows: seq<Row>, status: DeployStatus): (ids: seq<nat>)
    ensures Listed(rows, ids)
  {
    if |rows| == 0 then []
    else
      var n := |rows| - 1;
      Matching(rows[..n], status) + (if rows[n].status == status then [n] else [])
  }

  lemma {:induction false} InMatching(rows: seq<Row>, status: DeployStatus)
    ensures forall k: nat :: k in Matching(rows, status) <==> k < |rows| && rows[k].status == status
    ensures forall i, j | 0 <= i < j < |Matching(rows, status)| :: Matching(rows, status)[i] < Matching(rows, status)[j]
  {
    if |rows| > 0 {
      InMatching(rows[..|rows| - 1], status);
    }
  }

  /** LIMIT and OFFSET. */
  function Slice(ids: seq<nat>, offset: nat, limit: nat): seq<nat> {
    if offset >= |ids| then [] else if offset + limit >= |ids| then ids[offset..] else ids[offset..offset + limit]
  }

  // --------------------------------------------------- what one sweep should do

  predicate Listed(rows: seq<Row>, ids: seq<nat>) {
    forall i | 0 <= i < |ids| :: ids[i] < |rows|
  }

  function StaleOf(rows: seq<Row>, ids: seq<nat>, now: int): (r: seq<nat>)
    requires Listed(rows, ids)
    ensures |r| <= |ids|
  {
    if |ids| == 0 then []
    else StaleOf(rows, ids[..|ids| - 1], now) + (if IsStale(rows[ids[|ids| - 1]], now) then [ids[|ids| - 1]] else [])
  }

  lemma {:induction false} InStaleOf(rows: seq<Row>, ids: seq<nat>, now: int)
    requires Listed(rows, ids)
    ensures forall k :: k in StaleOf(rows, ids, now) <==> k in ids && IsStale(rows[k], now)
  {
    if |ids| > 0 {
      InStaleOf(rows, ids[..|ids| - 1], now);
    }
  }

  /** The rows failed out of the filtered list `ids`: every stale row of a page,
      after which as many following rows as were failed slip past unread. */
  function SweepList(rows: seq<Row>, ids: seq<nat>, per: nat, now: int): (r: seq<nat>)
    requires per >= 1 && Listed(rows, ids)
    decreases |ids|
  {
    if |ids| < per then StaleOf(rows, ids, now)
    else
      var failed := StaleOf(rows, ids[..per], now);
      if |ids| - per <= |failed| then failed
      else failed + SweepList(rows, ids[per + |failed|..], per, now)
  }

  function Elems(ids: seq<nat>): set<nat> {
    set k | k in ids
  }

  function SweptIn(rows: seq<Row>, status: DeployStatus, per: nat, now: int): set<nat>
    requires per >= 1
  {
    Elems(SweepList(rows, Matching(rows, status), per, now))
  }

  function FailAll(rows: seq<Row>, failed: set<nat>, now: int): (r: seq<Row>)
    ensures |r| == |rows|
  {
    seq(|rows|, i requires 0 <= i < |rows| => if i in failed then AsFailed(rows[i], now) else rows[i])
  }

  function FailApps(apps: map<AppId, AppStatus>, rows: seq<Row>, failed: set<nat>): map<AppId, AppStatus> {
    map p | p in apps :: if exists i :: i in failed && i < |rows| && rows[i].app == p then AppError else apps[p]
  }

  /** One sweep of both statuses. */
  function Sweep(rows: seq<Row>, per: nat, now: int): seq<Row>
    requires per >= 1
  {
    FailAll(rows, SweptIn(rows, Building, per, now) + SweptIn(rows, Deploying, per, now), now)
  }

  // ------------------------------------------------------- failing and filtering

  function Keep(ids: seq<nat>, failed: set<nat>): (r: seq<nat>)
  {
    if |ids| == 0 then []
    else
      var n := |ids| - 1;
      Keep(ids[..n], failed) + (if ids[n] in failed then [] else [ids[n]])
  }

  lemma {:induction false} KeepConcat(a: seq<nat>, b: seq<nat>, failed: set<nat>)
    ensures Keep(a + b, failed) == Keep(a, failed) + Keep(b, failed)
  {
    if |b| == 0 {
      assert a + b == a;
    } else {
      var n := |b| - 1;
      assert (a + b)[..|a + b| - 1] == a + b[..n];
      assert (a + b)[|a + b| - 1] == b[n];
      KeepConcat(a, b[..n], failed);
    }
  }

  lemma {:induction false} KeepAll(ids: seq<nat>, failed: set<nat>)
    requires forall k | k in ids :: k !in failed
    ensures Keep(ids, failed) == ids
  {
    if |ids| > 0 {
      var n := |ids| - 1;
      KeepAll(ids[..n], failed);
      assert ids[..n] + [ids[n]] == ids;
    }
  }

  /** Failing rows takes exactly them out of the filter and shifts the rest. */
  lemma {:induction false} MatchingShifts(rows: seq<Row>, rows': seq<Row>, status: DeployStatus, failed: set<nat>)
    requires |rows'| == |rows|
    requires forall i: nat | i < |rows| :: rows'[i].status == status <==> rows[i].status == status && i !in failed
    ensures Matching(rows', status) == Keep(Matching(rows, status), failed)
  {
    if |rows| > 0 {
      var n := |rows| - 1;
      MatchingShifts(rows[..n], rows'[..n], status, failed);
      var ids, before := Matching(rows, status), Matching(rows[..n], status);
      if rows[n].status == status {
        assert ids[..|ids| - 1] == before && ids[|ids| - 1] == n;
        assert Keep(ids, failed) == Keep(before, failed) + (if n in failed then [] else [n]);
      } else {
        assert ids == before;
      }
    }
  }

  /** A page's stale rows and the rows it leaves in place make up the page. */
  lemma {:induction false} KeptLength(rows: seq<Row>, ids: seq<nat>, failed: set<nat>, now: int)
    requires Listed(rows, ids)
    requires forall k | k in ids :: k in failed <==> IsStale(rows[k], now)
    ensures |Keep(ids, failed)| + |StaleOf(rows, ids, now)| == |ids|
  {
    if |ids| > 0 {
      KeptLength(rows, ids[..|ids| - 1], failed, now);
    }
  }

  lemma {:induction false} StaleConcat(rows: seq<Row>, a: seq<nat>, b: seq<nat>, now: int)
    requires Listed(rows, a) && Listed(rows, b)
    ensures StaleOf(rows, a + b, now) == StaleOf(rows, a, now) + StaleOf(rows, b, now)
  {
    if |b| == 0 {
      assert a + b == a;
    } else {
      var n := |b| - 1;
      assert (a + b)[..|a + b| - 1] == a + b[..n];
      assert (a + b)[|a + b| - 1] == b[n];
      StaleConcat(rows, a, b[..n], now);
    }
  }

  // ------------------------------------------------------------- main results

  /** A sweep fails at least half of the stale rows it was listed: the rows that
      slip past a page are no more than the rows failed on it. */
  lemma {:induction false} SweepListHalves(rows: seq<Row>, ids: seq<nat>, per: nat, now: int)
    requires per >= 1 && Listed(rows, ids)
    ensures |StaleOf(rows, ids, now)| <= 2 * |SweepList(rows, ids, per, now)|
    decreases |ids|
  {
    hide StaleOf;
    if |ids| >= per {
      var failed := StaleOf(rows, ids[..per], now);
      StaleConcat(rows, ids[..per], ids[per..], now);
      assert ids[..per] + ids[per..] == ids;
      if |ids| - per > |failed| {
        var slipped, rest := ids[per..][..|failed|], ids[per + |failed|..];
        assert slipped + rest == ids[per..];
        StaleConcat(rows, slipped, rest, now);
        SweepListHalves(rows, rest, per, now);
      }
    }
  }

  predicate Increasing(ids: seq<nat>) {
    forall i, j | 0 <= i < j < |ids| :: ids[i] < ids[j]
  }

  lemma {:induction false} StaleIncreasing(rows: seq<Row>, ids: seq<nat>, now: int)
    requires Listed(rows, ids) && Increasing(ids)
    ensures Increasing(StaleOf(rows, ids, now))
  {
    if |ids| > 0 {
      StaleIncreasing(rows, ids[..|ids| - 1], now);
      InStaleOf(rows, ids[..|ids| - 1], now);
      var before := StaleOf(rows, ids[..|ids| - 1], now);
      forall i | 0 <= i < |before| ensures before[i] < ids[|ids| - 1] {
        assert before[i] in before;
      }
    }
  }

  /** Only stale listed rows are failed, and none of them twice. */
  lemma {:induction false} InSweepList(rows: seq<Row>, ids: seq<nat>, per: nat, now: int)
    requires per >= 1 && Listed(rows, ids) && Increasing(ids)
    ensures forall k | k in SweepList(rows, ids, per, now) :: k in ids && IsStale(rows[k], now)
    ensures Increasing(SweepList(rows, ids, per, now))
    decreases |ids|
  {
    hide StaleOf;
    if |ids| < per {
      InStaleOf(rows, ids, now);
      StaleIncreasing(rows, ids, now);
    } else {
      var failed := StaleOf(rows, ids[..per], now);
      InStaleOf(rows, ids[..per], now);
      StaleIncreasing(rows, ids[..per], now);
      if |ids| - per > |failed| {
        var rest := ids[per + |failed|..];
        InSweepList(rows, rest, per, now);
        var later := SweepList(rows, rest, per, now);
        forall i, j | 0 <= i < |failed| && 0 <= j < |later| ensures failed[i] < later[j] {
          assert failed[i] in ids[..per] && later[j] in rest;
        }
      }
    }
  }

  lemma {:induction false} IncreasingCount(ids: seq<nat>)
    requires Increasing(ids)
    ensures |Elems(ids)| == |ids|
  {
    if |ids| > 0 {
      var n := |ids| - 1;
      IncreasingCount(ids[..n]);
      forall k ensures k in Elems(ids) <==> k in Elems(ids[..n]) + {ids[n]} {
        if k in ids && k != ids[n] {
          var i :| 0 <= i < |ids| && ids[i] == k;
          assert ids[..n][i] == k;
        }
      }
      assert Elems(ids) == Elems(ids[..n]) + {ids[n]};
      assert ids[n] !in Elems(ids[..n]);
    }
  }

  function StaleRows(rows: seq<Row>, status: DeployStatus, now: int): set<nat> {
    set k: nat | k < |rows| && rows[k].status == status && IsStale(rows[k], now)
  }

  /** What one pass over a status fails: only its stale rows, at least half of them. */
  lemma SweptInHalves(rows: seq<Row>, status: DeployStatus, per: nat, now: int)
    requires per >= 1
    ensures SweptIn(rows, status, per, now) <= StaleRows(rows, status, now)
    ensures |StaleRows(rows, status, now)| <= 2 * |SweptIn(rows, status, per, now)|
  {
    var ids := Matching(rows, status);
    InMatching(rows, status);
    InSweepList(rows, ids, per, now);
    IncreasingCount(SweepList(rows, ids, per, now));
    hide StaleOf, SweepList, Matching;
    InStaleOf(rows, ids, now);
    StaleIncreasing(rows, ids, now);
    IncreasingCount(StaleOf(rows, ids, now));
    assert StaleRows(rows, status, now) == Elems(StaleOf(rows, ids, now));
    SweepListHalves(rows, ids, per, now);
  }

  /** No stale row slips past: behind each full page, none of the next rows, as
      many of them as the page's failures shift over the next offset, is stale. */
  predicate NoStaleSlips(rows: seq<Row>, ids: seq<nat>, per: nat, now: int)
    requires per >= 1 && Listed(rows, ids)
    decreases |ids|
  {
    |ids| >= per ==>
      var shift := |StaleOf(rows, ids[..per], now)|;
      var behind := ids[per..];
      if |behind| <= shift then StaleOf(rows, behind, now) == []
      else StaleOf(rows, behind[..shift], now) == [] && NoStaleSlips(rows, behind[shift..], per, now)
  }

  /** Counting: a sweep's list falls short of the stale rows by those that slip. */
  lemma {:induction false} SweepListMisses(rows: seq<Row>, ids: seq<nat>, per: nat, now: int)
    requires per >= 1 && Listed(rows, ids)
    ensures |SweepList(rows, ids, per, now)| <= |StaleOf(rows, ids, now)|
    ensures |SweepList(rows, ids, per, now)| == |StaleOf(rows, ids, now)| <==> NoStaleSlips(rows, ids, per, now)
    decreases |ids|
  {
    hide StaleOf;
    if |ids| >= per {
      var failed, behind := StaleOf(rows, ids[..per], now), ids[per..];
      StaleConcat(rows, ids[..per], behind, now);
      assert ids[..per] + behind == ids;
      if |behind| > |failed| {
        var slipped, rest := behind[..|failed|], behind[|failed|..];
        assert slipped + rest == behind && rest == ids[per + |failed|..];
        StaleConcat(rows, slipped, rest, now);
        SweepListMisses(rows, rest, per, now);
      }
    }
  }

  /** A pass over a status fails every stale row of it if and only if none slips. */
  lemma MissesNothingExactly(rows: seq<Row>, status: DeployStatus, per: nat, now: int)
    requires per >= 1
    ensures SweptIn(rows, status, per, now) == StaleRows(rows, status, now) <==>
              NoStaleSlips(rows, Matching(rows, status), per, now)
  {
    var ids := Matching(rows, status);
    var swept, stale := SweepList(rows, ids, per, now), StaleOf(rows, ids, now);
    InMatching(rows, status);
    hide StaleOf, SweepList, Matching, NoStaleSlips;
    InStaleOf(rows, ids, now);
    InSweepList(rows, ids, per, now);
    IncreasingCount(swept);
    StaleIncreasing(rows, ids, now);
    IncreasingCount(stale);
    assert StaleRows(rows, status, now) == Elems(stale);
    assert Elems(swept) <= Elems(stale);
    SubsetOfSameSize(Elems(swept), Elems(stale));
    SweepListMisses(rows, ids, per, now);
  }

  lemma SubsetOfSameSize(a: set<nat>, b: set<nat>)
    requires a <= b
    ensures |a| == |b| <==> a == b
  {
    assert b == a + (b - a);
  }

  /** So a whole sweep leaves no stale row if and only if none slips in either status. */
  lemma SweepIsCompleteExactly(rows: seq<Row>, per: nat, now: int)
    requires per >= 1
    ensures (&& StaleRows(Sweep(rows, per, now), Building, now) == {}
             && StaleRows(Sweep(rows, per, now), Deploying, now) == {}) <==>
            NoStaleSlips(rows, Matching(rows, Building), per, now)
            && NoStaleSlips(rows, Matching(rows, Deploying), per, now)
  {
    hide SweptIn, NoStaleSlips, Matching;
    SweptInHalves(rows, Building, per, now);
    SweptInHalves(rows, Deploying, per, now);
    SweepLeaves(rows, Building, per, now);
    SweepLeaves(rows, Deploying, per, now);
    MissesNothingExactly(rows, Building, per, now);
    MissesNothingExactly(rows, Deploying, per, now);
  }

  /** What a sweep leaves stale is what its pass over that status missed. */
  lemma SweepLeaves(rows: seq<Row>, status: DeployStatus, per: nat, now: int)
    requires per >= 1 && status in {Building, Deploying}
    ensures StaleRows(Sweep(rows, per, now), status, now) ==
              StaleRows(rows, status, now) - SweptIn(rows, status, per, now)
  {
    hide SweptIn;
    SweptInHalves(rows, Building, per, now);
    SweptInHalves(rows, Deploying, per, now);
  }

  /** When a status fits on one page, nothing can slip. */
  lemma OnePageMissesNothing(rows: seq<Row>, status: DeployStatus, per: nat, now: int)
    requires per >= 1 && |Matching(rows, status)| <= per
    ensures SweptIn(rows, status, per, now) == StaleRows(rows, status, now)
  {
    MissesNothingExactly(rows, status, per, now);
    assert StaleOf(rows, [], now) == [];
  }

  /** A sweep changes only building or deploying rows that are stale, and only by failing them. */
  lemma SweepTouchesOnlyStale(rows: seq<Row>, per: nat, now: int, i: nat)
    requires per >= 1 && i < |rows|
    ensures Sweep(rows, per, now)[i] == rows[i]
            || (Sweep(rows, per, now)[i] == rows[i].(status := Failed, finishedAt := Some(now))
                && rows[i].status in {Building, Deploying} && IsStale(rows[i], now))
  {
    SweptInHalves(rows, Building, per, now);
    SweptInHalves(rows, Deploying, per, now);
  }

  /** At a fixed clock a sweep at least halves the stale rows of each status. */
  lemma SweepHalves(rows: seq<Row>, status: DeployStatus, per: nat, now: int)
    requires per >= 1 && status in {Building, Deploying}
    ensures 2 * |StaleRows(Sweep(rows, per, now), status, now)| <= |StaleRows(rows, status, now)|
  {
    hide SweptIn, Sweep;
    SweptInHalves(rows, status, per, now);
    SweepLeaves(rows, status, per, now);
    var before, swept := StaleRows(rows, status, now), SweptIn(rows, status, per, now);
    assert |before - swept| == |before| - |swept|;
  }

  function Sweeps(rows: seq<Row>, per: nat, now: int, n: nat): seq<Row>
    requires per >= 1
    decreases n
  {
    if n == 0 then rows else Sweeps(Sweep(rows, per, now), per, now, n - 1)
  }

  function Pow2(n: nat): nat {
    if n == 0 then 1 else 2 * Pow2(n - 1)
  }

  /** Quiescent sweeps reach zero stale rows, in a number of sweeps logarithmic in how many there were. */
  lemma {:induction false} SweepsDrain(rows: seq<Row>, per: nat, now: int, n: nat)
    requires per >= 1
    requires |StaleRows(rows, Building, now)| < Pow2(n) && |StaleRows(rows, Deploying, now)| < Pow2(n)
    ensures StaleRows(Sweeps(rows, per, now, n), Building, now) == {}
    ensures StaleRows(Sweeps(rows, per, now, n), Deploying, now) == {}
    decreases n
  {
    if n > 0 {
      SweepHalves(rows, Building, per, now);
      SweepHalves(rows, Deploying, per, now);
      SweepsDrain(Sweep(rows, per, now), per, now, n - 1);
    }
  }

  /** One sweep can miss stale rows: with pages of one row, the second of two slips by. */
  lemma ShiftedRowIsMissed()
    ensures var r := Row(0, Building, 0, None, None);
      var after := Sweep([r, r], 1, STALE_SECONDS);
      after[0].status == Failed && after[1] == r
  {
    var r := Row(0, Building, 0, None, None);
    var rows := [r, r];
    hide SweepList, Matching;
    BothMatch(r);
    NothingMatches(rows, Deploying);
    FirstOnly(rows, STALE_SECONDS);
    NothingListed(rows, STALE_SECONDS);
  }

  lemma BothMatch(r: Row)
    ensures Matching([r, r], r.status) == [0, 1]
  {
    assert [r, r][..1] == [r] && [r][..0] == [];
    assert Matching([], r.status) == [];
    assert Matching([r], r.status) == [0];
  }

  lemma FirstOnly(rows: seq<Row>, now: int)
    requires |rows| == 2 && IsStale(rows[0], now)
    ensures SweepList(rows, [0, 1], 1, now) == [0]
  {
    assert [0, 1][..1] == [0] && [0][..0] == [];
    assert StaleOf(rows, [], now) == [];
    assert StaleOf(rows, [0], now) == [0];
  }

  lemma NothingListed(rows: seq<Row>, now: int)
    ensures SweepList(rows, [], 1, now) == []
  {
  }

  lemma NothingMatches(rows: seq<Row>, status: DeployStatus)
    requires forall k: nat | k < |rows| :: rows[k].status != status
    ensures Matching(rows, status) == []
  {
    InMatching(rows, status);
    if |Matching(rows, status)| > 0 {
      assert Matching(rows, status)[0] in Matching(rows, status);
    }
  }

  // ------------------------------------------------------------- the loops

  lemma FailMore(rows: seq<Row>, done: set<nat>, k: nat, now: int)
    requires k < |rows|
    ensures FailAll(rows, done, now)[k := AsFailed(rows[k], now)] == FailAll(rows, done + {k}, now)
  {
  }

  lemma FailAppsMore(apps: map<AppId, AppStatus>, rows: seq<Row>, done: set<nat>, k: nat)
    requires k < |rows|
    ensures var before := FailApps(apps, rows, done);
      FailApps(apps, rows, done + {k}) == if rows[k].app in before then before[rows[k].app := AppError] else before
  {
    var before, after := FailApps(apps, rows, done), FailApps(apps, rows, done + {k});
    forall p | p in apps ensures after[p] == if p == rows[k].app then AppError else before[p] {
      assert k in done + {k};
    }
  }

  lemma IncreasingSplit(a: seq<nat>, b: seq<nat>)
    requires Increasing(a + b)
    ensures forall k | k in a :: k !in b
  {
    forall i, j | 0 <= i < |a| && 0 <= j < |b| ensures a[i] < b[j] {
      assert (a + b)[i] < (a + b)[|a| + j];
    }
  }

  /** The tables after the rows in `done` have been failed, and no others. */
  ghost predicate FailedSoFar(rows: seq<Row>, apps: map<AppId, AppStatus>, rows0: seq<Row>,
                              apps0: map<AppId, AppStatus>, done: set<nat>, now: int) {
    rows == FailAll(rows0, done, now) && apps == FailApps(apps0, rows0, done)
  }

  lemma FailStep(rows: seq<Row>, apps: map<AppId, AppStatus>, rows0: seq<Row>, apps0: map<AppId, AppStatus>,
                 done: set<nat>, k: nat, now: int)
    requires FailedSoFar(rows, apps, rows0, apps0, done, now) && k < |rows0| && k !in done
    ensures |rows| == |rows0| && rows[k] == rows0[k]
    ensures FailedSoFar(rows[k := AsFailed(rows[k], now)],
                        if rows[k].app in apps then apps[rows[k].app := AppError] else apps,
                        rows0, apps0, done + {k}, now)
  {
    FailMore(rows0, done, k, now);
    FailAppsMore(apps0, rows0, done, k);
  }

  lemma FailedRows(rows: seq<Row>, apps: map<AppId, AppStatus>, rows0: seq<Row>, apps0: map<AppId, AppStatus>,
                   done: set<nat>, now: int)
    requires FailedSoFar(rows, apps, rows0, apps0, done, now)
    ensures rows == FailAll(rows0, done, now)
  {
  }

  lemma StaleMore(rows: seq<Row>, ids: seq<nat>, i: nat, now: int)
    requires Listed(rows, ids) && i < |ids| && Increasing(ids)
    ensures Elems(StaleOf(rows, ids[..i + 1], now)) ==
              Elems(StaleOf(rows, ids[..i], now)) + (if IsStale(rows[ids[i]], now) then {ids[i]} else {})
    ensures ids[i] !in StaleOf(rows, ids[..i], now)
  {
    assert ids[..i + 1][..i] == ids[..i];
    InStaleOf(rows, ids[..i], now);
  }

  /** After a page whose stale rows have all been failed, the filter holds the
      same prefix, the page's other rows, and everything behind the page. */
  lemma PageShifts(rows: seq<Row>, done: set<nat>, status: DeployStatus, kept: seq<nat>, rest: seq<nat>, per: nat,
                   now: int)
    requires status != Failed && per >= 1 && per <= |rest| && Matching(FailAll(rows, done, now), status) == kept + rest
    requires Listed(rows, rest) && Increasing(kept + rest) && forall k | k in rest :: k !in done
    ensures var failed := StaleOf(rows, rest[..per], now);
      var kept' := kept + Keep(rest[..per], Elems(failed));
      Matching(FailAll(rows, done + Elems(failed), now), status) == kept' + rest[per..]
      && |kept'| + |failed| == |kept| + per
  {
    hide Matching, StaleOf, Keep;
    var page, behind := rest[..per], rest[per..];
    var failed := Elems(StaleOf(rows, page, now));
    InStaleOf(rows, page, now);
    assert kept + rest == kept + page + behind;
    IncreasingSplit(kept, rest);
    IncreasingSplit(kept + page, behind);
    MatchingShifts(FailAll(rows, done, now), FailAll(rows, done + failed, now), status, failed);
    KeepConcat(kept + page, behind, failed);
    KeepConcat(kept, page, failed);
    KeepAll(kept, failed);
    KeepAll(behind, failed);
    KeptLength(rows, page, failed, now);
  }

  /** One page of a sweep, and what is left of the list after it. */
  lemma SweepListPage(rows: seq<Row>, ids: seq<nat>, per: nat, now: int)
    requires per >= 1 && Listed(rows, ids)
    ensures |ids| < per ==> SweepList(rows, ids, per, now) == StaleOf(rows, ids, now)
    ensures |ids| >= per ==>
              var failed := StaleOf(rows, ids[..per], now);
              Elems(SweepList(rows, ids, per, now)) ==
              Elems(failed) + (if |ids| - per <= |failed| then {}
                               else Elems(SweepList(rows, ids[per..][|failed|..], per, now)))
  {
    hide StaleOf;
    if |ids| >= per {
      var failed := StaleOf(rows, ids[..per], now);
      if |ids| - per > |failed| {
        assert ids[per..][|failed|..] == ids[per + |failed|..];
        ElemsConcat(failed, SweepList(rows, ids[per + |failed|..], per, now));
      }
    }
  }

  /** Where the next page of the filter begins, and what is left behind it. */
  lemma NextPage(rows: seq<Row>, done: set<nat>, status: DeployStatus, kept: seq<nat>, rest: seq<nat>, per: nat,
                 now: int)
    returns (kept': seq<nat>, rest': seq<nat>)
    requires status != Failed && per >= 1 && per <= |rest| && Matching(FailAll(rows, done, now), status) == kept + rest
    requires Listed(rows, rest) && Increasing(kept + rest) && forall k | k in rest :: k !in done
    ensures |rest'| < |rest| && Listed(rows, rest')
    ensures if rest' == [] then |kept'| <= |kept| + per else |kept'| == |kept| + per
    ensures var failed := Elems(StaleOf(rows, rest[..per], now));
      && Matching(FailAll(rows, done + failed, now), status) == kept' + rest'
      && (forall k | k in rest' :: k !in done + failed)
      && failed + Elems(SweepList(rows, rest', per, now)) == Elems(SweepList(rows, rest, per, now))
  {
    hide StaleOf, Keep, Matching, SweepList, FailAll;
    var failed := StaleOf(rows, rest[..per], now);
    PageShifts(rows, done, status, kept, rest, per, now);
    SweepListPage(rows, rest, per, now);
    InStaleOf(rows, rest[..per], now);
    IncreasingTail(kept, rest);
    assert rest == rest[..per] + rest[per..];
    IncreasingSplit(rest[..per], rest[per..]);
    kept', rest' := CutAt(kept + Keep(rest[..per], Elems(failed)), rest[per..], |failed|);
    EmptySweep(rows, per, now);
  }

  lemma CutAt(base: seq<nat>, behind: seq<nat>, n: nat) returns (kept: seq<nat>, rest: seq<nat>)
    ensures kept + rest == base + behind
    ensures rest == if |behind| <= n then [] else behind[n..]
    ensures |kept| == |base| + (if |behind| <= n then |behind| else n)
  {
    if |behind| <= n {
      kept, rest := base + behind, [];
    } else {
      kept, rest := base + behind[..n], behind[n..];
    }
  }

  lemma IncreasingTail(a: seq<nat>, b: seq<nat>)
    requires Increasing(a + b)
    ensures Increasing(b)
  {
    forall i, j | 0 <= i < j < |b| ensures b[i] < b[j] {
      assert (a + b)[|a| + i] < (a + b)[|a| + j];
    }
  }

  lemma ElemsConcat(a: seq<nat>, b: seq<nat>)
    ensures Elems(a + b) == Elems(a) + Elems(b)
  {
  }

  lemma EmptySweep(rows: seq<Row>, per: nat, now: int)
    requires per >= 1
    ensures SweepList(rows, [], per, now) == []
  {
  }

  lemma SliceAt(kept: seq<nat>, rest: seq<nat>, offset: nat, per: nat)
    requires if rest == [] then |kept| <= offset else |kept| == offset
    ensures Slice(kept + rest, offset, per) == if |rest| < per then rest else rest[..per]
  {
  }

  lemma NothingFailed(rows: seq<Row>, apps: map<AppId, AppStatus>, now: int)
    ensures FailedSoFar(rows, apps, rows, apps, {}, now)
  {
  }

  /** Half way through a status: `done` has been failed, `rest` is still ahead
      of the next page's offset, and what it will yield completes the goal. */
  datatype Progress = Progress(done: set<nat>, kept: seq<nat>, rest: seq<nat>, offset: nat)

  ghost predicate Halfway(rows: seq<Row>, rows0: seq<Row>, status: DeployStatus, per: nat, now: int, goal: set<nat>,
                          g: Progress)
    requires per >= 1
  {
    && status != Failed && rows == FailAll(rows0, g.done, now)
    && Matching(rows, status) == g.kept + g.rest
    && (if g.rest == [] then |g.kept| <= g.offset else |g.kept| == g.offset)
    && Increasing(g.kept + g.rest) && Listed(rows0, g.rest) && (forall k | k in g.rest :: k !in g.done)
    && g.done + Elems(SweepList(rows0, g.rest, per, now)) == goal
  }

  lemma AtStart(rows: seq<Row>, rows0: seq<Row>, status: DeployStatus, per: nat, now: int, done: set<nat>)
    returns (g: Progress)
    requires per >= 1 && status != Failed && rows == FailAll(rows0, done, now)
    requires Matching(rows, status) == Matching(rows0, status) && forall k | k in Matching(rows0, status) :: k !in done
    ensures Halfway(rows, rows0, status, per, now, done + SweptIn(rows0, status, per, now), g)
    ensures g.done == done && g.offset == 0
  {
    g := Progress(done, [], Matching(rows0, status), 0);
    InMatching(rows0, status);
    assert [] + g.rest == g.rest;
  }

  /** What the next page will be; a short one is the last. */
  lemma PageIs(rows: seq<Row>, rows0: seq<Row>, status: DeployStatus, per: nat, now: int, goal: set<nat>, g: Progress)
    requires per >= 1 && Halfway(rows, rows0, status, per, now, goal, g)
    ensures var listed := Slice(Matching(rows, status), g.offset, per);
      && listed == (if |g.rest| < per then g.rest else g.rest[..per])
      && Listed(rows0, listed) && Increasing(listed) && (forall k | k in listed :: k !in g.done)
      && (|listed| < per ==> g.done + Elems(StaleOf(rows0, listed, now)) == goal)
      && (|listed| == 0 ==> g.done == goal)
  {
    hide StaleOf, SweepList, Matching, FailAll;
    SliceAt(g.kept, g.rest, g.offset, per);
    IncreasingTail(g.kept, g.rest);
    SweepListPage(rows0, g.rest, per, now);
    EmptySweep(rows0, per, now);
  }

  lemma AfterPage(rows: seq<Row>, rows': seq<Row>, rows0: seq<Row>, status: DeployStatus, per: nat, now: int,
                  goal: set<nat>, g: Progress)
    returns (g': Progress)
    requires per >= 1 && Halfway(rows, rows0, status, per, now, goal, g) && |g.rest| >= per
    requires rows' == FailAll(rows0, g.done + Elems(StaleOf(rows0, g.rest[..per], now)), now)
    ensures Halfway(rows', rows0, status, per, now, goal, g') && g'.offset == g.offset + per && |g'.rest| < |g.rest|
    ensures g'.done == g.done + Elems(StaleOf(rows0, g.rest[..per], now))
  {
    hide StaleOf, SweepList, Matching, FailAll;
    var kept, rest := NextPage(rows0, g.done, status, g.kept, g.rest, per, now);
    g' := Progress(g.done + Elems(StaleOf(rows0, g.rest[..per], now)), kept, rest, g.offset + per);
    InMatching(rows', status);
  }

  class DeployTable {
    var rows: seq<Row>
    var apps: map<AppId, AppStatus>

    /** The rows of one page of a status filter. */
    method ListAll(status: DeployStatus, page: nat, per: nat) returns (ids: seq<nat>)
      requires page >= 1
      ensures ids == Slice(Matching(rows, status), (page - 1) * per, per)
    {
      var all: seq<nat> := [];
      var i := 0;
      while i < |rows|
        invariant 0 <= i <= |rows| && all == Matching(rows[..i], status)
      {
        assert rows[..i + 1][..i] == rows[..i];
        if rows[i].status == status {
          all := all + [i];
        }
        i := i + 1;
      }
      assert rows[..|rows|] == rows;
      ids := Slice(all, (page - 1) * per, per);
    }

    /** Fails the stale rows of one listed page, one write at a time. */
    method FailPage(ids: seq<nat>, now: int, ghost rows0: seq<Row>, ghost apps0: map<AppId, AppStatus>,
                    ghost done: set<nat>)
      requires Listed(rows0, ids) && Increasing(ids) && forall k | k in ids :: k !in done
      requires FailedSoFar(rows, apps, rows0, apps0, done, now)
      modifies this
      ensures FailedSoFar(rows, apps, rows0, apps0, done + Elems(StaleOf(rows0, ids, now)), now)
    {
      hide FailedSoFar, StaleOf;
      ghost var gone := done;
      var i := 0;
      assert ids[..0] == [] && done + Elems(StaleOf(rows0, [], now)) == done;
      while i < |ids|
        invariant 0 <= i <= |ids|
        invariant gone == done + Elems(StaleOf(rows0, ids[..i], now))
        invariant FailedSoFar(rows, apps, rows0, apps0, gone, now)
      {
        var k := ids[i];
        StaleMore(rows0, ids, i, now);
        FailStep(rows, apps, rows0, apps0, gone, k, now);
        if IsStale(rows[k], now) {
          var app := rows[k].app;
          rows := rows[k := AsFailed(rows[k], now)];
          if app in apps {
            apps := apps[app := AppError];
          }
          gone := gone + {k};
        }
        i := i + 1;
      }
      assert ids[..|ids|] == ids;
    }

    /** Every page of one status, while the filter shrinks underneath. */
    method SweepStatus(status: DeployStatus, per: nat, now: int, ghost rows0: seq<Row>,
                       ghost apps0: map<AppId, AppStatus>, ghost done0: set<nat>)
      requires per >= 1 && status != Failed && FailedSoFar(rows, apps, rows0, apps0, done0, now)
      requires Matching(rows, status) == Matching(rows0, status)
      requires forall k | k in Matching(rows0, status) :: k !in done0
      modifies this
      ensures FailedSoFar(rows, apps, rows0, apps0, done0 + SweptIn(rows0, status, per, now), now)
    {
      hide *;
      ghost var goal := done0 + SweptIn(rows0, status, per, now);
      FailedRows(rows, apps, rows0, apps0, done0, now);
      ghost var g := AtStart(rows, rows0, status, per, now, done0);
      var page := 1;
      while true
        invariant page >= 1 && g.offset == (page - 1) * per && FailedSoFar(rows, apps, rows0, apps0, g.done, now)
        invariant Halfway(rows, rows0, status, per, now, goal, g)
        decreases |g.rest|
      {
        var listed := ListAll(status, page, per);
        PageIs(rows, rows0, status, per, now, goal, g);
        assert listed == Slice(Matching(rows, status), g.offset, per);
        if |listed| == 0 {
          break;
        }
        ghost var before := rows;
        FailPage(listed, now, rows0, apps0, g.done);
        if |listed| < per {
          break;
        }
        FailedRows(rows, apps, rows0, apps0, g.done + Elems(StaleOf(rows0, listed, now)), now);
        g := AfterPage(before, rows, rows0, status, per, now, goal, g);
        page := page + 1;
      }
    }

    /** The whole sweep, both statuses, is `Sweep`, and the apps of exactly the
        failed rows are put into error. */
    method RecoverStaleDeployments(per: nat, now: int)
      requires per >= 1
      modifies this
      ensures rows == Sweep(old(rows), per, now)
      ensures apps ==
                FailApps(old(apps), old(rows),
                         SweptIn(old(rows), Building, per, now) + SweptIn(old(rows), Deploying, per, now))
    {
      ghost var rows0, apps0 := rows, apps;
      NothingFailed(rows, apps, now);
      SweepStatus(Building, per, now, rows0, apps0, {});
      ghost var done := {} + SweptIn(rows0, Building, per, now);
      FailedRows(rows, apps, rows0, apps0, done, now);
      SweptInHalves(rows0, Building, per, now);
      InMatching(rows0, Deploying);
      MatchingShifts(rows0, rows, Deploying, done);
      KeepAll(Matching(rows0, Deploying), done);
      SweepStatus(Deploying, per, now, rows0, apps0, done);
      assert {} + SweptIn(rows0, Building, per, now) == SweptIn(rows0, Building, per, now);
    }
  }
}
