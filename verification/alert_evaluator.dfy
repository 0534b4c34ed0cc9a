/** Alert reconciliation: each evaluation compares the sources that fire with
    the alerts still active, resolving, keeping and inserting rows. */
module AlertEvaluator {
  import opened Options

  type AlertId = nat

  datatype Alert = Alert(rule: string, source: string, message: string, firedAt: int, resolvedAt: Option<int>)

  datatype Firing = Firing(source: string, message: string)

  datatype Rule = Rule(name: string, firings: seq<Firing>)

  /** Which store calls succeed. */
  datatype Answers = Answers(
    listOk: bool, resolveOk: AlertId -> bool, getOk: string -> bool, insertOk: string -> bool, recentOk: string -> bool)

  const COOLDOWN := 30 * 60
  const RECENT_LIMIT := 200

  predicate IsActive(rows: seq<Alert>, i: AlertId, rule: string) {
    i < |rows| && rows[i].rule == rule && rows[i].resolvedAt.None?
  }

  predicate ActiveFor(rows: seq<Alert>, i: AlertId, rule: string, source: string) {
    IsActive(rows, i, rule) && rows[i].source == source
  }

  /** Rows stand in the order they fired, none of them in the future. */
  ghost predicate InOrder(rows: seq<Alert>, now: int) {
    && (forall i, j | 0 <= i < j < |rows| :: rows[i].firedAt <= rows[j].firedAt)
    && (forall i | 0 <= i < |rows| :: rows[i].firedAt <= now)
  }

  // ---------------------------------------------------------------- statements

  /** At most one active alert per source of the rule. */
  ghost predicate AtMostOne(rows: seq<Alert>, rule: string) {
    forall i: AlertId, j: AlertId |
      IsActive(rows, i, rule) && IsActive(rows, j, rule) && rows[i].source == rows[j].source ::
      i == j
  }

  ghost predicate Fires(rule: Rule, source: string) {
    exists k :: 0 <= k < |rule.firings| && rule.firings[k].source == source
  }

  ghost predicate HasActive(rows: seq<Alert>, rule: string, source: string) {
    exists i: AlertId :: ActiveFor(rows, i, rule, source)
  }

  /** A row is as it was, or was active and is resolved now. */
  predicate KeptOrResolved(row: Alert, row': Alert, now: int) {
    row' == row || (row.resolvedAt.None? && row' == row.(resolvedAt := Some(now)))
  }

  /** Rows are only ever resolved, at the present time, or appended, and only those of one rule. */
  ghost predicate OnlyRule(rows: seq<Alert>, rows': seq<Alert>, rule: string, now: int) {
    && |rows| <= |rows'|
    && (forall i | 0 <= i < |rows| ::
          KeptOrResolved(rows[i], rows'[i], now) && (rows[i].rule != rule ==> rows'[i] == rows[i]))
    && (forall i | |rows| <= i < |rows'| :: rows'[i].rule == rule)
  }

  /** What the rule last said about a source. */
  ghost predicate Says(rule: Rule, source: string, message: string) {
    exists k :: 0 <= k < |rule.firings| && rule.firings[k] == Firing(source, message)
      && forall j | k < j < |rule.firings| :: rule.firings[j].source != source
  }

  /** A row for something that fires, fresh and active. */
  ghost predicate IsFresh(row: Alert, rule: Rule, now: int) {
    row == Alert(rule.name, row.source, row.message, now, None) && Says(rule, row.source, row.message)
  }

  /** No row was appended for the source. */
  ghost predicate NothingNew(rows: seq<Alert>, rows': seq<Alert>, rule: string, source: string) {
    forall i | |rows| <= i < |rows'| && rows'[i].rule == rule :: rows'[i].source != source
  }

  /** A source with a resolution in sight, up to the last row appended, gets no row. */
  ghost predicate HeldBack(rows: seq<Alert>, rows': seq<Alert>, rule: string, now: int, o: Answers) {
    && |rows| <= |rows'|
    && forall s | o.recentOk(s) && ResolvedInSight(rows, rule, s, now, |rows'| - |rows|) ::
         NothingNew(rows, rows', rule, s)
  }

  /** What one evaluation of a rule establishes when its store calls succeed. */
  ghost predicate Reconciled(rows: seq<Alert>, rows': seq<Alert>, rule: Rule, cooling: set<string>) {
    && AtMostOne(rows', rule.name)
    && (forall i: AlertId | IsActive(rows', i, rule.name) :: Fires(rule, rows'[i].source))
    && (forall k | 0 <= k < |rule.firings| ::
          HasActive(rows', rule.name, rule.firings[k].source) || rule.firings[k].source in cooling)
    && (forall k | 0 <= k < |rule.firings| && HasActive(rows, rule.name, rule.firings[k].source) ::
          exists i: AlertId ::
            ActiveFor(rows, i, rule.name, rule.firings[k].source)
            && ActiveFor(rows', i, rule.name, rule.firings[k].source))
  }

  // ------------------------------------------------------------------ cooldown

  /** Rows a listing of the last half hour shows: the newest two hundred of those that fired in it. */
  predicate Shown(rows: seq<Alert>, k: AlertId, now: int) {
    k < |rows| && k + RECENT_LIMIT >= |rows| && rows[k].firedAt >= now - COOLDOWN
  }

  predicate RecentlyResolved(rows: seq<Alert>, k: AlertId, rule: string, source: string, now: int) {
    k < |rows| && rows[k].rule == rule && rows[k].source == source && rows[k].resolvedAt.Some?
    && now - rows[k].resolvedAt.value < COOLDOWN
  }

  /** Half an hour without a new alert after any resolution. */
  ghost predicate PromisedCooldown(rows: seq<Alert>, rule: string, source: string, now: int) {
    exists k: AlertId :: RecentlyResolved(rows, k, rule, source, now)
  }

  /** The check made before inserting: some shown alert of the rule and source was
      resolved in the last half hour. */
  ghost predicate CoolsDown(rows: seq<Alert>, rule: string, source: string, now: int) {
    exists k: AlertId :: Shown(rows, k, now) && RecentlyResolved(rows, k, rule, source, now)
  }

  /** A recent resolution of an alert that itself fired in the last half hour, and
      stays among the newest two hundred when so many more are inserted. */
  ghost predicate ResolvedInSight(rows: seq<Alert>, rule: string, source: string, now: int, more: nat) {
    exists k: AlertId ::
      RecentlyResolved(rows, k, rule, source, now) && now - rows[k].firedAt <= COOLDOWN
      && |rows| - k + more <= RECENT_LIMIT
  }

  /** The check made before inserting sees exactly the resolutions in sight. */
  lemma CoolsDownInSight(rows: seq<Alert>, rule: string, source: string, now: int)
    ensures CoolsDown(rows, rule, source, now) <==> ResolvedInSight(rows, rule, source, now, 0)
  {
    if CoolsDown(rows, rule, source, now) {
      var k: AlertId :| Shown(rows, k, now) && RecentlyResolved(rows, k, rule, source, now);
      assert RecentlyResolved(rows, k, rule, source, now) && now - rows[k].firedAt <= COOLDOWN
             && |rows| - k + 0 <= RECENT_LIMIT;
    }
    if ResolvedInSight(rows, rule, source, now, 0) {
      var k: AlertId :| RecentlyResolved(rows, k, rule, source, now) && now - rows[k].firedAt <= COOLDOWN
                        && |rows| - k + 0 <= RECENT_LIMIT;
      assert Shown(rows, k, now);
    }
  }

  lemma CoolsAsPromised(rows: seq<Alert>, rule: string, source: string, now: int)
    requires CoolsDown(rows, rule, source, now)
    ensures PromisedCooldown(rows, rule, source, now)
  {
  }

  /** A source that is not cooling down may get a row without breaking that. */
  lemma StaysHeldBack(rows0: seq<Alert>, rows: seq<Alert>, rule: string, sources: map<string, string>, row: Alert,
                      now: int, o: Answers)
    requires Extends(rows0, rows, rule, sources, now) && HeldBack(rows0, rows, rule, now, o)
    requires o.recentOk(row.source) ==> !CoolsDown(rows, rule, row.source, now)
    ensures HeldBack(rows0, rows + [row], rule, now, o)
  {
    var rows' := rows + [row];
    forall s | o.recentOk(s) && ResolvedInSight(rows0, rule, s, now, |rows'| - |rows0|)
      ensures NothingNew(rows0, rows', rule, s)
    {
      var k: AlertId :| RecentlyResolved(rows0, k, rule, s, now) && now - rows0[k].firedAt <= COOLDOWN
                        && |rows0| - k + (|rows'| - |rows0|) <= RECENT_LIMIT;
      assert ResolvedInSight(rows0, rule, s, now, |rows| - |rows0|);
      assert rows[..|rows0|][k] == rows[k];
      assert Shown(rows, k, now) && RecentlyResolved(rows, k, rule, s, now);
    }
  }

  /** The first pass part of the way: `done` has been looked at. */
  ghost predicate PassInv(rows0: seq<Alert>, rows: seq<Alert>, rule: string, firing: set<string>,
                          kept: map<string, AlertId>, done: set<AlertId>, all: bool, now: int) {
    && |rows| == |rows0| && OnlyRule(rows0, rows, rule, now) && kept.Keys <= firing
    && (forall s | s in kept ::
          kept[s] in done && ActiveFor(rows0, kept[s], rule, s) && ActiveFor(rows, kept[s], rule, s))
    && (all ==>
          forall i: AlertId | i in done && IsActive(rows, i, rule) ::
            rows[i].source in kept && kept[rows[i].source] == i)
    && (forall i: AlertId | i in done && IsActive(rows0, i, rule) && rows0[i].source in firing ::
          rows0[i].source in kept)
    && (forall i: AlertId | i in done && IsActive(rows0, i, rule) && rows0[i].source in kept ::
          i <= kept[rows0[i].source])
    && (forall i | 0 <= i < |rows| && i !in done :: rows[i] == rows0[i])
    && (forall i | 0 <= i < |rows| :: rows[i].firedAt == rows0[i].firedAt)
    && (AllFire(rows0, rule, firing) && AtMostOne(rows0, rule) ==> rows == rows0)
  }

  /** Every active alert of the rule is about a source that fires. */
  ghost predicate AllFire(rows: seq<Alert>, rule: string, firing: set<string>) {
    forall i: AlertId | IsActive(rows, i, rule) :: rows[i].source in firing
  }

  lemma PassSkips(rows0: seq<Alert>, rows: seq<Alert>, rule: string, firing: set<string>, kept: map<string, AlertId>,
                  done: set<AlertId>, all: bool, now: int, id: AlertId)
    requires PassInv(rows0, rows, rule, firing, kept, done, all, now) && id < |rows| && rows[id].rule != rule
    ensures PassInv(rows0, rows, rule, firing, kept, done + {id}, all, now)
  {
  }

  lemma PassKeeps(rows0: seq<Alert>, rows: seq<Alert>, rule: string, firing: set<string>, kept: map<string, AlertId>,
                  done: set<AlertId>, all: bool, now: int, id: AlertId)
    requires PassInv(rows0, rows, rule, firing, kept, done, all, now) && IsActive(rows, id, rule) && id !in done
    requires rows[id].source in firing && rows[id].source !in kept && forall j | j in done :: id < j
    ensures PassInv(rows0, rows, rule, firing, kept[rows[id].source := id], done + {id}, all, now)
  {
  }

  lemma PassResolves(rows0: seq<Alert>, rows: seq<Alert>, rule: string, firing: set<string>, kept: map<string, AlertId>,
                     done: set<AlertId>, all: bool, now: int, id: AlertId, ok: bool)
    requires PassInv(rows0, rows, rule, firing, kept, done, all, now) && IsActive(rows, id, rule) && id !in done
    requires rows[id].source !in firing - kept.Keys && (all ==> ok) && forall j | j in done :: id < j
    ensures PassInv(rows0,
                    if ok then rows[id := rows[id].(resolvedAt := Some(now))] else rows,
                    rule, firing, kept, done + {id}, all, now)
  {
  }

  /** What an evaluation does to the table whatever fails: only rows of the rule
      change, by being resolved now or added for what fires, a source with an
      active alert never gets a second one, and one that cools down gets none. */
  ghost predicate Careful(rows: seq<Alert>, rows': seq<Alert>, rule: Rule, now: int, o: Answers) {
    && OnlyRule(rows, rows', rule.name, now) && (AtMostOne(rows, rule.name) ==> AtMostOne(rows', rule.name))
    && (forall i | |rows| <= i < |rows'| :: IsFresh(rows'[i], rule, now))
    && HeldBack(rows, rows', rule.name, now, o)
  }

  class AlertTable {
    var rows: seq<Alert>

    /** Active rows, newest first. */
    method ListActive(ok: bool) returns (ids: seq<AlertId>)
      ensures !ok ==> ids == []
      ensures forall i | 0 <= i < |ids| :: ids[i] < |rows| && rows[ids[i]].resolvedAt.None?
      ensures forall i, j | 0 <= i < j < |ids| :: ids[i] > ids[j]
      ensures ok ==> forall k: AlertId | k < |rows| && rows[k].resolvedAt.None? :: k in ids
    {
      ids := [];
      if !ok {
        return;
      }
      var n := |rows|;
      while n > 0
        invariant 0 <= n <= |rows|
        invariant forall i | 0 <= i < |ids| :: n <= ids[i] < |rows| && rows[ids[i]].resolvedAt.None?
        invariant forall i, j | 0 <= i < j < |ids| :: ids[i] > ids[j]
        invariant forall k: AlertId | n <= k < |rows| && rows[k].resolvedAt.None? :: k in ids
      {
        n := n - 1;
        if rows[n].resolvedAt.None? {
          ids := ids + [n];
        }
      }
    }

    /** The newest rows fired in the last half hour, at most two hundred. */
    method ListRecent(now: int) returns (ids: seq<AlertId>)
      requires InOrder(rows, now)
      ensures forall k: AlertId :: k in ids <==> Shown(rows, k, now)
    {
      ids := [];
      var n := |rows|;
      while n > 0 && |ids| < RECENT_LIMIT && rows[n - 1].firedAt >= now - COOLDOWN
        invariant 0 <= n <= |rows| && |ids| == |rows| - n <= RECENT_LIMIT
        invariant forall k: AlertId :: k in ids <==> n <= k < |rows|
        invariant forall k: AlertId | n <= k < |rows| :: rows[k].firedAt >= now - COOLDOWN
      {
        n := n - 1;
        ids := ids + [n];
      }
    }

    method IsInCooldown(rule: string, source: string, ok: bool, now: int) returns (r: bool)
      requires InOrder(rows, now)
      ensures r <==> ok && CoolsDown(rows, rule, source, now)
    {
      if !ok {
        return false;
      }
      var listed := ListRecent(now);
      for i := 0 to |listed|
        invariant forall j | 0 <= j < i :: !RecentlyResolved(rows, listed[j], rule, source, now)
      {
        if RecentlyResolved(rows, listed[i], rule, source, now) {
          assert listed[i] in listed;
          return true;
        }
      }
      return false;
    }

    method Resolve(id: AlertId, now: int, ok: bool)
      requires id < |rows|
      modifies this
      ensures rows ==
                if ok && old(rows)[id].resolvedAt.None?
                then old(rows)[id := old(rows)[id].(resolvedAt := Some(now))]
                else old(rows)
    {
      if ok && rows[id].resolvedAt.None? {
        rows := rows[id := rows[id].(resolvedAt := Some(now))];
      }
    }

    /** Whether some row of the rule and source is active. */
    method GetActive(rule: string, source: string) returns (found: bool)
      ensures found <==> HasActive(rows, rule, source)
    {
      for i := 0 to |rows|
        invariant forall j: AlertId | j < i :: !ActiveFor(rows, j, rule, source)
      {
        if ActiveFor(rows, i, rule, source) {
          return true;
        }
      }
      return false;
    }

    /** The first pass: each listed alert of the rule is kept if its source still
        fires and was not met before, and resolved otherwise. What remains of the
        firing set is what was not met. */
    method ResolveOrKeep(rule: string, firing: set<string>, now: int, o: Answers)
      returns (unmet: set<string>, ghost kept: map<string, AlertId>)
      modifies this
      ensures OnlyRule(old(rows), rows, rule, now) && |rows| == |old(rows)|
      ensures kept.Keys <= firing && unmet == firing - kept.Keys
      ensures o.listOk ==> forall i: AlertId | IsActive(old(rows), i, rule) && old(rows)[i].source in kept ::
                i <= kept[old(rows)[i].source]
      ensures forall s | s in kept :: ActiveFor(old(rows), kept[s], rule, s) && ActiveFor(rows, kept[s], rule, s)
      ensures o.listOk && (forall id :: o.resolveOk(id)) ==>
                forall i: AlertId | IsActive(rows, i, rule) :: rows[i].source in kept && kept[rows[i].source] == i
      ensures o.listOk ==> forall s | s in unmet :: !HasActive(old(rows), rule, s)
      ensures InOrder(old(rows), now) ==> InOrder(rows, now)
      ensures AllFire(old(rows), rule, firing) && AtMostOne(old(rows), rule) ==> rows == old(rows)
    {
      hide PassInv, OnlyRule, AllFire, AtMostOne, HasActive, InOrder;
      var active := ListActive(o.listOk);
      ghost var all := forall id :: o.resolveOk(id);
      ghost var done: set<AlertId> := {};
      unmet, kept := firing, map[];
      StartPass(rows, rule, firing, all, now);
      for k := 0 to |active|
        invariant PassInv(old(rows), rows, rule, firing, kept, done, all, now) && unmet == firing - kept.Keys
        invariant done == set i | 0 <= i < k :: active[i]
        invariant |rows| == |old(rows)| && forall i | k <= i < |active| :: rows[active[i]] == old(rows)[active[i]]
      {
        var id := active[k];
        var alert := rows[id];
        forall j | j in done ensures id < j {}
        if alert.rule == rule {
          if alert.source !in unmet {
            PassResolves(old(rows), rows, rule, firing, kept, done, all, now, id, o.resolveOk(id));
            Resolve(id, now, o.resolveOk(id));
          } else {
            PassKeeps(old(rows), rows, rule, firing, kept, done, all, now, id);
            unmet := unmet - {alert.source};
            kept := kept[alert.source := id];
          }
        } else {
          PassSkips(old(rows), rows, rule, firing, kept, done, all, now, id);
        }
        done := done + {id};
      }
      EndPass(old(rows), rows, rule, firing, kept, done, all, now);
    }

    /** The second pass: a row for each source still unmet, unless it turns out to
        be active after all or is cooling down. */
    method InsertNew(rule: string, unmet: set<string>, messages: map<string, string>, now: int, o: Answers)
      returns (cooling: set<string>)
      requires InOrder(rows, now) && unmet <= messages.Keys
      modifies this
      ensures InOrder(rows, now) && Extends(old(rows), rows, rule, Only(messages, unmet), now)
      ensures AtMostOne(old(rows), rule) ==> AtMostOne(rows, rule)
      ensures cooling <= unmet && forall s | s in cooling :: o.recentOk(s) && PromisedCooldown(rows, rule, s, now)
      ensures (forall s :: o.getOk(s) && o.insertOk(s)) ==>
                forall s | s in unmet :: HasActive(rows, rule, s) || s in cooling
      ensures (forall s | s in unmet :: HasActive(old(rows), rule, s)) ==> rows == old(rows)
      ensures |rows| <= |old(rows)| + |unmet| && HeldBack(old(rows), rows, rule, now, o)
    {
      hide HasActive, InOrder, AtMostOne, Extends, PromisedCooldown, RecentlyResolved, CoolsDown, HeldBack;
      cooling := {};
      var todo := unmet;
      StartInserts(rows, rule, Only(messages, unmet), now, o);
      while todo != {}
        invariant todo <= unmet && InOrder(rows, now) && cooling <= unmet
        invariant Extends(old(rows), rows, rule, Only(messages, unmet), now)
        invariant AtMostOne(old(rows), rule) ==> AtMostOne(rows, rule)
        invariant forall s | s in cooling :: o.recentOk(s) && PromisedCooldown(rows, rule, s, now)
        invariant (forall s :: o.getOk(s) && o.insertOk(s)) ==>
                    forall s | s in unmet && s !in todo :: HasActive(rows, rule, s) || s in cooling
        invariant (forall s | s in unmet :: HasActive(old(rows), rule, s)) ==> rows == old(rows)
        invariant |rows| + |todo| <= |old(rows)| + |unmet|
        invariant HeldBack(old(rows), rows, rule, now, o)
        decreases |todo|
      {
        var source :| source in todo;
        todo := todo - {source};
        if !o.getOk(source) {
          continue;
        }
        var found := GetActive(rule, source);
        if found {
          continue;
        }
        var cool := IsInCooldown(rule, source, o.recentOk(source), now);
        if cool {
          CoolsAsPromised(rows, rule, source, now);
          cooling := cooling + {source};
          continue;
        }
        if o.insertOk(source) {
          var row := Alert(rule, source, messages[source], now, None);
          StaysHeldBack(old(rows), rows, rule, Only(messages, unmet), row, now, o);
          Inserted(old(rows), rows, rule, source, now, Only(messages, unmet), cooling);
          rows := rows + [row];
        }
      }
    }

    /** What fires, by source; of two firings for one source the last counts. */
    method FiringSet(rule: Rule) returns (firing: map<string, string>)
      ensures firing.Keys == set i | 0 <= i < |rule.firings| :: rule.firings[i].source
      ensures forall s | s in firing :: Says(rule, s, firing[s])
    {
      firing := map[];
      for k := 0 to |rule.firings|
        invariant firing.Keys == set i | 0 <= i < k :: rule.firings[i].source
        invariant forall s | s in firing ::
                    exists i :: 0 <= i < k && rule.firings[i] == Firing(s, firing[s])
                      && forall j | i < j < k :: rule.firings[j].source != s
      {
        firing := firing[rule.firings[k].source := rule.firings[k].message];
      }
    }

    /** One rule: what fires, what is active, and the difference. */
    method EvaluateRule(rule: Rule, now: int, o: Answers) returns (cooling: set<string>)
      requires InOrder(rows, now)
      modifies this
      ensures InOrder(rows, now) && Careful(old(rows), rows, rule, now, o)
      ensures Succeeds(o) ==> Reconciled(old(rows), rows, rule, cooling)
      ensures forall s | s in cooling :: CooledFor(rows, rule.name, s, now, o)
      ensures Steady(old(rows), rule) ==> rows == old(rows)
    {
      var firing := FiringSet(rule);
      ghost var rows0 := rows;
      hide HasActive, InOrder, Extends, AllFire, OnlyRule, AtMostOne, HeldBack, Says;
      var unmet, kept := ResolveOrKeep(rule.name, firing.Keys, now, o);
      ghost var rows1 := rows;
      cooling := InsertNew(rule.name, unmet, firing, now, o);
      assert FirstPass(rows0, rows1, rule.name, firing.Keys, kept, now, o);
      StaysCareful(rows0, rows1, rows, rule, Only(firing, unmet), now, o);
      if Succeeds(o) {
        BecomesReconciled(rows0, rows1, rows, rule, firing, kept, cooling, now, o);
      }
      if Steady(rows0, rule) {
        StaysSteady(rows0, rows1, rows, rule, firing.Keys, kept, now, o);
      }
    }

    /** All rules in turn. With no failing store call every rule ends reconciled
        against the table the evaluation started from. */
    method Evaluate(rules: seq<Rule>, now: int, o: Answers) returns (cooling: seq<set<string>>)
      requires InOrder(rows, now) && forall i, j | 0 <= i < j < |rules| :: rules[i].name != rules[j].name
      modifies this
      ensures InOrder(rows, now) && |cooling| == |rules|
      ensures Succeeds(o) ==> forall k | 0 <= k < |rules| :: Reconciled(old(rows), rows, rules[k], cooling[k])
      ensures forall name | (forall k | 0 <= k < |rules| :: rules[k].name != name) :: SameFor(old(rows), rows, name)
      ensures forall k, s | 0 <= k < |rules| && s in cooling[k] :: CooledFor(rows, rules[k].name, s, now, o)
      ensures Evaluated(old(rows), rows, rules, now, o)
    {
      hide Reconciled, SameFor, InOrder, OnlyRule, AtMostOne, Steady, Succeeds, HasActive, Evaluated, HeldBack, IsFresh,
           CooledFor;
      cooling := [];
      SameForAll(rows);
      StartEvaluation(rows, now, o);
      assert rules[..0] == [];
      for n := 0 to |rules|
        invariant InOrder(rows, now) && |cooling| == n
        invariant Evaluated(old(rows), rows, rules[..n], now, o)
        invariant forall k, s | 0 <= k < n && s in cooling[k] :: CooledFor(rows, rules[k].name, s, now, o)
        invariant Succeeds(o) ==> forall k | 0 <= k < n :: Reconciled(old(rows), rows, rules[k], cooling[k])
        invariant forall name | (forall k | 0 <= k < n :: rules[k].name != name) :: SameFor(old(rows), rows, name)
      {
        ghost var before := rows;
        var c := EvaluateRule(rules[n], now, o);
        Evaluates(old(rows), before, rows, rules[..n], rules[n], now, o);
        forall k, s | 0 <= k < n && s in cooling[k] ensures CooledFor(rows, rules[k].name, s, now, o) {
          CoolingCarries(before, rows, rules[n].name, rules[k].name, s, now, o);
        }
        assert rules[..n + 1] == rules[..n] + [rules[n]];
        SameForAll(before);
        SameForAll(rows);
        forall name | name != rules[n].name ensures SameFor(before, rows, name) {
          OthersSeeNothing(before, rows, rules[n].name, name, now);
        }
        forall name | (forall k | 0 <= k < n + 1 :: rules[k].name != name) ensures SameFor(old(rows), rows, name) {
          SameForTrans(old(rows), before, rows, name);
        }
        if Succeeds(o) {
          ReconciledCarries(old(rows), before, rows, rows, rules[n], c);
          forall k | 0 <= k < n ensures Reconciled(old(rows), rows, rules[k], cooling[k]) {
            ReconciledCarries(old(rows), old(rows), before, rows, rules[k], cooling[k]);
          }
        }
        cooling := cooling + [c];
      }
      assert rules[..|rules|] == rules;
    }
  }

  // ---------------------------------------------------------- one evaluation

  /** A source rightly held back: the listing was had, and shows a recent resolution. */
  ghost predicate CooledFor(rows: seq<Alert>, rule: string, source: string, now: int, o: Answers) {
    o.recentOk(source) && PromisedCooldown(rows, rule, source, now)
  }

  lemma CoolingCarries(rows: seq<Alert>, rows': seq<Alert>, other: string, rule: string, source: string, now: int,
                       o: Answers)
    requires CooledFor(rows, rule, source, now, o) && OnlyRule(rows, rows', other, now)
    ensures CooledFor(rows', rule, source, now, o)
  {
    var k: AlertId :| RecentlyResolved(rows, k, rule, source, now);
    assert RecentlyResolved(rows', k, rule, source, now);
  }

  /** What an evaluation of some rules does to the table whatever fails: rows of
      those rules may be resolved now, what fires may get a row, and a source that
      cools down gets none. */
  ghost predicate Evaluated(rows: seq<Alert>, rows': seq<Alert>, rules: seq<Rule>, now: int, o: Answers) {
    && |rows| <= |rows'|
    && (forall i | 0 <= i < |rows| ::
          KeptOrResolved(rows[i], rows'[i], now) && (rows'[i] == rows[i] || IsAbout(rules, rows[i])))
    && (forall i | |rows| <= i < |rows'| :: exists k :: 0 <= k < |rules| && IsFresh(rows'[i], rules[k], now))
    && (forall k | 0 <= k < |rules| :: HeldBack(rows, rows', rules[k].name, now, o))
  }

  /** Some rule is the row's. */
  ghost predicate IsAbout(rules: seq<Rule>, row: Alert) {
    exists k :: 0 <= k < |rules| && rules[k].name == row.rule
  }

  lemma StartEvaluation(rows: seq<Alert>, now: int, o: Answers)
    ensures Evaluated(rows, rows, [], now, o)
  {
  }

  /** One more rule. */
  lemma Evaluates(rows0: seq<Alert>, rows1: seq<Alert>, rows2: seq<Alert>, rules: seq<Rule>, rule: Rule, now: int,
                  o: Answers)
    requires Evaluated(rows0, rows1, rules, now, o) && Careful(rows1, rows2, rule, now, o)
    requires forall k | 0 <= k < |rules| :: rules[k].name != rule.name
    ensures Evaluated(rows0, rows2, rules + [rule], now, o)
  {
    hide HeldBack, Says, AtMostOne;
    var all := rules + [rule];
    assert all[|rules|] == rule && forall k | 0 <= k < |rules| :: all[k] == rules[k];
    forall i | |rows0| <= i < |rows2| ensures exists k :: 0 <= k < |all| && IsFresh(rows2[i], all[k], now) {
      if i < |rows1| {
        var k :| 0 <= k < |rules| && IsFresh(rows1[i], rules[k], now);
        assert rows2[i] == rows1[i] && IsFresh(rows2[i], all[k], now);
      } else {
        assert IsFresh(rows2[i], all[|rules|], now);
      }
    }
    forall i | 0 <= i < |rows0| && rows2[i] != rows0[i] ensures IsAbout(all, rows0[i]) {
      if IsAbout(rules, rows0[i]) {
        var k :| 0 <= k < |rules| && rules[k].name == rows0[i].rule;
        assert all[k].name == rows0[i].rule;
      } else {
        assert all[|rules|].name == rows0[i].rule;
      }
    }
    forall k | 0 <= k < |all| ensures HeldBack(rows0, rows2, all[k].name, now, o) {
      StillHeldBack(rows0, rows1, rows2, rules, rule, k, now, o);
    }
  }

  lemma StillHeldBack(rows0: seq<Alert>, rows1: seq<Alert>, rows2: seq<Alert>, rules: seq<Rule>, rule: Rule, k: nat,
                      now: int, o: Answers)
    requires Evaluated(rows0, rows1, rules, now, o) && Careful(rows1, rows2, rule, now, o) && k <= |rules|
    requires forall k | 0 <= k < |rules| :: rules[k].name != rule.name
    ensures HeldBack(rows0, rows2, (rules + [rule])[k].name, now, o)
  {
    hide Says, AtMostOne, ResolvedInSight;
    var name := (rules + [rule])[k].name;
    forall s | o.recentOk(s) && ResolvedInSight(rows0, name, s, now, |rows2| - |rows0|)
      ensures NothingNew(rows0, rows2, name, s)
    {
      SightNarrows(rows0, name, s, now, |rows2| - |rows0|, |rows1| - |rows0|);
      SightCarries(rows0, rows1, name, s, now, |rows2| - |rows0|, |rows2| - |rows1|);
    }
  }

  lemma SightNarrows(rows: seq<Alert>, rule: string, source: string, now: int, more: nat, less: nat)
    requires ResolvedInSight(rows, rule, source, now, more) && less <= more
    ensures ResolvedInSight(rows, rule, source, now, less)
  {
    SightCarries(rows, rows, rule, source, now, more, less);
  }

  /** Over two evaluations: an alert the first one resolved keeps its source from
      getting a new one in a second less than half an hour later, if the alert also
      fired in the half hour before that, the second can list the recent alerts,
      and no more than two hundred have fired since by its end. */
  lemma ResolvedIsHeldBack(rows0: seq<Alert>, rows1: seq<Alert>, rows2: seq<Alert>, rules: seq<Rule>, first: int,
                           second: int, o1: Answers, o2: Answers, i: AlertId, k: nat)
    requires Evaluated(rows0, rows1, rules, first, o1) && Evaluated(rows1, rows2, rules, second, o2)
    requires k < |rules| && IsActive(rows0, i, rules[k].name) && !IsActive(rows1, i, rules[k].name)
    requires second - first < 1800 && second - rows0[i].firedAt <= 1800 && |rows2| - i <= 200
    requires o2.recentOk(rows0[i].source)
    ensures NothingNew(rows1, rows2, rules[k].name, rows0[i].source)
  {
    assert rows1[i] == rows0[i].(resolvedAt := Some(first));
    assert RecentlyResolved(rows1, i, rules[k].name, rows0[i].source, second) && second - rows1[i].firedAt <= COOLDOWN
           && |rows1| - i + (|rows2| - |rows1|) <= RECENT_LIMIT;
    assert HeldBack(rows1, rows2, rules[k].name, second, o2);
  }

  /** And no longer: when every call succeeded and no alert of the rule and source
      was resolved in the half hour before, a source that fires has an active one. */
  lemma FiresAgain(rows: seq<Alert>, rows': seq<Alert>, rule: Rule, cooling: set<string>, now: int, k: nat)
    requires Reconciled(rows, rows', rule, cooling) && k < |rule.firings|
    requires forall s | s in cooling :: exists o :: CooledFor(rows', rule.name, s, now, o)
    requires forall i | 0 <= i < |rows'| && rows'[i].rule == rule.name && rows'[i].source == rule.firings[k].source ::
               rows'[i].resolvedAt.Some? ==> now >= rows'[i].resolvedAt.value + 1800
    ensures HasActive(rows', rule.name, rule.firings[k].source)
  {
  }

  // --------------------------------------------------- one rule beside the others

  lemma SameForAll(rows: seq<Alert>)
    ensures forall name :: SameFor(rows, rows, name)
  {
  }

  /** One table's view of one rule is the other's. */
  ghost predicate SameFor(rows: seq<Alert>, rows': seq<Alert>, rule: string) {
    && (forall i: AlertId :: IsActive(rows, i, rule) <==> IsActive(rows', i, rule))
    && (forall i: AlertId | IsActive(rows, i, rule) :: rows'[i].source == rows[i].source)
  }

  lemma OthersSeeNothing(rows: seq<Alert>, rows': seq<Alert>, other: string, rule: string, now: int)
    requires OnlyRule(rows, rows', other, now) && other != rule
    ensures SameFor(rows, rows', rule)
  {
  }

  lemma SameForTrans(a: seq<Alert>, b: seq<Alert>, c: seq<Alert>, rule: string)
    requires SameFor(a, b, rule) && SameFor(b, c, rule)
    ensures SameFor(a, c, rule)
  {
  }

  lemma ActiveCarries(rows: seq<Alert>, rows': seq<Alert>, rule: string, source: string)
    requires SameFor(rows, rows', rule)
    ensures HasActive(rows, rule, source) <==> HasActive(rows', rule, source)
    ensures forall i: AlertId :: ActiveFor(rows, i, rule, source) <==> ActiveFor(rows', i, rule, source)
  {
    if HasActive(rows, rule, source) {
      var i: AlertId :| ActiveFor(rows, i, rule, source);
      assert ActiveFor(rows', i, rule, source);
    }
    if HasActive(rows', rule, source) {
      var i: AlertId :| ActiveFor(rows', i, rule, source);
      assert ActiveFor(rows, i, rule, source);
    }
  }

  /** A rule's outcome is not disturbed by what other rules do before and after. */
  lemma ReconciledCarries(a: seq<Alert>, b: seq<Alert>, c: seq<Alert>, d: seq<Alert>, rule: Rule, cooling: set<string>)
    requires Reconciled(b, c, rule, cooling) && SameFor(a, b, rule.name) && SameFor(c, d, rule.name)
    ensures Reconciled(a, d, rule, cooling)
  {
    forall k | 0 <= k < |rule.firings|
      ensures HasActive(d, rule.name, rule.firings[k].source) || rule.firings[k].source in cooling
      ensures HasActive(a, rule.name, rule.firings[k].source) ==>
                exists i: AlertId ::
                  ActiveFor(a, i, rule.name, rule.firings[k].source)
                  && ActiveFor(d, i, rule.name, rule.firings[k].source)
    {
      ActiveCarries(a, b, rule.name, rule.firings[k].source);
      ActiveCarries(c, d, rule.name, rule.firings[k].source);
    }
  }

  /** Every store call of an evaluation succeeds. The recent listing may fail: then nothing cools down. */
  ghost predicate Succeeds(o: Answers) {
    o.listOk && (forall id :: o.resolveOk(id)) && forall s :: o.getOk(s) && o.insertOk(s)
  }

  /** One active alert for each source that fires, and no other. */
  ghost predicate Steady(rows: seq<Alert>, rule: Rule) {
    && AtMostOne(rows, rule.name)
    && (forall i: AlertId | IsActive(rows, i, rule.name) :: Fires(rule, rows[i].source))
    && (forall k | 0 <= k < |rule.firings| :: HasActive(rows, rule.name, rule.firings[k].source))
  }

  function Only(messages: map<string, string>, sources: set<string>): (r: map<string, string>)
    requires sources <= messages.Keys
    ensures r.Keys == sources
  {
    map s | s in sources :: messages[s]
  }

  /** Only fresh active rows of the rule for the given sources are added, with what is said of each. */
  ghost predicate Extends(rows: seq<Alert>, rows': seq<Alert>, rule: string, sources: map<string, string>, now: int) {
    && |rows| <= |rows'| && rows'[..|rows|] == rows
    && forall i | |rows| <= i < |rows'| ::
         rows'[i].source in sources && rows'[i] == Alert(rule, rows'[i].source, sources[rows'[i].source], now, None)
  }

  lemma StartInserts(rows: seq<Alert>, rule: string, sources: map<string, string>, now: int, o: Answers)
    ensures Extends(rows, rows, rule, sources, now) && HeldBack(rows, rows, rule, now, o)
  {
  }

  lemma Inserted(rows0: seq<Alert>, rows: seq<Alert>, rule: string, source: string, now: int,
                 sources: map<string, string>, cooling: set<string>)
    requires Extends(rows0, rows, rule, sources, now) && InOrder(rows, now) && source in sources
    requires !HasActive(rows, rule, source)
    requires forall s | s in cooling :: PromisedCooldown(rows, rule, s, now)
    ensures var rows' := rows + [Alert(rule, source, sources[source], now, None)];
      && Extends(rows0, rows', rule, sources, now) && InOrder(rows', now) && HasActive(rows', rule, source)
      && (AtMostOne(rows, rule) ==> AtMostOne(rows', rule))
      && (forall s | HasActive(rows, rule, s) :: HasActive(rows', rule, s))
      && (forall s | HasActive(rows', rule, s) :: s == source || HasActive(rows, rule, s))
      && (forall s | s in cooling :: PromisedCooldown(rows', rule, s, now))
      && !HasActive(rows0, rule, source)
  {
    var rows' := rows + [Alert(rule, source, sources[source], now, None)];
    assert ActiveFor(rows', |rows|, rule, source);
    forall s | HasActive(rows, rule, s) ensures HasActive(rows', rule, s) {
      var i: AlertId :| ActiveFor(rows, i, rule, s);
      assert ActiveFor(rows', i, rule, s);
    }
    forall s | HasActive(rows', rule, s) && s != source ensures HasActive(rows, rule, s) {
      var i: AlertId :| ActiveFor(rows', i, rule, s);
      assert ActiveFor(rows, i, rule, s);
    }
    forall s | s in cooling ensures PromisedCooldown(rows', rule, s, now) {
      var k: AlertId :| RecentlyResolved(rows, k, rule, s, now);
      assert RecentlyResolved(rows', k, rule, s, now);
    }
    if HasActive(rows0, rule, source) {
      var i: AlertId :| ActiveFor(rows0, i, rule, source);
      assert rows[..|rows0|][i] == rows0[i];
      assert ActiveFor(rows, i, rule, source);
      assert false;
    }
    forall i: AlertId | IsActive(rows', i, rule) && rows'[i].source == source ensures i == |rows| {
      assert i < |rows| ==> ActiveFor(rows, i, rule, source);
    }
  }

  lemma StartPass(rows: seq<Alert>, rule: string, firing: set<string>, all: bool, now: int)
    ensures PassInv(rows, rows, rule, firing, map[], {}, all, now)
  {
  }

  lemma EndPass(rows0: seq<Alert>, rows: seq<Alert>, rule: string, firing: set<string>, kept: map<string, AlertId>,
                done: set<AlertId>, all: bool, now: int)
    requires PassInv(rows0, rows, rule, firing, kept, done, all, now)
    ensures OnlyRule(rows0, rows, rule, now) && |rows| == |rows0| && kept.Keys <= firing
    ensures forall s | s in kept :: ActiveFor(rows0, kept[s], rule, s) && ActiveFor(rows, kept[s], rule, s)
    ensures (forall k: AlertId | k < |rows0| && rows0[k].resolvedAt.None? :: k in done) ==>
              && (all ==>
                    forall i: AlertId | IsActive(rows, i, rule) :: rows[i].source in kept && kept[rows[i].source] == i)
              && (forall s | s in firing && s !in kept :: !HasActive(rows0, rule, s))
              && forall i: AlertId | IsActive(rows0, i, rule) && rows0[i].source in kept :: i <= kept[rows0[i].source]
    ensures InOrder(rows0, now) ==> InOrder(rows, now)
    ensures AllFire(rows0, rule, firing) && AtMostOne(rows0, rule) ==> rows == rows0
  {
  }

  /** What the first pass leaves, as the second one finds it. */
  ghost predicate FirstPass(rows0: seq<Alert>, rows1: seq<Alert>, rule: string, firing: set<string>,
                            kept: map<string, AlertId>, now: int, o: Answers) {
    && OnlyRule(rows0, rows1, rule, now) && |rows1| == |rows0| && kept.Keys <= firing
    && (forall s | s in kept :: ActiveFor(rows0, kept[s], rule, s) && ActiveFor(rows1, kept[s], rule, s))
    && (o.listOk && (forall id :: o.resolveOk(id)) ==>
          forall i: AlertId | IsActive(rows1, i, rule) :: rows1[i].source in kept && kept[rows1[i].source] == i)
    && (o.listOk ==> forall s | s in firing - kept.Keys :: !HasActive(rows0, rule, s))
    && (AllFire(rows0, rule, firing) && AtMostOne(rows0, rule) ==> rows1 == rows0)
  }

  lemma StaysCareful(rows0: seq<Alert>, rows1: seq<Alert>, rows2: seq<Alert>, rule: Rule, sources: map<string, string>,
                     now: int, o: Answers)
    requires OnlyRule(rows0, rows1, rule.name, now) && |rows1| == |rows0|
    requires Extends(rows1, rows2, rule.name, sources, now) && HeldBack(rows1, rows2, rule.name, now, o)
    requires AtMostOne(rows1, rule.name) ==> AtMostOne(rows2, rule.name)
    requires forall s | s in sources :: Says(rule, s, sources[s])
    ensures Careful(rows0, rows2, rule, now, o)
  {
    assert forall i | 0 <= i < |rows1| :: rows2[..|rows1|][i] == rows2[i];
    assert AtMostOne(rows0, rule.name) ==> AtMostOne(rows1, rule.name);
    forall s | o.recentOk(s) && ResolvedInSight(rows0, rule.name, s, now, |rows2| - |rows0|)
      ensures NothingNew(rows0, rows2, rule.name, s)
    {
      SightCarries(rows0, rows1, rule.name, s, now, |rows2| - |rows0|, |rows2| - |rows1|);
    }
  }

  /** What has been resolved stays in sight of a shorter rest. */
  lemma SightCarries(rows0: seq<Alert>, rows1: seq<Alert>, rule: string, source: string, now: int, more0: nat,
                     more1: nat)
    requires |rows0| <= |rows1| && forall i | 0 <= i < |rows0| :: KeptOrResolved(rows0[i], rows1[i], now)
    requires ResolvedInSight(rows0, rule, source, now, more0) && |rows1| + more1 <= |rows0| + more0
    ensures ResolvedInSight(rows1, rule, source, now, more1)
  {
    var k: AlertId :| RecentlyResolved(rows0, k, rule, source, now) && now - rows0[k].firedAt <= COOLDOWN
                      && |rows0| - k + more0 <= RECENT_LIMIT;
    assert RecentlyResolved(rows1, k, rule, source, now) && now - rows1[k].firedAt <= COOLDOWN
           && |rows1| - k + more1 <= RECENT_LIMIT;
  }

  /** Kept alerts are still active after the second pass. */
  lemma KeptStay(rows1: seq<Alert>, rows2: seq<Alert>, rule: string, sources: map<string, string>, now: int, i: AlertId,
                 s: string)
    requires Extends(rows1, rows2, rule, sources, now) && ActiveFor(rows1, i, rule, s)
    ensures ActiveFor(rows2, i, rule, s) && HasActive(rows2, rule, s)
  {
    assert rows2[..|rows1|][i] == rows2[i];
    assert ActiveFor(rows2, i, rule, s);
  }

  lemma BecomesReconciled(rows0: seq<Alert>, rows1: seq<Alert>, rows2: seq<Alert>, rule: Rule,
                          firing: map<string, string>, kept: map<string, AlertId>, cooling: set<string>, now: int,
                          o: Answers)
    requires firing.Keys == set i | 0 <= i < |rule.firings| :: rule.firings[i].source
    requires Succeeds(o) && FirstPass(rows0, rows1, rule.name, firing.Keys, kept, now, o)
    requires Extends(rows1, rows2, rule.name, Only(firing, firing.Keys - kept.Keys), now)
    requires AtMostOne(rows1, rule.name) ==> AtMostOne(rows2, rule.name)
    requires forall s | s in firing.Keys - kept.Keys :: HasActive(rows2, rule.name, s) || s in cooling
    ensures Reconciled(rows0, rows2, rule, cooling)
  {
    assert AtMostOne(rows1, rule.name);
    forall i: AlertId | IsActive(rows2, i, rule.name) ensures Fires(rule, rows2[i].source) {
      if i < |rows1| {
        assert rows2[..|rows1|][i] == rows1[i];
        assert IsActive(rows1, i, rule.name);
      }
      assert rows2[i].source in firing;
    }
    forall k | 0 <= k < |rule.firings|
      ensures HasActive(rows2, rule.name, rule.firings[k].source) || rule.firings[k].source in cooling
      ensures HasActive(rows0, rule.name, rule.firings[k].source) ==>
                exists i: AlertId ::
                  ActiveFor(rows0, i, rule.name, rule.firings[k].source)
                  && ActiveFor(rows2, i, rule.name, rule.firings[k].source)
    {
      var s := rule.firings[k].source;
      assert s in firing;
      if s in kept {
        KeptStay(rows1, rows2, rule.name, Only(firing, firing.Keys - kept.Keys), now, kept[s], s);
      }
    }
  }

  lemma StaysSteady(rows0: seq<Alert>, rows1: seq<Alert>, rows2: seq<Alert>, rule: Rule, firing: set<string>,
                    kept: map<string, AlertId>, now: int, o: Answers)
    requires firing == set i | 0 <= i < |rule.firings| :: rule.firings[i].source
    requires FirstPass(rows0, rows1, rule.name, firing, kept, now, o) && Steady(rows0, rule)
    requires (forall s | s in firing - kept.Keys :: HasActive(rows1, rule.name, s)) ==> rows2 == rows1
    ensures rows2 == rows0
  {
    forall i: AlertId | IsActive(rows0, i, rule.name) ensures rows0[i].source in firing {
      assert Fires(rule, rows0[i].source);
    }
  }

  // ---------------------------------------------------------- the promised cooldown

  /** The check answers as promised if and only if nothing of the source was
      resolved in the last half hour, or something was that is still in sight. */
  lemma CooldownKeepsPromise(rows: seq<Alert>, rule: string, source: string, now: int)
    ensures (CoolsDown(rows, rule, source, now) <==> PromisedCooldown(rows, rule, source, now)) <==>
            (forall k: AlertId :: !RecentlyResolved(rows, k, rule, source, now))
            || ResolvedInSight(rows, rule, source, now, 0)
  {
    CoolsDownInSight(rows, rule, source, now);
  }

  /** The alerts of every rule that fired in the last half hour. */
  function Window(rows: seq<Alert>, now: int): set<AlertId> {
    set k: AlertId | k < |rows| && now - rows[k].firedAt <= COOLDOWN
  }

  function Suffix(k: nat, n: nat): (r: set<AlertId>)
    requires k <= n
    ensures forall j: AlertId :: j in r <==> k <= j < n
    ensures |r| == n - k
    decreases n - k
  {
    if k == n then {} else {k} + Suffix(k + 1, n)
  }

  /** While no more than two hundred alerts fired in the last half hour, the check
      answers as promised exactly when every source resolved in it has a recent
      resolution of an alert that fired in it too. */
  lemma QuietTableKeepsPromise(rows: seq<Alert>, rule: string, source: string, now: int)
    requires InOrder(rows, now) && |Window(rows, now)| <= 200
    ensures (CoolsDown(rows, rule, source, now) <==> PromisedCooldown(rows, rule, source, now)) <==>
            (PromisedCooldown(rows, rule, source, now) ==>
               exists k: AlertId :: RecentlyResolved(rows, k, rule, source, now) && now - rows[k].firedAt <= COOLDOWN)
  {
    CooldownKeepsPromise(rows, rule, source, now);
    forall k: AlertId | k < |rows| && now - rows[k].firedAt <= COOLDOWN ensures |rows| - k <= RECENT_LIMIT {
      var suffix := Suffix(k, |rows|);
      assert suffix <= Window(rows, now);
      assert Window(rows, now) == suffix + (Window(rows, now) - suffix);
    }
  }

  /** An alert that fired forty minutes ago and was resolved a minute ago does not
      hold its source back. */
  lemma LongAlertIsForgotten(rule: string, source: string)
    ensures var rows := [Alert(rule, source, "", 0, Some(39 * 60))];
      PromisedCooldown(rows, rule, source, 40 * 60) && !CoolsDown(rows, rule, source, 40 * 60)
  {
    assert RecentlyResolved([Alert(rule, source, "", 0, Some(39 * 60))], 0, rule, source, 40 * 60);
  }
}
