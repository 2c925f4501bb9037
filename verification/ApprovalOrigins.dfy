/** Where stored requests come from: each carries the fields of an execution that asked for it. So what
    holds of all executions that arrive holds of what is stored, found and approved. */
module ApprovalOrigins {
  import opened Common
  import opened ApprovalRecords
  import opened ApprovalProtocol
  import opened ProtocolInvariants
  import opened ApprovalSafety
  import opened ApprovalRefinement
  import opened ApprovalFinality
  import opened ApprovalOverlap

  /** The record carries what the execution of `p` asked for. */
  predicate OfPlan(r: Request, p: Plan) {
    && r.executionID == p.executionID && r.stepName == p.stepName && r.runbookID == p.runbookID && r.user == p.user
    && r.script == p.script && r.scriptHash == p.scriptHash && r.approvers == p.approvers
  }

  ghost predicate HasOrigin(r: Request, from: Plan -> bool) {
    exists p: Plan :: from(p) && p.gated && OfPlan(r, p)
  }

  ghost predicate LogHasOrigins(log: seq<Entry>, from: Plan -> bool) {
    && (forall h :: 0 <= h < |log| && log[h].Commit? ==> HasOrigin(log[h].rec, from))
    && (forall j :: 0 <= j < |log| && log[j].JobMade? ==> log[j].plan.context.Some?)
  }

  lemma {:induction false} CommitHasOrigin(fold: char -> char, sh: Shared, c: Client, from: Plan -> bool)
    requires ClientOk(fold, sh, c) && LogHasOrigins(sh.log, from) && c.pc.Write?
    requires c.op.Execute? ==> from(c.op.plan)
    ensures HasOrigin(c.pc.rec, from)
  {
    if c.pc.kind == Creation {
      assert OfPlan(c.pc.rec, c.op.plan);
    } else {
      assert Committed(sh.log, |sh.log|, KeyOf(c.op), c.saw.rec);
      var h :| 0 <= h < |sh.log| && sh.log[h].Commit? && sh.log[h].key == KeyOf(c.op) && sh.log[h].rec == c.saw.rec;
      var p: Plan :| from(p) && p.gated && OfPlan(sh.log[h].rec, p);
      assert OfPlan(c.pc.rec, p);
    }
  }

  lemma {:induction false} NextHasOrigins(fold: char -> char, w: World, l: Label, from: Plan -> bool)
    requires Inv(fold, w) && PlansSatisfy(w, from) && LogHasOrigins(w.sh.log, from)
    ensures LogHasOrigins(Next(fold, w, l).sh.log, from)
  {
    if l.Step? && l.i < |w.clients| {
      ActSight(fold, w.sh, w.clients[l.i], l.fault);
      if w.clients[l.i].pc.Write? {
        CommitHasOrigin(fold, w.sh, w.clients[l.i], from);
      }
    }
  }

  lemma {:induction false} RunHasOrigins(fold: char -> char, w: World, labels: seq<Label>, from: Plan -> bool)
    requires Inv(fold, w) && PlansSatisfy(w, from) && ArrivalsSatisfy(labels, from) && LogHasOrigins(w.sh.log, from)
    ensures LogHasOrigins(Run(fold, w, labels).sh.log, from)
    decreases |labels|
  {
    if labels != [] {
      NextOk(fold, w, labels[0]);
      NextHasOrigins(fold, w, labels[0], from);
      JobsComeFromArrivals(fold, w, [labels[0]], from);
      assert Run(fold, w, [labels[0]]) == Next(fold, w, labels[0]) by {
        assert [labels[0]][1..] == [];
      }
      assert ArrivalsSatisfy(labels[1..], from);
      RunHasOrigins(fold, Next(fold, w, labels[0]), labels[1..], from);
    }
  }

  // --------------------------------------------------------- addressing

  predicate DashFree(p: Plan) {
    p.gated ==> '-' !in p.stepName
  }

  /** If no execution that needs approval arrives with a dash in its step name, what is stored for `(e, s)` belongs to `(e, s)`. */
  lemma {:induction false} GetFindsItsOwn(fold: char -> char, w0: World, labels: seq<Label>, e: string, s: string)
    requires Initial(w0) && ArrivalsSatisfy(labels, p => DashFree(p)) && '-' !in s
    requires Key(e, s) in Data(Run(fold, w0, labels).sh)
    ensures var r := Data(Run(fold, w0, labels).sh)[Key(e, s)];
            r.executionID == e && r.stepName == s
  {
    var sh := Run(fold, w0, labels).sh;
    InitialOk(fold, w0);
    RunOk(fold, w0, labels);
    RunHasOrigins(fold, w0, labels, p => DashFree(p));
    StoredOk(fold, sh, Key(e, s));
    var h :| 0 <= h < |sh.log| && sh.log[h].Commit? && sh.log[h].key == Key(e, s) && sh.log[h].rec == Data(sh)[Key(e, s)];
    assert HasOrigin(sh.log[h].rec, p => DashFree(p));
    KeyInjective(sh.log[h].rec.executionID, sh.log[h].rec.stepName, e, s);
  }

  /** In every run of executions `from` there are, what is stored for `(e, s)` belongs to `(e, s)`. */
  ghost predicate AlwaysFindsItsOwn(fold: char -> char, from: Plan -> bool, e: string, s: string) {
    forall w0: World, labels: seq<Label> :: Initial(w0) && ArrivalsSatisfy(labels, from)
      ==> HoldsOwn(Data(Run(fold, w0, labels).sh), e, s)
  }

  predicate HoldsOwn(data: map<string, Request>, e: string, s: string) {
    Key(e, s) in data ==> data[Key(e, s)].executionID == e && data[Key(e, s)].stepName == s
  }

  /** No other pair among the executions that need approval shares the key. */
  ghost predicate NoOtherPair(from: Plan -> bool, e: string, s: string) {
    forall p: Plan :: from(p) && GatedAt(p, Key(e, s)) ==> p.executionID == e && p.stepName == s
  }

  predicate GatedAt(p: Plan, k: string) {
    p.gated && Key(p.executionID, p.stepName) == k
  }

  lemma {:induction false} NoOtherPairSuffices(fold: char -> char, from: Plan -> bool, e: string, s: string, w0: World, labels: seq<Label>)
    requires NoOtherPair(from, e, s) && Initial(w0) && ArrivalsSatisfy(labels, from)
    ensures HoldsOwn(Data(Run(fold, w0, labels).sh), e, s)
  {
    var sh := Run(fold, w0, labels).sh;
    InitialOk(fold, w0);
    RunOk(fold, w0, labels);
    RunHasOrigins(fold, w0, labels, from);
    if Key(e, s) in Data(sh) {
      StoredOk(fold, sh, Key(e, s));
      var h :| 0 <= h < |sh.log| && sh.log[h].Commit? && sh.log[h].key == Key(e, s) && sh.log[h].rec == Data(sh)[Key(e, s)];
      var p: Plan :| from(p) && p.gated && OfPlan(sh.log[h].rec, p);
      assert GatedAt(p, Key(e, s));
    }
  }

  lemma {:induction false} NoOtherPairNeeded(fold: char -> char, from: Plan -> bool, e: string, s: string, p: Plan)
    requires AlwaysFindsItsOwn(fold, from, e, s) && from(p) && GatedAt(p, Key(e, s))
    ensures p.executionID == e && p.stepName == s
  {
    var labels := [Arrive(Execute(p))] + Steps(0, 5);
    Requested(fold, p);
    StepsAreSteps(0, 5);
    assert ArrivalsSatisfy(labels, from);
    assert HoldsOwn(Data(Run(fold, EMPTY, labels).sh), e, s);
  }

  /** Exactly when what is found for a pair is sure to be its own: when no other execution that needs
      approval has its key. */
  lemma {:induction false} FindsItsOwnExactly(fold: char -> char, from: Plan -> bool, e: string, s: string)
    ensures AlwaysFindsItsOwn(fold, from, e, s) <==> NoOtherPair(from, e, s)
  {
    if AlwaysFindsItsOwn(fold, from, e, s) {
      forall p: Plan | from(p) && GatedAt(p, Key(e, s)) ensures p.executionID == e && p.stepName == s {
        NoOtherPairNeeded(fold, from, e, s, p);
      }
    }
    if NoOtherPair(from, e, s) {
      forall w0: World, labels: seq<Label> | Initial(w0) && ArrivalsSatisfy(labels, from)
        ensures HoldsOwn(Data(Run(fold, w0, labels).sh), e, s)
      {
        NoOtherPairSuffices(fold, from, e, s, w0, labels);
      }
    }
  }

  // ------------------------------------------- the approved text and the run text

  /** Some authorized approval before the j-th entry approved, at its key, the very text its Job runs. */
  ghost predicate TextApproved(fold: char -> char, log: seq<Entry>, j: nat, k: string)
    requires j < |log| && log[j].JobMade?
  {
    exists h :: 0 <= h < j && AuthorizedApproval(fold, log[h]) && log[h].key == k && log[h].rec.script == log[j].plan.script
  }

  ghost predicate TextsApproved(fold: char -> char, log: seq<Entry>, k: string) {
    forall j :: 0 <= j < |log| && GatedJobAt(log[j], k) ==> TextApproved(fold, log, j, k)
  }

  /** In every run of executions `from` there are, every gated Job at `k` runs a text approved at `k`. */
  ghost predicate AlwaysRunsApprovedText(fold: char -> char, from: Plan -> bool, k: string) {
    forall w0: World, labels: seq<Label> :: Initial(w0) && ArrivalsSatisfy(labels, from)
      ==> TextsApproved(fold, Run(fold, w0, labels).sh.log, k)
  }

  /** Whoever can be approved at `k` has the text of whoever can run at `k`. */
  ghost predicate OneText(from: Plan -> bool, k: string) {
    forall p: Plan, q: Plan :: from(p) && from(q) && GatedAt(p, k) && GatedAt(q, k) && p.approvers != [] && q.context.Some?
      ==> p.script == q.script
  }

  lemma {:induction false} OneTextSuffices(fold: char -> char, from: Plan -> bool, k: string, w0: World, labels: seq<Label>, j: nat)
    requires OneText(from, k) && Initial(w0) && ArrivalsSatisfy(labels, from)
    requires j < |Run(fold, w0, labels).sh.log| && GatedJobAt(Run(fold, w0, labels).sh.log[j], k)
    ensures TextApproved(fold, Run(fold, w0, labels).sh.log, j, k)
  {
    var log := Run(fold, w0, labels).sh.log;
    InitialOk(fold, w0);
    RunOk(fold, w0, labels);
    RunHasOrigins(fold, w0, labels, from);
    JobsComeFromArrivals(fold, w0, labels, from);
    GateSoundness(fold, w0, labels, j);
    var h :| 0 <= h < j && AuthorizedApproval(fold, log[h]) && log[h].key == k;
    var p: Plan :| from(p) && p.gated && OfPlan(log[h].rec, p);
    assert EntryOk(fold, log[h], Run(fold, w0, labels).sh.now);
    assert GatedAt(p, k) && GatedAt(log[j].plan, k);
  }

  /** `p` asks, an approver of `p` approves, and `q` runs. */
  function AskApproveRun(p: Plan, q: Plan, user: string): seq<Label> {
    AskAndDecide(p, Approve(p.executionID, p.stepName, user)) + ([Arrive(Execute(q))] + Steps(2, 4))
  }

  /** The execution of `q` passes the gate on the approval at its key and makes its Job. */
  lemma {:induction false} RunsOnApproval(fold: char -> char, sh: Shared, q: Plan)
    requires q.gated && q.context.Some? && q.jobName !in sh.jobs
    requires KeyOf(Execute(q)) in Data(sh) && Data(sh)[KeyOf(Execute(q))].status == Approved
    ensures Drive(fold, sh, NewClient(Execute(q)), 4).0 == sh.(jobs := sh.jobs[q.jobName := q], log := sh.log + [JobMade(q)])
  {
    var rec := Data(sh)[KeyOf(Execute(q))];
    var c1 := Client(Execute(q), Test, Found(rec), 0, |sh.log|);
    assert Act(fold, sh, NewClient(Execute(q)), NoFault) == (sh, c1);
    var c2 := Client(Execute(q), Decide, Found(rec), sh.now, |sh.log|);
    assert Act(fold, sh, c1, NoFault) == (sh, c2);
    var c3 := c2.(pc := CreateJob);
    assert Act(fold, sh, c2, NoFault) == (sh, c3);
    var sh4, c4 := sh.(jobs := sh.jobs[q.jobName := q], log := sh.log + [JobMade(q)]), c2.(pc := Done(Started));
    assert Act(fold, sh, c3, NoFault) == (sh4, c4);
    assert Drive(fold, sh4, c4, 0) == (sh4, c4);
    assert Drive(fold, sh, c3, 1) == (sh4, c4);
    assert Drive(fold, sh, c2, 2) == (sh4, c4);
    assert Drive(fold, sh, c1, 3) == (sh4, c4);
  }

  /** `Check` does not compare texts: for any two gated executions with one key, the second runs its
      own text on the approval of the first one's, without overlap and without faults. */
  lemma {:induction false} RunsTextOfAnother(fold: char -> char, p: Plan, q: Plan, user: string)
    requires p.gated && q.gated && KeyOf(Execute(p)) == KeyOf(Execute(q)) && Contains(fold, p.approvers, user) && q.context.Some?
    ensures var log := Run(fold, EMPTY, AskApproveRun(p, q, user)).sh.log;
            && |log| == 3 && log[2] == JobMade(q)
            && log[0].Commit? && !AuthorizedApproval(fold, log[0])
            && AuthorizedApproval(fold, log[1]) && log[1].rec.script == p.script
    ensures ExclusiveRun(fold, EMPTY, AskApproveRun(p, q, user))
  {
    var approve, run := Approve(p.executionID, p.stepName, user), [Arrive(Execute(q))];
    DecidedAlone(fold, p, approve);
    DecidedAloneIsExclusive(fold, p, approve);
    var w := Run(fold, EMPTY, AskAndDecide(p, approve));
    RunConcat(fold, EMPTY, AskAndDecide(p, approve), run + Steps(2, 4));
    RunConcat(fold, w, run, Steps(2, 4));
    RunArrive(fold, w, Execute(q));
    RunSteps(fold, Run(fold, w, run), 2, 4);
    RunsOnApproval(fold, w.sh, q);
    StepsAreSteps(2, 4);
    AloneIsExclusive(fold, w, 2, run + Steps(2, 4));
    ExclusiveConcat(fold, EMPTY, AskAndDecide(p, approve), run + Steps(2, 4));
  }

  lemma {:induction false} ArrivalsOfAskApproveRun(p: Plan, q: Plan, user: string, from: Plan -> bool)
    requires from(p) && from(q)
    ensures ArrivalsSatisfy(AskApproveRun(p, q, user), from)
  {
    StepsAreSteps(0, 5);
    StepsAreSteps(1, 5);
    StepsAreSteps(2, 4);
  }

  lemma {:induction false} OneTextNeeded(fold: char -> char, from: Plan -> bool, k: string, p: Plan, q: Plan)
    requires from(p) && from(q) && GatedAt(p, k) && GatedAt(q, k) && p.approvers != [] && q.context.Some?
    requires AlwaysRunsApprovedText(fold, from, k)
    ensures p.script == q.script
  {
    var user := p.approvers[0];
    RunsTextOfAnother(fold, p, q, user);
    ArrivalsOfAskApproveRun(p, q, user, from);
    var log := Run(fold, EMPTY, AskApproveRun(p, q, user)).sh.log;
    assert TextsApproved(fold, log, k);
    assert GatedJobAt(log[2], k);
  }

  /** Exactly when a gated Job can be relied on to run an approved text: when all executions that can
      ask for approval at its key, or run there, bring the same text. */
  lemma {:induction false} RunsApprovedTextExactly(fold: char -> char, from: Plan -> bool, k: string)
    ensures AlwaysRunsApprovedText(fold, from, k) <==> OneText(from, k)
  {
    if AlwaysRunsApprovedText(fold, from, k) {
      forall p: Plan, q: Plan | from(p) && from(q) && GatedAt(p, k) && GatedAt(q, k) && p.approvers != [] && q.context.Some?
        ensures p.script == q.script
      {
        OneTextNeeded(fold, from, k, p, q);
      }
    }
    if OneText(from, k) {
      forall w0: World, labels: seq<Label> | Initial(w0) && ArrivalsSatisfy(labels, from)
        ensures TextsApproved(fold, Run(fold, w0, labels).sh.log, k)
      {
        forall j | 0 <= j < |Run(fold, w0, labels).sh.log| && GatedJobAt(Run(fold, w0, labels).sh.log[j], k)
          ensures TextApproved(fold, Run(fold, w0, labels).sh.log, j, k)
        {
          OneTextSuffices(fold, from, k, w0, labels, j);
        }
      }
    }
  }
}
