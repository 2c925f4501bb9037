/** Safety of the approval protocol over every run and every interleaving. */
module ApprovalSafety {
  import opened Common
  import opened ApprovalRecords
  import opened ApprovalProtocol
  import opened ProtocolInvariants
  import JB = JobBuilder

  // ------------------------------------------------- no update is lost

  ghost predicate CommitsExactly(w: World, w': World, i: nat) {
    && i < |w.clients|
    && |w'.sh.log| == |w.sh.log| + 1 && w'.sh.log[..|w.sh.log|] == w.sh.log
    && var e := w'.sh.log[|w.sh.log|];
       && e.Commit? && e.op == w.clients[i].op && e.key == KeyOf(e.op)
       && Data(w'.sh) == Data(w.sh)[e.key := e.rec]
  }

  /** A step either leaves every stored record alone, or commits one record at the one key its
      client was called for. In particular losing the race to create the ConfigMap, and winning
      it, both leave the stored records as they are. */
  lemma {:induction false} StepChangesOneKey(fold: char -> char, w: World, l: Label)
    requires Inv(fold, w)
    ensures var w' := Next(fold, w, l);
            || Data(w'.sh) == Data(w.sh)
            || (l.Step? && CommitsExactly(w, w', l.i))
  {
    if l.Step? && l.i < |w.clients| && w.clients[l.i].pc.Write? {
      var c := w.clients[l.i];
      if Commits(w.sh, c.pc.snap, l.fault) {
        CommitOk(fold, w.sh, c, l.fault);
        JustifiedRecordOk(fold, c.op, c.saw, c.tested, c.pc.rec, c.pc.kind, w.sh.now);
      }
    }
  }

  /** In every run the stored records are exactly the latest commit of every key: nothing committed
      disappears except under a later commit at its own key, and no key ever disappears. */
  lemma {:induction false} NoLostUpdates(fold: char -> char, w0: World, before: seq<Label>, after: seq<Label>)
    requires Initial(w0)
    ensures var w, w' := Run(fold, w0, before), Run(fold, Run(fold, w0, before), after);
            && Data(w'.sh) == Replay(w'.sh.log)
            && w.sh.log <= w'.sh.log
            && Data(w.sh).Keys <= Data(w'.sh).Keys
            && forall k :: k in Data(w.sh)
                 && (forall h :: |w.sh.log| <= h < |w'.sh.log| && w'.sh.log[h].Commit? ==> w'.sh.log[h].key != k)
                 ==> k in Data(w'.sh) && Data(w'.sh)[k] == Data(w.sh)[k]
  {
    var w := Run(fold, w0, before);
    var w' := Run(fold, w, after);
    InitialOk(fold, w0);
    RunOk(fold, w0, before);
    RunOk(fold, w, after);
    forall k | k in Data(w.sh)
        && (forall h :: |w.sh.log| <= h < |w'.sh.log| && w'.sh.log[h].Commit? ==> w'.sh.log[h].key != k)
      ensures k in Data(w'.sh) && Data(w'.sh)[k] == Data(w.sh)[k]
    {
      ReplayUntouched(w.sh.log, w'.sh.log, k);
    }
  }

  lemma {:induction false} ReplayUntouched(log: seq<Entry>, log': seq<Entry>, k: string)
    requires log <= log'
    requires forall h :: |log| <= h < |log'| && log'[h].Commit? ==> log'[h].key != k
    ensures Lookup(Replay(log'), k) == Lookup(Replay(log), k)
    decreases |log'|
  {
    if |log| == |log'| {
      assert log == log';
    } else {
      ReplayUntouched(log, log'[..|log'| - 1], k);
    }
  }

  // ------------------------------------------------- stored records

  /** Every record ever committed, and every record stored, is well formed and sits under the key
      built from its own execution ID and step name. */
  lemma {:induction false} RecordsWellFormed(fold: char -> char, w0: World, labels: seq<Label>)
    requires Initial(w0)
    ensures var sh := Run(fold, w0, labels).sh;
            && (forall k :: k in Data(sh) ==> RecordOk(fold, Data(sh)[k], sh.now) && KeyOfRecord(Data(sh)[k]) == k)
            && (forall h :: 0 <= h < |sh.log| && sh.log[h].Commit? ==>
                  RecordOk(fold, sh.log[h].rec, sh.now) && KeyOfRecord(sh.log[h].rec) == sh.log[h].key == KeyOf(sh.log[h].op))
  {
    InitialOk(fold, w0);
    RunOk(fold, w0, labels);
    var sh := Run(fold, w0, labels).sh;
    forall k | k in Data(sh) ensures RecordOk(fold, Data(sh)[k], sh.now) && KeyOfRecord(Data(sh)[k]) == k {
      StoredOk(fold, sh, k);
    }
    forall h | 0 <= h < |sh.log| && sh.log[h].Commit? ensures RecordOk(fold, sh.log[h].rec, sh.now) {
      EntryRecordOk(fold, sh.log[h], sh.now);
    }
  }

  /** No client ever assigns into a nil map. */
  lemma {:induction false} NobodyCrashes(fold: char -> char, w0: World, labels: seq<Label>, i: nat)
    requires Initial(w0) && i < |Run(fold, w0, labels).clients|
    ensures Run(fold, w0, labels).clients[i].pc != Done(Crashed)
  {
    InitialOk(fold, w0);
    RunOk(fold, w0, labels);
  }

  // --------------------------------------------------------- the gate

  /** A commit by which a user on the record's approver list approved it, having tested it before
      its expiry. */
  ghost predicate AuthorizedApproval(fold: char -> char, e: Entry) {
    && e.Commit? && e.op.Approve?
    && e.rec.status == Approved
    && e.rec.approvedBy == e.op.user && Listed(fold, e.rec.approvers, e.op.user)
    && e.tested <= e.rec.expiresAt
    && e.saw.Found? && e.saw.rec.status == Pending
  }

  /** Whenever an execution that needs approval creates its Job, the log already holds an
      authorized approval at its key. */
  lemma {:induction false} GateSoundness(fold: char -> char, w0: World, labels: seq<Label>, j: nat)
    requires Initial(w0)
    requires j < |Run(fold, w0, labels).sh.log|
    requires var e := Run(fold, w0, labels).sh.log[j]; e.JobMade? && e.plan.gated
    ensures var log := Run(fold, w0, labels).sh.log;
            exists h :: 0 <= h < j && AuthorizedApproval(fold, log[h]) && log[h].key == Key(log[j].plan.executionID, log[j].plan.stepName)
  {
    InitialOk(fold, w0);
    RunOk(fold, w0, labels);
    var sh := Run(fold, w0, labels).sh;
    var key := Key(sh.log[j].plan.executionID, sh.log[j].plan.stepName);
    assert ApprovalLogged(sh.log, j, key);
    var h :| 0 <= h < j && sh.log[h].Commit? && sh.log[h].key == key && sh.log[h].rec.status == Approved;
    ApprovedIsAuthorized(fold, sh.log[h], sh.now);
  }

  lemma {:induction false} ApprovedIsAuthorized(fold: char -> char, e: Entry, now: nat)
    requires EntryOk(fold, e, now) && e.Commit? && e.rec.status == Approved
    ensures AuthorizedApproval(fold, e)
  {
    ContainsIsListed(fold, e.rec.approvers, e.op.user);
  }

  // ------------------------------------------------- where Jobs come from

  ghost predicate PlansSatisfy(w: World, p: Plan -> bool) {
    && (forall i :: 0 <= i < |w.clients| && w.clients[i].op.Execute? ==> p(w.clients[i].op.plan))
    && (forall j :: 0 <= j < |w.sh.log| && w.sh.log[j].JobMade? ==> p(w.sh.log[j].plan))
  }

  ghost predicate ArrivalsSatisfy(labels: seq<Label>, p: Plan -> bool) {
    forall n :: 0 <= n < |labels| && labels[n].Arrive? && labels[n].op.Execute? ==> p(labels[n].op.plan)
  }

  lemma {:induction false} ActKeepsOp(fold: char -> char, sh: Shared, c: Client, fault: Fault)
    ensures var (sh', c') := Act(fold, sh, c, fault);
            && c'.op == c.op
            && (|| sh'.log == sh.log
                || (|sh'.log| == |sh.log| + 1 && sh'.log[..|sh.log|] == sh.log
                    && (sh'.log[|sh.log|].JobMade? ==> c.op.Execute? && sh'.log[|sh.log|].plan == c.op.plan)))
  {}

  /** Whatever holds of every plan that arrives holds of every Job ever made. */
  lemma {:induction false} JobsComeFromArrivals(fold: char -> char, w: World, labels: seq<Label>, p: Plan -> bool)
    requires PlansSatisfy(w, p) && ArrivalsSatisfy(labels, p)
    ensures PlansSatisfy(Run(fold, w, labels), p)
    decreases |labels|
  {
    if labels != [] {
      var w' := Next(fold, w, labels[0]);
      if labels[0].Step? && labels[0].i < |w.clients| {
        ActKeepsOp(fold, w.sh, w.clients[labels[0].i], labels[0].fault);
      }
      assert PlansSatisfy(w', p);
      assert ArrivalsSatisfy(labels[1..], p);
      JobsComeFromArrivals(fold, w', labels[1..], p);
    }
  }

  // ------------------------------------------------- one Job per execution

  /** The Jobs a log leaves alive. */
  function Live(log: seq<Entry>): map<string, Plan> {
    if log == [] then map[]
    else
      var before, last := Live(log[..|log| - 1]), log[|log| - 1];
      if last.JobMade? then before[last.plan.jobName := last.plan]
      else if last.JobGone? then before - {last.name}
      else before
  }

  lemma {:induction false} LiveSnoc(log: seq<Entry>, e: Entry)
    ensures Live(log + [e]) == if e.JobMade? then Live(log)[e.plan.jobName := e.plan]
                               else if e.JobGone? then Live(log) - {e.name} else Live(log)
  {
    assert (log + [e])[..|log|] == log;
  }

  ghost predicate NamesFresh(log: seq<Entry>) {
    forall j :: 0 <= j < |log| && log[j].JobMade? ==> log[j].plan.jobName !in Live(log[..j])
  }

  ghost predicate JobsInv(sh: Shared) {
    sh.jobs == Live(sh.log) && NamesFresh(sh.log)
  }

  lemma {:induction false} JobsInvSnoc(sh: Shared, sh': Shared, e: Entry)
    requires JobsInv(sh) && sh'.log == sh.log + [e]
    requires e.JobMade? ==> e.plan.jobName !in sh.jobs
    requires sh'.jobs == if e.JobMade? then sh.jobs[e.plan.jobName := e.plan] else if e.JobGone? then sh.jobs - {e.name} else sh.jobs
    ensures JobsInv(sh')
  {
    LiveSnoc(sh.log, e);
    forall j | 0 <= j < |sh'.log| && sh'.log[j].JobMade? ensures sh'.log[j].plan.jobName !in Live(sh'.log[..j]) {
      assert sh'.log[..j] == sh.log[..j];
      if j == |sh.log| {
        assert sh.log[..j] == sh.log;
      }
    }
  }

  lemma {:induction false} ActJobsInv(fold: char -> char, sh: Shared, c: Client, fault: Fault)
    requires JobsInv(sh)
    ensures JobsInv(Act(fold, sh, c, fault).0)
  {
    var sh' := Act(fold, sh, c, fault).0;
    if sh'.log != sh.log {
      JobsInvSnoc(sh, sh', sh'.log[|sh.log|]);
    }
  }

  lemma {:induction false} RunJobsInv(fold: char -> char, w: World, labels: seq<Label>)
    requires JobsInv(w.sh)
    ensures JobsInv(Run(fold, w, labels).sh)
    decreases |labels|
  {
    if labels != [] {
      var w', l := Next(fold, w, labels[0]), labels[0];
      match l {
        case Step(i, fault) => if i < |w.clients| { ActJobsInv(fold, w.sh, w.clients[i], fault); }
        case Reap(name) => if name in w.sh.jobs { JobsInvSnoc(w.sh, w'.sh, JobGone(name)); }
        case _ =>
      }
      RunJobsInv(fold, w', labels[1..]);
    }
  }

  lemma {:induction false} LiveUntilGone(log: seq<Entry>, i: nat, j: nat)
    requires i < j <= |log| && log[i].JobMade?
    requires forall m :: i < m < j ==> log[m] != JobGone(log[i].plan.jobName)
    ensures log[i].plan.jobName in Live(log[..j])
    decreases j
  {
    assert log[..j][..j - 1] == log[..j - 1];
    if j > i + 1 {
      LiveUntilGone(log, i, j - 1);
    }
  }

  ghost predicate NamedAfterExecution(p: Plan) {
    p.executionID != "" && p.jobName == JB.JOB_PREFIX + p.executionID
  }

  /** However many executions and replicas race: a second Job for an execution ID can only be made
      after the first was removed. So at most one Job per execution ID exists at any time. */
  lemma {:induction false} OneJobPerExecution(fold: char -> char, w0: World, labels: seq<Label>, i: nat, j: nat)
    requires Initial(w0) && ArrivalsSatisfy(labels, p => NamedAfterExecution(p))
    requires i < j < |Run(fold, w0, labels).sh.log|
    requires var log := Run(fold, w0, labels).sh.log;
             log[i].JobMade? && log[j].JobMade? && log[i].plan.executionID == log[j].plan.executionID
    ensures var log := Run(fold, w0, labels).sh.log;
            exists m :: i < m < j && log[m] == JobGone(log[i].plan.jobName)
  {
    var log := Run(fold, w0, labels).sh.log;
    JobsComeFromArrivals(fold, w0, labels, p => NamedAfterExecution(p));
    RunJobsInv(fold, w0, labels);
    if forall m :: i < m < j ==> log[m] != JobGone(log[i].plan.jobName) {
      LiveUntilGone(log, i, j);
      assert false;
    }
  }

  lemma {:induction false} LiveJobsDistinct(fold: char -> char, w0: World, labels: seq<Label>, n: string, n': string)
    requires Initial(w0) && ArrivalsSatisfy(labels, p => NamedAfterExecution(p))
    requires n in Run(fold, w0, labels).sh.jobs && n' in Run(fold, w0, labels).sh.jobs
    requires Run(fold, w0, labels).sh.jobs[n].executionID == Run(fold, w0, labels).sh.jobs[n'].executionID
    ensures n == n'
  {
    var sh := Run(fold, w0, labels).sh;
    JobsComeFromArrivals(fold, w0, labels, p => NamedAfterExecution(p));
    RunJobsInv(fold, w0, labels);
    LiveWasMade(sh.log, n);
    LiveWasMade(sh.log, n');
  }

  lemma {:induction false} LiveWasMade(log: seq<Entry>, name: string)
    requires name in Live(log)
    ensures Live(log)[name].jobName == name
    ensures exists j :: 0 <= j < |log| && log[j] == JobMade(Live(log)[name])
  {
    var before, last := log[..|log| - 1], log[|log| - 1];
    if last.JobMade? && last.plan.jobName == name {
      assert log[|log| - 1] == JobMade(Live(log)[name]);
    } else {
      LiveWasMade(before, name);
      var j :| 0 <= j < |before| && before[j] == JobMade(Live(before)[name]);
      assert log[j] == JobMade(Live(log)[name]);
    }
  }
}
