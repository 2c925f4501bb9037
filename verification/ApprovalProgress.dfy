/** Progress: no call waits for another, and a call that nobody disturbs does what it was asked. */
module ApprovalProgress {
  import opened Common
  import opened ApprovalRecords
  import opened ApprovalProtocol
  import opened ProtocolInvariants
  import opened ApprovalSafety
  import opened ApprovalRefinement
  import opened ApprovalStore

  // ------------------------------------------------------- no call waits

  /** The most steps a client may still make. */
  function Rank(c: Client): nat {
    match c.pc
    case Start => 8
    case Test => 7
    case ReRead(_, kind) => if kind == Expiry then 6 else 3
    case Write(_, kind, _) => if kind == Expiry then 5 else 1
    case Decide => 4
    case NewObject(_) => 2
    case CreateJob => 1
    case Done(_) => 0
  }

  lemma {:induction false} ActGetsOn(fold: char -> char, sh: Shared, c: Client, fault: Fault)
    requires ClientOk(fold, sh, c)
    ensures Rank(Act(fold, sh, c, fault).1) <= if Rank(c) > 0 then Rank(c) - 1 else 0
  {
    if c.pc.Decide? {
      DecideGetsOn(fold, sh, c);
    } else if c.pc.Start? {
      StartGetsOn(sh, c, fault);
    }
  }

  lemma {:induction false} DecideGetsOn(fold: char -> char, sh: Shared, c: Client)
    ensures Rank(ActDecide(fold, sh, c)) <= 3
  {}

  lemma {:induction false} StartGetsOn(sh: Shared, c: Client, fault: Fault)
    ensures Rank(ActStart(sh, c, fault)) <= 7
  {}

  function StepsBy(i: nat, labels: seq<Label>): nat {
    if labels == [] then 0
    else (if labels[0].Step? && labels[0].i == i then 1 else 0) + StepsBy(i, labels[1..])
  }

  /** Nothing others do, and no fault, holds a client up: every step of its own brings it nearer its
      end, so it ends after at most eight. */
  lemma {:induction false} WaitFree(fold: char -> char, w: World, labels: seq<Label>, i: nat)
    requires Inv(fold, w) && i < |w.clients|
    ensures i < |Run(fold, w, labels).clients|
    ensures StepsBy(i, labels) >= Rank(w.clients[i]) ==> Run(fold, w, labels).clients[i].pc.Done?
    decreases |labels|
  {
    if labels != [] {
      NextOk(fold, w, labels[0]);
      ActGetsOn(fold, w.sh, w.clients[i], if labels[0].Step? then labels[0].fault else NoFault);
      WaitFree(fold, Next(fold, w, labels[0]), labels[1..], i);
    }
  }

  // --------------------------------------- a call that nobody disturbs

  ghost predicate NoFaults(turns: seq<Turn>) {
    forall n :: 0 <= n < |turns| ==> turns[n].fault == NoFault
  }

  /** Where a lone client without faults stands: what it read is what the server holds. */
  ghost predicate Undisturbed(sh: Shared, c: Client) {
    match c.pc
    case Decide => !c.saw.Unread?
    case NewObject(_) => sh.cm.None?
    case Write(_, _, snap) => sh.cm == Some(snap)
    case Done(o) => o == Failed ==> c.op.Execute? && (c.op.plan.context.None? || c.op.plan.jobName in sh.jobs)
    case _ => true
  }

  lemma {:induction false} DecideUndisturbed(fold: char -> char, sh: Shared, c: Client)
    requires c.pc.Decide? && !c.saw.Unread?
    ensures Undisturbed(sh, ActDecide(fold, sh, c))
  {}

  lemma {:induction false} WriteUndisturbed(fold: char -> char, sh: Shared, c: Client)
    requires ClientOk(fold, sh, c) && c.pc.Write? && sh.cm == Some(c.pc.snap)
    ensures var (sh', c') := ActWrite(sh, c, c.pc.rec, c.pc.kind, c.pc.snap, NoFault); Undisturbed(sh', c')
  {}

  lemma {:induction false} ReReadUndisturbed(fold: char -> char, sh: Shared, c: Client)
    requires ClientOk(fold, sh, c) && c.pc.ReRead?
    ensures Undisturbed(sh, ActReRead(sh, c, c.pc.rec, c.pc.kind, NoFault))
  {
    ReReadOk(fold, sh, c, NoFault);
  }

  lemma {:induction false} ActUndisturbed(fold: char -> char, sh: Shared, c: Client)
    requires ClientOk(fold, sh, c) && Undisturbed(sh, c)
    ensures Undisturbed(Act(fold, sh, c, NoFault).0, Act(fold, sh, c, NoFault).1)
  {
    match c.pc
    case Decide => DecideUndisturbed(fold, sh, c);
    case ReRead(_, _) => ReReadUndisturbed(fold, sh, c);
    case Write(_, _, _) => WriteUndisturbed(fold, sh, c);
    case _ =>
  }

  lemma {:induction false} SoloUndisturbed(fold: char -> char, m: Machine, n: nat)
    requires MachineOk(fold, m) && NoFaults(m.turns) && Undisturbed(m.sh, m.c)
    ensures Undisturbed(Solo(fold, m, n).sh, Solo(fold, m, n).c)
    decreases n
  {
    if n > 0 {
      SoloStepOk(fold, m);
      ActUndisturbed(fold, Delayed(m.sh, m.turns), m.c);
      SoloUndisturbed(fold, SoloStep(fold, m), n - 1);
    }
  }

  /** Without faults and without company, an approval or a denial gets the answer of the atomic map
      and takes effect; in particular it never fails. */
  lemma {:induction false} UndisturbedCallSucceeds(fold: char -> char, m: Machine, m': Machine)
    requires MachineOk(fold, m) && m.c == NewClient(m.c.op) && !m.c.op.Execute? && NoFaults(m.turns)
    requires Leads(fold, m, m') && m'.c.pc.Done?
    ensures m'.c.pc.outcome != Failed
    ensures exists call: Call ::
              && call.op == m.c.op && m.sh.now <= call.tested <= call.at <= m'.sh.now
              && m'.c.pc.outcome == Serve(fold, Data(m.sh), call).1
              && Related(Serve(fold, Data(m.sh), call).0, m'.sh)
  {
    var n: nat :| m' == Solo(fold, m, n);
    SoloUndisturbed(fold, m, n);
    SoloKeepsOp(fold, m, n);
    SoloServes(fold, m, m');
  }

  /** Likewise an execution stops with an error only for want of a context or of a free Job name. */
  lemma {:induction false} UndisturbedExecutionFails(fold: char -> char, m: Machine, m': Machine)
    requires MachineOk(fold, m) && m.c == NewClient(m.c.op) && m.c.op.Execute? && NoFaults(m.turns)
    requires Leads(fold, m, m') && m'.c.pc == Done(Failed)
    ensures m.c.op.plan.context.None? || m.c.op.plan.jobName in m.sh.jobs
  {
    var n: nat :| m' == Solo(fold, m, n);
    SoloUndisturbed(fold, m, n);
    SoloKeepsOp(fold, m, n);
    FailedKeepsJobs(fold, m, n);
  }

  lemma {:induction false} FailedKeepsJobs(fold: char -> char, m: Machine, n: nat)
    ensures Solo(fold, m, n).c.pc == Done(Failed) && NoFaults(m.turns) && m.c.pc != Done(Failed) ==> Solo(fold, m, n).sh.jobs == m.sh.jobs
    ensures m.c.pc.Done? ==> Solo(fold, m, n).c == m.c && Solo(fold, m, n).sh.jobs == m.sh.jobs
    decreases n
  {
    if n > 0 {
      FailedKeepsJobs(fold, SoloStep(fold, m), n - 1);
    }
  }
}
