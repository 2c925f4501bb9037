/** Whether a decision stands, told from the state in which it is taken: exactly when no client can
    still write over it. */
module ApprovalStanding {
  import opened Common
  import opened ApprovalRecords
  import opened ApprovalProtocol
  import opened ProtocolInvariants
  import opened ApprovalSafety
  import opened ApprovalRefinement
  import opened ApprovalFinality
  import opened ApprovalOverlap

  /** The client read `k` too early and can still store something there. One that tests an open request
      can, if only its expiry; one that decides can if it decides to store; one that re-reads the object
      can; a write can if its snapshot is still current. An execution whose expiry write is lost goes on
      to ask anew. */
  predicate MayOverwrite(fold: char -> char, sh: Shared, c: Client, k: string) {
    && KeyOf(c.op) == k
    && match c.pc
       case Test => c.saw.Found? && (c.saw.rec.status == Pending || (c.op.Execute? && c.saw.rec.status == Expired))
       case Decide => ActDecide(fold, sh, c).pc.ReRead?
       case ReRead(_, _) => true
       case Write(_, kind, snap) => sh.cm == Some(snap) || (kind == Expiry && c.op.Execute?)
       case _ => false
  }

  predicate DecidedAt(sh: Shared, k: string) {
    k in Data(sh) && Terminal(Data(sh)[k].status)
  }

  ghost predicate NobodyOverwrites(fold: char -> char, w: World, k: string) {
    forall i :: 0 <= i < |w.clients| ==> !MayOverwrite(fold, w.sh, w.clients[i], k)
  }

  /** Whatever happens, if no execution's first read of `k` fails, the record at `k` is not written over. */
  ghost predicate Stands(fold: char -> char, w: World, k: string) {
    forall after: seq<Label> :: ReadsSucceed(fold, w, after, k)
      ==> Untouched(Run(fold, w, after).sh.log, |w.sh.log|, |Run(fold, w, after).sh.log|, k)
  }

  // ---------------------------------------------- nobody can, nobody does

  lemma {:induction false} DecideCannotStart(fold: char -> char, sh: Shared, c: Client)
    requires c.pc.Decide? && !ActDecide(fold, sh, c).pc.ReRead?
    ensures ActDecide(fold, sh, c).pc.Done? || ActDecide(fold, sh, c).pc.CreateJob?
  {}

  /** A view that asks for no write, or only one by an execution. */
  lemma {:induction false} ClosedViewStoresNothing(fold: char -> char, sh: Shared, c: Client)
    requires c.saw.Found?
    requires var status := View(c.saw.rec, c.tested).status; Terminal(status) || (status == Expired && !c.op.Execute?)
    ensures !ActDecide(fold, sh, c).pc.ReRead?
  {}

  lemma {:induction false} StartCannot(fold: char -> char, sh: Shared, c: Client, fault: Fault, k: string)
    requires c.pc.Start? && KeyOf(c.op) == k && DecidedAt(sh, k)
    requires AboutToRead(c, k) ==> fault == NoFault
    ensures !MayOverwrite(fold, sh, ActStart(sh, c, fault), k)
  {}

  lemma {:induction false} TestCannot(fold: char -> char, sh: Shared, c: Client, k: string)
    requires c.pc.Test? && c.saw.Found? && KeyOf(c.op) == k && !MayOverwrite(fold, sh, c, k)
    ensures !MayOverwrite(fold, sh, ActTest(sh, c), k)
  {
    ClosedViewStoresNothing(fold, sh, ActTest(sh, c));
  }

  /** A write that cannot commit ends, or leads to a decision that stores nothing. */
  lemma {:induction false} WriteCannot(fold: char -> char, sh: Shared, c: Client, fault: Fault, k: string)
    requires ClientOk(fold, sh, c) && c.pc.Write? && KeyOf(c.op) == k && !MayOverwrite(fold, sh, c, k)
    ensures ActWrite(sh, c, c.pc.rec, c.pc.kind, c.pc.snap, fault).0 == sh
    ensures !MayOverwrite(fold, sh, ActWrite(sh, c, c.pc.rec, c.pc.kind, c.pc.snap, fault).1, k)
  {
    if c.pc.kind == Expiry {
      ClosedViewStoresNothing(fold, sh, c.(pc := Decide));
    }
  }

  /** A client at `k` that cannot overwrite the decision makes a step. */
  lemma {:induction false} ActCannot(fold: char -> char, sh: Shared, c: Client, fault: Fault, k: string)
    requires ClientOk(fold, sh, c) && KeyOf(c.op) == k && DecidedAt(sh, k) && !MayOverwrite(fold, sh, c, k)
    requires AboutToRead(c, k) ==> fault == NoFault
    ensures var (sh', c') := Act(fold, sh, c, fault);
            && sh'.cm == sh.cm && !MayOverwrite(fold, sh', c', k)
            && (sh'.log == sh.log || (|sh'.log| == |sh.log| + 1 && sh'.log[..|sh.log|] == sh.log && !sh'.log[|sh.log|].Commit?))
  {
    match c.pc
    case Start => StartCannot(fold, sh, c, fault, k);
    case Test => TestCannot(fold, sh, c, k);
    case Decide => DecideCannotStart(fold, sh, c);
    case Write(_, _, _) => WriteCannot(fold, sh, c, fault, k);
    case _ =>
  }

  /** A decision does not depend on the store, only on what was seen. */
  lemma {:induction false} DecideIsOwn(fold: char -> char, sh: Shared, sh': Shared, c: Client)
    ensures ActDecide(fold, sh, c).pc.ReRead? <==> ActDecide(fold, sh', c).pc.ReRead?
  {}

  lemma {:induction false} StillCannot(fold: char -> char, sh: Shared, sh': Shared, c: Client, k: string)
    requires ClientOk(fold, sh, c) && Grows(sh, sh') && !MayOverwrite(fold, sh, c, k)
    ensures !MayOverwrite(fold, sh', c, k)
  {
    if c.pc.Decide? {
      DecideIsOwn(fold, sh, sh', c);
    }
  }

  ghost predicate NoCommitAt(log: seq<Entry>, log': seq<Entry>, k: string) {
    forall h :: |log| <= h < |log'| && log'[h].Commit? ==> log'[h].key != k
  }

  /** Other keys' steps leave the decision alone. */
  lemma {:induction false} OtherKeyStep(fold: char -> char, w: World, l: Label, k: string)
    requires Inv(fold, w) && DecidedAt(w.sh, k)
    requires l.Step? && l.i < |w.clients| ==> KeyOf(w.clients[l.i].op) != k
    ensures DecidedAt(Next(fold, w, l).sh, k) && NoCommitAt(w.sh.log, Next(fold, w, l).sh.log, k)
  {
    StepChangesOneKey(fold, w, l);
    if l.Step? && l.i < |w.clients| {
      ActSight(fold, w.sh, w.clients[l.i], l.fault);
      if w.clients[l.i].pc.Write? {
        WriteAtOwnKey(fold, w.sh, w.clients[l.i]);
      }
    }
  }

  lemma {:induction false} NextStands(fold: char -> char, w: World, l: Label, k: string)
    requires Inv(fold, w) && DecidedAt(w.sh, k) && NobodyOverwrites(fold, w, k)
    requires l.Step? && l.i < |w.clients| && AboutToRead(w.clients[l.i], k) ==> l.fault == NoFault
    ensures var w' := Next(fold, w, l);
            DecidedAt(w'.sh, k) && NoCommitAt(w.sh.log, w'.sh.log, k) && NobodyOverwrites(fold, w', k)
  {
    var w' := Next(fold, w, l);
    NextOk(fold, w, l);
    if l.Step? && l.i < |w.clients| && KeyOf(w.clients[l.i].op) == k {
      ActCannot(fold, w.sh, w.clients[l.i], l.fault, k);
    } else {
      OtherKeyStep(fold, w, l, k);
    }
    forall j | 0 <= j < |w'.clients| ensures !MayOverwrite(fold, w'.sh, w'.clients[j], k) {
      if j < |w.clients| {
        if l.Step? && l.i == j {
          ActKeepsOp(fold, w.sh, w.clients[j], l.fault);
        } else {
          StillCannot(fold, w.sh, w'.sh, w.clients[j], k);
        }
      }
    }
  }

  lemma {:induction false} RunStands(fold: char -> char, w: World, after: seq<Label>, k: string)
    requires Inv(fold, w) && DecidedAt(w.sh, k) && NobodyOverwrites(fold, w, k) && ReadsSucceed(fold, w, after, k)
    ensures NoCommitAt(w.sh.log, Run(fold, w, after).sh.log, k)
    decreases |after|
  {
    if after != [] {
      var w1, w' := Next(fold, w, after[0]), Run(fold, w, after);
      NextOk(fold, w, after[0]);
      NextStands(fold, w, after[0], k);
      RunStands(fold, w1, after[1..], k);
      RunOk(fold, w1, after[1..]);
      assert forall h :: 0 <= h < |w1.sh.log| ==> w'.sh.log[h] == w1.sh.log[h];
    }
  }

  // ----------------------------------------- whoever can, does if left alone

  /** Left alone for `n` steps, the client commits at its key. */
  predicate Writes(fold: char -> char, sh: Shared, c: Client, n: nat) {
    var log' := Drive(fold, sh, c, n).0.log;
    |log'| > |sh.log| && log'[|sh.log|].Commit? && log'[|sh.log|].key == KeyOf(c.op)
  }

  lemma {:induction false} WritesNext(fold: char -> char, sh: Shared, c: Client, n: nat)
    requires Act(fold, sh, c, NoFault).0 == sh && Act(fold, sh, c, NoFault).1.op == c.op
    requires Writes(fold, sh, Act(fold, sh, c, NoFault).1, n)
    ensures Writes(fold, sh, c, n + 1)
  {}

  lemma {:induction false} CurrentWrites(fold: char -> char, sh: Shared, c: Client)
    requires ClientOk(fold, sh, c) && c.pc.Write? && sh.cm == Some(c.pc.snap)
    ensures Writes(fold, sh, c, 1)
  {
    WriteAtOwnKey(fold, sh, c);
    var (sh', c') := Act(fold, sh, c, NoFault);
    assert Drive(fold, sh, c, 1) == Drive(fold, sh', c', 0) == (sh', c');
  }

  lemma {:induction false} ReReadWrites(fold: char -> char, sh: Shared, c: Client)
    requires SharedOk(fold, sh) && ClientOk(fold, sh, c) && c.pc.ReRead? && sh.cm.Some?
    ensures Writes(fold, sh, c, 2)
  {
    ReReadOk(fold, sh, c, NoFault);
    ActKeepsOp(fold, sh, c, NoFault);
    CurrentWrites(fold, sh, Act(fold, sh, c, NoFault).1);
    WritesNext(fold, sh, c, 1);
  }

  lemma {:induction false} DecideWrites(fold: char -> char, sh: Shared, c: Client)
    requires SharedOk(fold, sh) && ClientOk(fold, sh, c) && c.pc.Decide? && sh.cm.Some? && ActDecide(fold, sh, c).pc.ReRead?
    ensures Writes(fold, sh, c, 3)
  {
    DecideOk(fold, sh, c);
    ActKeepsOp(fold, sh, c, NoFault);
    ReReadWrites(fold, sh, ActDecide(fold, sh, c));
    WritesNext(fold, sh, c, 2);
  }

  /** An execution that saw its request expired asks anew. */
  lemma {:induction false} ExpiredIsReplaced(fold: char -> char, sh: Shared, c: Client)
    requires c.pc.Decide? && c.op.Execute? && c.saw.Found? && View(c.saw.rec, c.tested).status == Expired
    ensures ActDecide(fold, sh, c).pc.ReRead?
  {}

  lemma {:induction false} LostExpiryWrites(fold: char -> char, sh: Shared, c: Client)
    requires SharedOk(fold, sh) && ClientOk(fold, sh, c) && sh.cm.Some?
    requires c.pc.Write? && c.pc.kind == Expiry && c.op.Execute? && sh.cm != Some(c.pc.snap)
    ensures Writes(fold, sh, c, 4)
  {
    WriteOk(fold, sh, c, NoFault);
    var c' := c.(pc := Decide);
    assert Act(fold, sh, c, NoFault) == (sh, c');
    ExpiredIsReplaced(fold, sh, c');
    DecideWrites(fold, sh, c');
    WritesNext(fold, sh, c, 3);
  }

  lemma {:induction false} TestOk(fold: char -> char, sh: Shared, c: Client)
    requires SharedOk(fold, sh) && ClientOk(fold, sh, c) && c.pc.Test?
    ensures ClientOk(fold, sh, ActTest(sh, c))
  {
    ActOk(fold, sh, c, NoFault);
  }

  /** Past its expiry, an open request that is tested is written as expired. */
  lemma {:induction false} TestWritesExpiry(fold: char -> char, sh: Shared, c: Client)
    requires SharedOk(fold, sh) && ClientOk(fold, sh, c) && c.pc.Test? && sh.cm.Some? && PastExpiry(c.saw.rec, sh.now)
    ensures Writes(fold, sh, c, 3)
  {
    TestOk(fold, sh, c);
    ReReadWrites(fold, sh, ActTest(sh, c));
    WritesNext(fold, sh, c, 2);
  }

  lemma {:induction false} TestReplacesExpired(fold: char -> char, sh: Shared, c: Client)
    requires SharedOk(fold, sh) && ClientOk(fold, sh, c) && c.pc.Test? && sh.cm.Some?
    requires c.op.Execute? && c.saw.rec.status == Expired
    ensures Writes(fold, sh, c, 4)
  {
    TestOk(fold, sh, c);
    ExpiredIsReplaced(fold, sh, ActTest(sh, c));
    DecideWrites(fold, sh, ActTest(sh, c));
    WritesNext(fold, sh, c, 3);
  }

  /** How long to wait for the request to run out. */
  function UntilExpiry(r: Request, now: nat): nat {
    if r.expiresAt >= now then r.expiresAt - now + 1 else 0
  }

  predicate TestsOpenRequest(c: Client) {
    c.pc.Test? && c.saw.Found? && c.saw.rec.status == Pending
  }

  lemma {:induction false} OpenTestWrites(fold: char -> char, sh: Shared, c: Client)
    requires SharedOk(fold, sh) && ClientOk(fold, sh, c) && TestsOpenRequest(c) && sh.cm.Some?
    ensures Writes(fold, sh.(now := sh.now + UntilExpiry(c.saw.rec, sh.now)), c, 3)
  {
    var sh' := sh.(now := sh.now + UntilExpiry(c.saw.rec, sh.now));
    LogOkLater(fold, sh.log, sh.now, sh'.now);
    ClientOkLater(fold, sh, sh', c);
    TestWritesExpiry(fold, sh', c);
  }

  /** The steps such a client takes to its commit, unless it has to wait for an expiry. */
  function StepsToCommit(sh: Shared, c: Client): nat {
    match c.pc
    case Test => 4
    case Decide => 3
    case ReRead(_, _) => 2
    case Write(_, _, snap) => if sh.cm == Some(snap) then 1 else 4
    case _ => 0
  }

  lemma {:induction false} OverwritesAtOnce(fold: char -> char, sh: Shared, c: Client, k: string)
    requires SharedOk(fold, sh) && ClientOk(fold, sh, c) && sh.cm.Some? && MayOverwrite(fold, sh, c, k)
    requires !TestsOpenRequest(c)
    ensures Writes(fold, sh, c, StepsToCommit(sh, c))
  {
    match c.pc
    case Test => TestReplacesExpired(fold, sh, c);
    case Decide => DecideWrites(fold, sh, c);
    case ReRead(_, _) => ReReadWrites(fold, sh, c);
    case Write(_, _, snap) =>
      if sh.cm == Some(snap) {
        CurrentWrites(fold, sh, c);
      } else {
        LostExpiryWrites(fold, sh, c);
      }
    case _ =>
  }

  lemma {:induction false} FaultlessReadsSucceed(fold: char -> char, w: World, labels: seq<Label>, k: string)
    requires forall n :: 0 <= n < |labels| && labels[n].Step? ==> labels[n].fault == NoFault
    ensures ReadsSucceed(fold, w, labels, k)
    decreases |labels|
  {
    if labels != [] {
      FaultlessReadsSucceed(fold, Next(fold, w, labels[0]), labels[1..], k);
    }
  }

  lemma {:induction false} StepsAreFaultless(i: nat, n: nat)
    ensures forall m :: 0 <= m < |Steps(i, n)| ==> Steps(i, n)[m] == Step(i, NoFault)
    decreases n
  {
    if n > 0 {
      StepsAreFaultless(i, n - 1);
    }
  }

  /** A client that may overwrite the decision, left alone: after some time, if need be, it commits. */
  lemma {:induction false} LeftAlone(fold: char -> char, w: World, i: nat, n: nat, d: nat, k: string)
    requires i < |w.clients| && KeyOf(w.clients[i].op) == k && Writes(fold, w.sh.(now := w.sh.now + d), w.clients[i], n)
    ensures var after := [Tick(d)] + Steps(i, n);
            && ReadsSucceed(fold, w, after, k)
            && !Untouched(Run(fold, w, after).sh.log, |w.sh.log|, |Run(fold, w, after).sh.log|, k)
  {
    var after := [Tick(d)] + Steps(i, n);
    RunConcat(fold, w, [Tick(d)], Steps(i, n));
    RunTick(fold, w, d);
    RunSteps(fold, Run(fold, w, [Tick(d)]), i, n);
    StepsAreFaultless(i, n);
    FaultlessReadsSucceed(fold, w, after, k);
    var log' := Run(fold, w, after).sh.log;
    assert log'[|w.sh.log|].Commit? && log'[|w.sh.log|].key == k;
  }

  lemma {:induction false} LeftAloneAtOnce(fold: char -> char, w: World, i: nat, n: nat, k: string)
    requires i < |w.clients| && KeyOf(w.clients[i].op) == k && Writes(fold, w.sh, w.clients[i], n)
    ensures var after := Steps(i, n);
            && ReadsSucceed(fold, w, after, k)
            && !Untouched(Run(fold, w, after).sh.log, |w.sh.log|, |Run(fold, w, after).sh.log|, k)
  {
    RunSteps(fold, w, i, n);
    StepsAreFaultless(i, n);
    FaultlessReadsSucceed(fold, w, Steps(i, n), k);
    var log' := Run(fold, w, Steps(i, n)).sh.log;
    assert log'[|w.sh.log|].Commit? && log'[|w.sh.log|].key == k;
  }

  /** The run in which client `i` overwrites the decision. */
  lemma {:induction false} OverwritingRun(fold: char -> char, w: World, k: string, i: nat) returns (after: seq<Label>)
    requires Inv(fold, w) && DecidedAt(w.sh, k) && i < |w.clients| && MayOverwrite(fold, w.sh, w.clients[i], k)
    ensures ReadsSucceed(fold, w, after, k)
    ensures !Untouched(Run(fold, w, after).sh.log, |w.sh.log|, |Run(fold, w, after).sh.log|, k)
  {
    var c := w.clients[i];
    assert ClientOk(fold, w.sh, c);
    if TestsOpenRequest(c) {
      OpenTestWrites(fold, w.sh, c);
      LeftAlone(fold, w, i, 3, UntilExpiry(c.saw.rec, w.sh.now), k);
      after := [Tick(UntilExpiry(c.saw.rec, w.sh.now))] + Steps(i, 3);
    } else {
      OverwritesAtOnce(fold, w.sh, c, k);
      LeftAloneAtOnce(fold, w, i, StepsToCommit(w.sh, c), k);
      after := Steps(i, StepsToCommit(w.sh, c));
    }
  }

  /** Whether a decision is final, exactly, from the state alone: given that no execution's first read of
      the key fails from now on, the record is never written over, whatever anyone does, if and only if
      no client stands where it can still write over it. */
  lemma {:induction false} StandsExactly(fold: char -> char, w: World, k: string)
    requires Inv(fold, w) && DecidedAt(w.sh, k)
    ensures Stands(fold, w, k) <==> NobodyOverwrites(fold, w, k)
  {
    if NobodyOverwrites(fold, w, k) {
      forall after: seq<Label> | ReadsSucceed(fold, w, after, k)
        ensures Untouched(Run(fold, w, after).sh.log, |w.sh.log|, |Run(fold, w, after).sh.log|, k)
      {
        RunStands(fold, w, after, k);
      }
    }
    if Stands(fold, w, k) {
      forall i | 0 <= i < |w.clients| ensures !MayOverwrite(fold, w.sh, w.clients[i], k) {
        if MayOverwrite(fold, w.sh, w.clients[i], k) {
          var after := OverwritingRun(fold, w, k, i);
          assert false;
        }
      }
    }
  }

  /** The same for every state that a run reaches. */
  lemma {:induction false} ReachedDecisionStandsExactly(fold: char -> char, w0: World, before: seq<Label>, k: string)
    requires Initial(w0) && DecidedAt(Run(fold, w0, before).sh, k)
    ensures Stands(fold, Run(fold, w0, before), k) <==> NobodyOverwrites(fold, Run(fold, w0, before), k)
  {
    InitialOk(fold, w0);
    RunOk(fold, w0, before);
    StandsExactly(fold, Run(fold, w0, before), k);
  }
}
