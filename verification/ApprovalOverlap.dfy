/** Particular runs, for any executions: overlapping decisions on one key, a failed read that reopens a
    denial, an expiry write that defeats an approval of another request. */
module ApprovalOverlap {
  import opened Common
  import opened ApprovalRecords
  import opened ApprovalProtocol
  import opened ProtocolInvariants
  import opened ApprovalRefinement
  import opened ApprovalSafety
  import opened ApprovalFinality

  const EMPTY := World(Shared(None, map[], 0, []), [])

  function Steps(i: nat, n: nat): seq<Label> {
    if n == 0 then [] else [Step(i, NoFault)] + Steps(i, n - 1)
  }

  /** One client moving `n` times in a row without faults. */
  function Drive(fold: char -> char, sh: Shared, c: Client, n: nat): (Shared, Client)
    decreases n
  {
    if n == 0 then (sh, c) else var (sh', c') := Act(fold, sh, c, NoFault); Drive(fold, sh', c', n - 1)
  }

  lemma {:induction false} RunSteps(fold: char -> char, w: World, i: nat, n: nat)
    requires i < |w.clients|
    ensures Run(fold, w, Steps(i, n)) == World(Drive(fold, w.sh, w.clients[i], n).0, w.clients[i := Drive(fold, w.sh, w.clients[i], n).1])
    decreases n
  {
    if n > 0 {
      var w' := Next(fold, w, Step(i, NoFault));
      assert Steps(i, n)[1..] == Steps(i, n - 1);
      RunSteps(fold, w', i, n - 1);
    }
  }

  /** The call of `p` alone on a store without its key: five steps to a stored request. */
  lemma {:induction false} FirstRequest(fold: char -> char, sh: Shared, p: Plan)
    requires p.gated && sh.cm.None?
    ensures var rec := NewRequest(p, sh.now);
            var c := Client(Execute(p), Done(AwaitingApproval), Absent, sh.now, |sh.log|);
            Drive(fold, sh, NewClient(Execute(p)), 5)
            == (Shared(Some(ConfigMap(2, map[KeyOfRecord(rec) := rec])), sh.jobs, sh.now,
                       sh.log + [EntryOf(c, rec, Creation)]), c)
  {
    var op, rec := Execute(p), NewRequest(p, sh.now);
    var c1 := Client(op, Decide, Absent, sh.now, |sh.log|);
    assert Act(fold, sh, NewClient(op), NoFault) == (sh, c1);
    var c2 := c1.(pc := ReRead(rec, Creation));
    assert Act(fold, sh, c1, NoFault) == (sh, c2);
    var c3 := c1.(pc := NewObject(rec));
    assert Act(fold, sh, c2, NoFault) == (sh, c3);
    var cm := ConfigMap(1, map[]);
    var sh4, c4 := sh.(cm := Some(cm)), c1.(pc := Write(rec, Creation, cm));
    assert Act(fold, sh, c3, NoFault) == (sh4, c4);
    var sh5, c5 := Store(sh4, cm, EntryOf(c1, rec, Creation)), c1.(pc := Done(AwaitingApproval));
    assert Act(fold, sh4, c4, NoFault) == (sh5, c5);
    assert sh5.cm.value.data == map[KeyOfRecord(rec) := rec];
    assert Drive(fold, sh5, c5, 0) == (sh5, c5);
    assert Drive(fold, sh4, c4, 1) == (sh5, c5);
    assert Drive(fold, sh, c3, 2) == (sh5, c5);
    assert Drive(fold, sh, c2, 3) == (sh5, c5);
    assert Drive(fold, sh, c1, 4) == (sh5, c5);
  }

  function Decided(op: Op, rec: Request, at: nat): Request
    requires !op.Execute?
  {
    if op.Approve? then ApprovedCopy(rec, op.user, at) else DeniedCopy(rec, op.user, at, op.reason)
  }

  /** A decision on a pending request, up to the re-read of `Update`. */
  lemma {:induction false} PreparesDecision(fold: char -> char, sh: Shared, op: Op)
    requires !op.Execute? && KeyOf(op) in Data(sh)
    requires var rec := Data(sh)[KeyOf(op)]; rec.status == Pending && !PastExpiry(rec, sh.now) && Contains(fold, rec.approvers, op.user)
    ensures var rec := Data(sh)[KeyOf(op)];
            Drive(fold, sh, NewClient(op), 3) == (sh, Client(op, ReRead(Decided(op, rec, sh.now), Decision), Found(rec), sh.now, |sh.log|))
  {
    var rec := Data(sh)[KeyOf(op)];
    var c1 := Client(op, Test, Found(rec), 0, |sh.log|);
    assert Act(fold, sh, NewClient(op), NoFault) == (sh, c1);
    var c2 := Client(op, Decide, Found(rec), sh.now, |sh.log|);
    assert Act(fold, sh, c1, NoFault) == (sh, c2);
    var c3 := c2.(pc := ReRead(Decided(op, rec, sh.now), Decision));
    assert Act(fold, sh, c2, NoFault) == (sh, c3);
    assert Drive(fold, sh, c3, 0) == (sh, c3);
    assert Drive(fold, sh, c2, 1) == (sh, c3);
    assert Drive(fold, sh, c1, 2) == (sh, c3);
  }

  /** The re-read and the write of `Update`, with nothing in between. */
  lemma {:induction false} StoresRecord(fold: char -> char, sh: Shared, c: Client)
    requires c.pc.ReRead? && sh.cm.Some? && Data(sh) != map[]
    ensures Drive(fold, sh, c, 2) == (Store(sh, sh.cm.value, EntryOf(c, c.pc.rec, c.pc.kind)), AfterWrite(c, c.pc.kind, true))
  {
    var c1 := c.(pc := Write(c.pc.rec, c.pc.kind, sh.cm.value));
    assert Act(fold, sh, c, NoFault) == (sh, c1);
    var sh2, c2 := Store(sh, sh.cm.value, EntryOf(c, c.pc.rec, c.pc.kind)), AfterWrite(c, c.pc.kind, true);
    assert Act(fold, sh, c1, NoFault) == (sh2, c2);
    assert Drive(fold, sh2, c2, 0) == (sh2, c2);
    assert Drive(fold, sh, c1, 1) == (sh2, c2);
  }

  lemma {:induction false} DriveConcat(fold: char -> char, sh: Shared, c: Client, m: nat, n: nat)
    ensures Drive(fold, sh, c, m + n) == Drive(fold, Drive(fold, sh, c, m).0, Drive(fold, sh, c, m).1, n)
    decreases m
  {
    if m > 0 {
      var (sh', c') := Act(fold, sh, c, NoFault);
      DriveConcat(fold, sh', c', m - 1, n);
    }
  }

  lemma {:induction false} RunArrive(fold: char -> char, w: World, op: Op)
    ensures Run(fold, w, [Arrive(op)]) == World(w.sh, w.clients + [NewClient(op)])
  {
    assert [Arrive(op)][1..] == [];
    assert Run(fold, Next(fold, w, Arrive(op)), []) == Next(fold, w, Arrive(op));
  }

  /** A fresh request, stored. */
  lemma {:induction false} Requested(fold: char -> char, p: Plan)
    requires p.gated
    ensures var w := Run(fold, EMPTY, [Arrive(Execute(p))] + Steps(0, 5));
            var rec := NewRequest(p, 0);
            && w.clients == [Client(Execute(p), Done(AwaitingApproval), Absent, 0, 0)]
            && w.sh == Shared(Some(ConfigMap(2, map[KeyOf(Execute(p)) := rec])), map[], 0, [EntryOf(w.clients[0], rec, Creation)])
  {
    RunConcat(fold, EMPTY, [Arrive(Execute(p))], Steps(0, 5));
    RunArrive(fold, EMPTY, Execute(p));
    var w1 := World(EMPTY.sh, [NewClient(Execute(p))]);
    assert EMPTY.clients + [NewClient(Execute(p))] == w1.clients;
    RunSteps(fold, w1, 0, 5);
    FirstRequest(fold, EMPTY.sh, p);
  }

  /** Two overlapping decisions on one key, no fault anywhere: the denial is stored and acknowledged,
      then the approval is stored over it and acknowledged too. */
  lemma {:induction false} OverlapOverwritesDenial(fold: char -> char, p: Plan, user: string, reason: string)
    requires p.gated && Contains(fold, p.approvers, user)
    ensures var ask := [Arrive(Execute(p))] + Steps(0, 5);
            var both := [Arrive(Approve(p.executionID, p.stepName, user))] + [Arrive(Deny(p.executionID, p.stepName, user, reason))];
            var w := Run(fold, Run(fold, EMPTY, ask), both);
            var w1 := Run(fold, Run(fold, w, Steps(1, 3)), Steps(2, 5));
            var w2 := Run(fold, w1, Steps(1, 2));
            var k := Key(p.executionID, p.stepName);
            && |w1.clients| == |w2.clients| == 3
            && k in Data(w1.sh) && Data(w1.sh)[k].status == Denied && w1.clients[2].pc == Done(Acknowledged)
            && k in Data(w2.sh) && Data(w2.sh)[k].status == Approved && w2.clients[1].pc == Done(Acknowledged)
  {
    var ask := [Arrive(Execute(p))] + Steps(0, 5);
    var approve, deny := Approve(p.executionID, p.stepName, user), Deny(p.executionID, p.stepName, user, reason);
    var k := KeyOf(approve);
    Requested(fold, p);
    var a := Run(fold, EMPTY, ask);
    RunConcat(fold, a, [Arrive(approve)], [Arrive(deny)]);
    RunArrive(fold, a, approve);
    RunArrive(fold, Run(fold, a, [Arrive(approve)]), deny);
    var w := Run(fold, a, [Arrive(approve)] + [Arrive(deny)]);
    assert w.sh == a.sh && w.clients[1] == NewClient(approve) && w.clients[2] == NewClient(deny);
    PreparesDecision(fold, w.sh, approve);
    RunSteps(fold, w, 1, 3);
    var v := Run(fold, w, Steps(1, 3));
    assert v.sh == w.sh && v.clients[2] == NewClient(deny);
    PreparesDecision(fold, v.sh, deny);
    var c := Drive(fold, v.sh, NewClient(deny), 3).1;
    DriveConcat(fold, v.sh, NewClient(deny), 3, 2);
    StoresRecord(fold, v.sh, c);
    RunSteps(fold, v, 2, 5);
    var w1 := Run(fold, v, Steps(2, 5));
    assert Data(w1.sh)[k].status == Denied;
    StoresRecord(fold, w1.sh, w1.clients[1]);
    RunSteps(fold, w1, 1, 2);
  }

  // ----------------------------------------- the second hypothesis

  ghost predicate OnlyActive(w: World, i: nat) {
    forall j :: 0 <= j < |w.clients| && j != i ==> !Active(w.clients[j])
  }

  lemma {:induction false} AloneIsExclusive(fold: char -> char, w: World, i: nat, labels: seq<Label>)
    requires OnlyActive(w, i)
    requires forall n :: 0 <= n < |labels| ==> labels[n].Arrive? || (labels[n].Step? && labels[n].i == i)
    ensures ExclusiveRun(fold, w, labels) && OnlyActive(Run(fold, w, labels), i)
    decreases |labels|
  {
    if labels != [] {
      AloneIsExclusive(fold, Next(fold, w, labels[0]), i, labels[1..]);
    }
  }

  lemma {:induction false} ExclusiveConcat(fold: char -> char, w: World, before: seq<Label>, after: seq<Label>)
    requires ExclusiveRun(fold, w, before) && ExclusiveRun(fold, Run(fold, w, before), after)
    ensures ExclusiveRun(fold, w, before + after)
    decreases |before|
  {
    if before == [] {
      assert before + after == after;
    } else {
      assert (before + after)[0] == before[0] && (before + after)[1..] == before[1..] + after;
      ExclusiveConcat(fold, Next(fold, w, before[0]), before[1..], after);
    }
  }

  lemma {:induction false} StepsAreSteps(i: nat, n: nat)
    ensures forall m :: 0 <= m < |Steps(i, n)| ==> Steps(i, n)[m].Step? && Steps(i, n)[m].i == i
  {
    if n > 0 {
      StepsAreSteps(i, n - 1);
    }
  }

  /** A request, asked for and decided. */
  function AskAndDecide(p: Plan, op: Op): seq<Label> {
    [Arrive(Execute(p))] + Steps(0, 5) + ([Arrive(op)] + Steps(1, 5))
  }

  function AskAgainBlindly(p: Plan): seq<Label> {
    [Arrive(Execute(p)), Step(2, Dropped)] + Steps(2, 3)
  }

  /** The store after `AskAndDecide`. */
  function DecidedStore(p: Plan, op: Op): Shared
    requires !op.Execute?
  {
    var asked := NewRequest(p, 0);
    var rec := Decided(op, asked, 0);
    Shared(Some(ConfigMap(3, map[KeyOf(op) := rec])), map[], 0,
           [ Commit(KeyOf(op), asked, Creation, Execute(p), Absent, 0, 0),
             Commit(KeyOf(op), rec, Decision, op, Found(asked), 0, 1) ])
  }

  lemma {:induction false} DecidedAlone(fold: char -> char, p: Plan, op: Op)
    requires p.gated && !op.Execute? && KeyOf(op) == KeyOf(Execute(p)) && Contains(fold, p.approvers, op.user)
    ensures var w := Run(fold, EMPTY, AskAndDecide(p, op));
            && w.sh == DecidedStore(p, op)
            && |w.clients| == 2 && w.clients[0].pc.Done? && w.clients[1].pc == Done(Acknowledged)
  {
    var ask := [Arrive(Execute(p))] + Steps(0, 5);
    Requested(fold, p);
    var a := Run(fold, EMPTY, ask);
    RunConcat(fold, EMPTY, ask, [Arrive(op)] + Steps(1, 5));
    RunConcat(fold, a, [Arrive(op)], Steps(1, 5));
    RunArrive(fold, a, op);
    var v := Run(fold, a, [Arrive(op)]);
    PreparesDecision(fold, v.sh, op);
    var c := Drive(fold, v.sh, NewClient(op), 3).1;
    DriveConcat(fold, v.sh, NewClient(op), 3, 2);
    StoresRecord(fold, v.sh, c);
    RunSteps(fold, v, 1, 5);
    var sh := Store(v.sh, v.sh.cm.value, EntryOf(c, c.pc.rec, Decision));
    assert sh.cm.value.data == map[KeyOf(op) := c.pc.rec];
    assert sh == DecidedStore(p, op);
  }

  lemma {:induction false} DecidedAloneIsExclusive(fold: char -> char, p: Plan, op: Op)
    requires p.gated
    ensures ExclusiveRun(fold, EMPTY, AskAndDecide(p, op))
  {
    var ask := [Arrive(Execute(p))] + Steps(0, 5);
    Requested(fold, p);
    StepsAreSteps(0, 5);
    StepsAreSteps(1, 5);
    AloneIsExclusive(fold, EMPTY, 0, ask);
    AloneIsExclusive(fold, Run(fold, EMPTY, ask), 1, [Arrive(op)] + Steps(1, 5));
    ExclusiveConcat(fold, EMPTY, ask, [Arrive(op)] + Steps(1, 5));
  }

  lemma {:induction false} ReadsBlindly(fold: char -> char, w: World, p: Plan)
    requires p.gated && |w.clients| == 2
    ensures Run(fold, w, [Arrive(Execute(p)), Step(2, Dropped)])
            == World(w.sh, w.clients + [Client(Execute(p), Decide, Unread, w.sh.now, |w.sh.log|)])
  {
    var w1 := World(w.sh, w.clients + [NewClient(Execute(p))]);
    var w2 := World(w.sh, w.clients + [Client(Execute(p), Decide, Unread, w.sh.now, |w.sh.log|)]);
    assert Next(fold, w1, Step(2, Dropped)) == w2;
    assert [Arrive(Execute(p)), Step(2, Dropped)][1..] == [Step(2, Dropped)] && [Step(2, Dropped)][1..] == [];
    assert Run(fold, w1, [Step(2, Dropped)]) == Run(fold, w2, []) == w2;
  }

  /** Calls made strictly one after another: a request is denied, then an execution whose read of the
      store fails puts a new pending request in its place. */
  lemma {:induction false} FailedReadReopensDenial(fold: char -> char, p: Plan, user: string, reason: string)
    requires p.gated && Contains(fold, p.approvers, user)
    ensures var ask := AskAndDecide(p, Deny(p.executionID, p.stepName, user, reason));
            var w := Run(fold, EMPTY, ask);
            var w' := Run(fold, w, AskAgainBlindly(p));
            var k := Key(p.executionID, p.stepName);
            && ExclusiveRun(fold, EMPTY, ask + AskAgainBlindly(p))
            && k in Data(w.sh) && Data(w.sh)[k].status == Denied
            && k in Data(w'.sh) && Data(w'.sh)[k].status == Pending
  {
    var deny := Deny(p.executionID, p.stepName, user, reason);
    DecidedAlone(fold, p, deny);
    DecidedAloneIsExclusive(fold, p, deny);
    var w := Run(fold, EMPTY, AskAndDecide(p, deny));
    var ask := [Arrive(Execute(p)), Step(2, Dropped)];
    RunConcat(fold, w, ask, Steps(2, 3));
    ReadsBlindly(fold, w, p);
    var w2 := Run(fold, w, ask);
    var c := w2.clients[2];
    var c' := c.(pc := ReRead(NewRequest(p, w.sh.now), Creation));
    assert Act(fold, w.sh, c, NoFault) == (w.sh, c');
    StoresRecord(fold, w.sh, c');
    assert Drive(fold, w.sh, c, 3) == Drive(fold, w.sh, c', 2);
    RunSteps(fold, w2, 2, 3);
    StepsAreSteps(2, 3);
    AloneIsExclusive(fold, w, 2, AskAgainBlindly(p));
    ExclusiveConcat(fold, EMPTY, AskAndDecide(p, deny), AskAgainBlindly(p));
  }

  // ------------------------------------- an expiry write in another's way

  lemma {:induction false} RunTick(fold: char -> char, w: World, d: nat)
    ensures Run(fold, w, [Tick(d)]) == World(w.sh.(now := w.sh.now + d), w.clients)
  {
    assert [Tick(d)][1..] == [];
    assert Run(fold, Next(fold, w, Tick(d)), []) == Next(fold, w, Tick(d));
  }

  /** The call of `p` alone on a store that holds other records: four steps to a stored request. */
  lemma {:induction false} NextRequest(fold: char -> char, sh: Shared, p: Plan)
    requires p.gated && sh.cm.Some? && Data(sh) != map[] && KeyOf(Execute(p)) !in Data(sh)
    ensures var c := Client(Execute(p), Decide, Absent, sh.now, |sh.log|);
            Drive(fold, sh, NewClient(Execute(p)), 4)
            == (Store(sh, sh.cm.value, EntryOf(c, NewRequest(p, sh.now), Creation)), c.(pc := Done(AwaitingApproval)))
  {
    var c := Client(Execute(p), Decide, Absent, sh.now, |sh.log|);
    assert Act(fold, sh, NewClient(Execute(p)), NoFault) == (sh, c);
    var c' := c.(pc := ReRead(NewRequest(p, sh.now), Creation));
    assert Act(fold, sh, c, NoFault) == (sh, c');
    StoresRecord(fold, sh, c');
    assert Drive(fold, sh, c, 3) == Drive(fold, sh, c', 2);
  }

  /** A request of `p` that has run out, and one of `q` that has not. */
  function AskTwice(p: Plan, q: Plan): seq<Label> {
    [Arrive(Execute(p))] + Steps(0, 5) + ([Tick(LIFETIME + 1)] + ([Arrive(Execute(q))] + Steps(1, 4)))
  }

  lemma {:induction false} TwoRequests(fold: char -> char, p: Plan, q: Plan)
    requires p.gated && q.gated && KeyOf(Execute(p)) != KeyOf(Execute(q))
    ensures var w := Run(fold, EMPTY, AskTwice(p, q));
            && w.sh.cm == Some(ConfigMap(3, map[KeyOf(Execute(p)) := NewRequest(p, 0), KeyOf(Execute(q)) := NewRequest(q, LIFETIME + 1)]))
            && w.sh.now == LIFETIME + 1
            && |w.clients| == 2 && w.clients[0].pc.Done? && w.clients[1].pc.Done?
  {
    var ask, second := [Arrive(Execute(p))] + Steps(0, 5), [Arrive(Execute(q))] + Steps(1, 4);
    Requested(fold, p);
    var a := Run(fold, EMPTY, ask);
    RunConcat(fold, EMPTY, ask, [Tick(LIFETIME + 1)] + second);
    RunConcat(fold, a, [Tick(LIFETIME + 1)], second);
    RunTick(fold, a, LIFETIME + 1);
    var b := Run(fold, a, [Tick(LIFETIME + 1)]);
    RunConcat(fold, b, [Arrive(Execute(q))], Steps(1, 4));
    RunArrive(fold, b, Execute(q));
    var v := Run(fold, b, [Arrive(Execute(q))]);
    assert KeyOf(Execute(p)) in Data(v.sh);
    NextRequest(fold, v.sh, q);
    RunSteps(fold, v, 1, 4);
  }

  /** A read of a request that has run out, up to the write of its expiry. */
  lemma {:induction false} WritesExpiry(fold: char -> char, sh: Shared, op: Op)
    requires !op.Execute? && KeyOf(op) in Data(sh) && sh.cm.Some? && KeyOfRecord(Data(sh)[KeyOf(op)]) == KeyOf(op)
    requires PastExpiry(Data(sh)[KeyOf(op)], sh.now)
    ensures var (sh', c') := Drive(fold, sh, NewClient(op), 4);
            && c'.op == op && c'.pc == Decide && sh'.now == sh.now
            && sh'.cm == Some(ConfigMap(sh.cm.value.version + 1, Data(sh)[KeyOf(op) := ExpiredCopy(Data(sh)[KeyOf(op)])]))
  {
    var rec := Data(sh)[KeyOf(op)];
    var c1 := Client(op, Test, Found(rec), 0, |sh.log|);
    assert Act(fold, sh, NewClient(op), NoFault) == (sh, c1);
    var c2 := Client(op, ReRead(ExpiredCopy(rec), Expiry), Found(rec), sh.now, |sh.log|);
    assert Act(fold, sh, c1, NoFault) == (sh, c2);
    StoresRecord(fold, sh, c2);
    assert Drive(fold, sh, c1, 3) == Drive(fold, sh, c2, 2);
  }

  /** A decision up to its conditional write. */
  lemma {:induction false} ReachesWrite(fold: char -> char, sh: Shared, op: Op)
    requires !op.Execute? && sh.cm.Some? && KeyOf(op) in Data(sh)
    requires var rec := Data(sh)[KeyOf(op)]; rec.status == Pending && !PastExpiry(rec, sh.now) && Contains(fold, rec.approvers, op.user)
    ensures var (sh', c') := Drive(fold, sh, NewClient(op), 4);
            sh' == sh && c'.op == op && c'.pc.Write? && c'.pc.kind == Decision && c'.pc.snap == sh.cm.value
  {
    PreparesDecision(fold, sh, op);
    DriveConcat(fold, sh, NewClient(op), 3, 1);
    var c := Drive(fold, sh, NewClient(op), 3).1;
    assert Data(sh) != map[];
    assert Drive(fold, sh, c, 1) == Drive(fold, sh, Act(fold, sh, c, NoFault).1, 0);
  }

  lemma {:induction false} TwoAreExclusive(fold: char -> char, w: World, i: nat, j: nat, labels: seq<Label>)
    requires i < |w.clients| && j < |w.clients| && i != j && KeyOf(w.clients[i].op) != KeyOf(w.clients[j].op)
    requires forall n :: 0 <= n < |w.clients| && n != i && n != j ==> !Active(w.clients[n])
    requires forall n :: 0 <= n < |labels| ==> labels[n].Step? && (labels[n].i == i || labels[n].i == j)
    ensures ExclusiveRun(fold, w, labels)
    decreases |labels|
  {
    if labels != [] {
      ActKeepsOp(fold, w.sh, w.clients[labels[0].i], labels[0].fault);
      TwoAreExclusive(fold, Next(fold, w, labels[0]), i, j, labels[1..]);
    }
  }

  function ApproveBoth(p: Plan, q: Plan, user: string, anyone: string): seq<Label> {
    [Arrive(Approve(q.executionID, q.stepName, user))] + [Arrive(Approve(p.executionID, p.stepName, anyone))]
  }

  /** Approving `q`, as far as its write; then looking at the request of `p`, which has run out; then the
      write. */
  function ExpireMeanwhile(): seq<Label> {
    Steps(2, 4) + (Steps(3, 4) + Steps(2, 1))
  }

  lemma {:induction false} BothArrive(fold: char -> char, w: World, op: Op, op': Op)
    ensures Run(fold, w, [Arrive(op)] + [Arrive(op')]) == World(w.sh, w.clients + [NewClient(op)] + [NewClient(op')])
  {
    RunConcat(fold, w, [Arrive(op)], [Arrive(op')]);
    RunArrive(fold, w, op);
    RunArrive(fold, Run(fold, w, [Arrive(op)]), op');
  }

  lemma {:induction false} BothWaiting(fold: char -> char, p: Plan, q: Plan, user: string, anyone: string)
    requires p.gated && q.gated && KeyOf(Execute(p)) != KeyOf(Execute(q))
    ensures var w := Run(fold, Run(fold, EMPTY, AskTwice(p, q)), ApproveBoth(p, q, user, anyone));
            && |w.clients| == 4 && w.clients[0].pc.Done? && w.clients[1].pc.Done?
            && w.clients[2] == NewClient(Approve(q.executionID, q.stepName, user))
            && w.clients[3] == NewClient(Approve(p.executionID, p.stepName, anyone))
            && w.sh.cm.Some? && w.sh.now == LIFETIME + 1
            && Data(w.sh) == map[KeyOf(Execute(p)) := NewRequest(p, 0), KeyOf(Execute(q)) := NewRequest(q, LIFETIME + 1)]
  {
    TwoRequests(fold, p, q);
    BothArrive(fold, Run(fold, EMPTY, AskTwice(p, q)), Approve(q.executionID, q.stepName, user), Approve(p.executionID, p.stepName, anyone));
  }

  /** Without a fault and without overlap on a key, an authorized approval of a pending request fails,
      because a look at another request wrote down that one's expiry in between. */
  lemma {:induction false} ExpiryWriteDefeatsApproval(fold: char -> char, p: Plan, q: Plan, user: string, anyone: string)
    requires p.gated && q.gated && KeyOf(Execute(p)) != KeyOf(Execute(q)) && Contains(fold, q.approvers, user)
    ensures var w := Run(fold, Run(fold, EMPTY, AskTwice(p, q)), ApproveBoth(p, q, user, anyone));
            var w' := Run(fold, w, ExpireMeanwhile());
            var k, k' := KeyOf(Execute(q)), KeyOf(Execute(p));
            && ExclusiveRun(fold, w, ExpireMeanwhile())
            && |w'.clients| == 4 && w'.clients[2].pc == Done(Failed)
            && k in Data(w'.sh) && Data(w'.sh)[k].status == Pending && !PastExpiry(Data(w'.sh)[k], w'.sh.now)
            && k' in Data(w'.sh) && Data(w'.sh)[k'].status == Expired
  {
    var a := Run(fold, EMPTY, AskTwice(p, q));
    var approve, look := Approve(q.executionID, q.stepName, user), Approve(p.executionID, p.stepName, anyone);
    BothWaiting(fold, p, q, user, anyone);
    var w := Run(fold, a, ApproveBoth(p, q, user, anyone));
    LooksMeanwhile(fold, w, approve, look);
    ExpireMeanwhileSteps();
    TwoAreExclusive(fold, w, 2, 3, ExpireMeanwhile());
  }

  lemma {:induction false} ExpireMeanwhileSteps()
    ensures forall n :: 0 <= n < |ExpireMeanwhile()| ==> ExpireMeanwhile()[n].Step? && (ExpireMeanwhile()[n].i == 2 || ExpireMeanwhile()[n].i == 3)
  {
    StepsAreSteps(2, 4);
    StepsAreSteps(3, 4);
    StepsAreSteps(2, 1);
  }

  lemma {:induction false} LooksMeanwhile(fold: char -> char, w: World, approve: Op, look: Op)
    requires |w.clients| == 4 && w.clients[2] == NewClient(approve) && w.clients[3] == NewClient(look)
    requires !approve.Execute? && !look.Execute? && KeyOf(approve) != KeyOf(look) && w.sh.cm.Some?
    requires KeyOf(approve) in Data(w.sh) && KeyOf(look) in Data(w.sh)
    requires var rec := Data(w.sh)[KeyOf(approve)]; rec.status == Pending && !PastExpiry(rec, w.sh.now) && Contains(fold, rec.approvers, approve.user)
    requires var rec := Data(w.sh)[KeyOf(look)]; PastExpiry(rec, w.sh.now) && KeyOfRecord(rec) == KeyOf(look)
    ensures var w' := Run(fold, w, ExpireMeanwhile());
            && |w'.clients| == 4 && w'.clients[2].pc == Done(Failed) && w'.sh.now == w.sh.now
            && Data(w'.sh) == Data(w.sh)[KeyOf(look) := ExpiredCopy(Data(w.sh)[KeyOf(look)])]
  {
    RunConcat(fold, w, Steps(2, 4), Steps(3, 4) + Steps(2, 1));
    ReachesWrite(fold, w.sh, approve);
    RunSteps(fold, w, 2, 4);
    var v := Run(fold, w, Steps(2, 4));
    RunConcat(fold, v, Steps(3, 4), Steps(2, 1));
    WritesExpiry(fold, v.sh, look);
    RunSteps(fold, v, 3, 4);
    LosesCheck(fold, Run(fold, v, Steps(3, 4)));
  }

  lemma {:induction false} LosesCheck(fold: char -> char, w: World)
    requires |w.clients| == 4 && w.clients[2].pc.Write? && w.clients[2].pc.kind == Decision && w.sh.cm.Some?
    requires w.sh.cm.value.version != w.clients[2].pc.snap.version
    ensures Run(fold, w, Steps(2, 1)) == World(w.sh, w.clients[2 := w.clients[2].(pc := Done(Failed))])
  {
    var c' := w.clients[2].(pc := Done(Failed));
    RunSteps(fold, w, 2, 1);
    assert Act(fold, w.sh, w.clients[2], NoFault) == (w.sh, c');
    assert Drive(fold, w.sh, w.clients[2], 1) == Drive(fold, w.sh, c', 0) == (w.sh, c');
  }
}
