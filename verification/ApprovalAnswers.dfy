/** What the operations answer and store, field by field, and who may decide: the atomic map, and with it
    the store, in terms of the stored record alone. */
module ApprovalAnswers {
  import opened Common
  import opened ApprovalRecords
  import opened ApprovalProtocol
  import opened ProtocolInvariants
  import opened ApprovalSafety
  import opened ApprovalRefinement
  import opened ApprovalFinality
  import opened ApprovalStore

  const DAY := 86_400_000_000_000

  /** The request, still open at `t`. */
  predicate Open(r: Request, t: nat) {
    r.status == Pending && t <= r.expiresAt
  }

  /** The status under which it is reported at `t`. */
  predicate ReportedAs(r: Request, t: nat, status: Status) {
    if r.status == Pending then status == (if t > r.expiresAt then Expired else Pending) else status == r.status
  }

  lemma {:induction false} ApproveAnswers(fold: char -> char, st: Requests, e: string, s: string, user: string, tested: nat, at: nat)
    ensures var (st', o) := Serve(fold, st, Call(Approve(e, s, user), false, tested, at));
            var k := e + "-" + s;
            && (k !in st ==> st' == st && o == NoRequest)
            && (k in st && !Open(st[k], tested) ==> st' == st && exists status :: ReportedAs(st[k], tested, status) && o == NotPending(status))
            && (k in st && Open(st[k], tested) && !Listed(fold, st[k].approvers, user) ==> st' == st && o == Unauthorized)
            && (k in st && Open(st[k], tested) && Listed(fold, st[k].approvers, user) ==>
                  var r := st[k];
                  && o == Acknowledged
                  && st' == st[k := Request(r.id, r.executionID, r.stepName, r.runbookID, r.user, r.script, r.scriptHash, r.approvers,
                                            Approved, user, Some(at), r.deniedBy, r.deniedAt, r.denialReason, r.createdAt, r.expiresAt)])
  {
    var k := e + "-" + s;
    if k in st {
      ContainsIsListed(fold, st[k].approvers, user);
      assert ReportedAs(st[k], tested, View(st[k], tested).status);
    }
  }

  lemma {:induction false} DenyAnswers(fold: char -> char, st: Requests, e: string, s: string, user: string, reason: string, tested: nat, at: nat)
    ensures var (st', o) := Serve(fold, st, Call(Deny(e, s, user, reason), false, tested, at));
            var k := e + "-" + s;
            && (k !in st ==> st' == st && o == NoRequest)
            && (k in st && !Open(st[k], tested) ==> st' == st && exists status :: ReportedAs(st[k], tested, status) && o == NotPending(status))
            && (k in st && Open(st[k], tested) && !Listed(fold, st[k].approvers, user) ==> st' == st && o == Unauthorized)
            && (k in st && Open(st[k], tested) && Listed(fold, st[k].approvers, user) ==>
                  var r := st[k];
                  && o == Acknowledged
                  && st' == st[k := Request(r.id, r.executionID, r.stepName, r.runbookID, r.user, r.script, r.scriptHash, r.approvers,
                                            Denied, r.approvedBy, r.approvedAt, user, Some(at), reason, r.createdAt, r.expiresAt)])
  {
    var k := e + "-" + s;
    if k in st {
      ContainsIsListed(fold, st[k].approvers, user);
      assert ReportedAs(st[k], tested, View(st[k], tested).status);
    }
  }

  /** The gate: an approved request lets the execution pass, a denied one stops it; in every other case, a
      failed read included, a new request of a day's validity is stored. */
  lemma {:induction false} ExecuteAnswers(fold: char -> char, st: Requests, p: Plan, blind: bool, tested: nat, at: nat)
    ensures var (st', o) := Serve(fold, st, Call(Execute(p), blind, tested, at));
            var k := p.executionID + "-" + p.stepName;
            && (!blind && k in st && st[k].status == Approved ==> st' == st && o == Proceed)
            && (!blind && k in st && st[k].status == Denied ==> st' == st && o == Rejected)
            && (blind || k !in st || st[k].status in {Pending, Expired} ==>
                  && o == AwaitingApproval
                  && st' == st[k := Request(p.executionID + "-" + p.stepName + "-" + Decimal(at), p.executionID, p.stepName, p.runbookID, p.user,
                                            p.script, p.scriptHash, p.approvers, Pending, "", None, "", None, "", at, at + DAY)])
  {}

  // ------------------------------------------------------- who may decide

  /** A commit for an approval or a denial: the decision, by a listed user on an open request, as he gave
      it; or the expiry of a request that was found run out. */
  ghost predicate DecidedAsGiven(fold: char -> char, e: Entry)
    requires e.Commit? && !e.op.Execute?
  {
    && e.saw.Found? && e.saw.rec.status == Pending
    && var r := e.saw.rec;
       if e.tested > r.expiresAt then e.rec == r.(status := Expired)
       else
         && Listed(fold, r.approvers, e.op.user)
         && (e.op.Approve? ==> exists at: nat :: e.rec == r.(status := Approved, approvedBy := e.op.user, approvedAt := Some(at)))
         && (e.op.Deny? ==> exists at: nat :: e.rec == r.(status := Denied, deniedBy := e.op.user, deniedAt := Some(at), denialReason := e.op.reason))
  }

  /** Whoever is not listed commits nothing but an expiry, in any run. */
  lemma {:induction false} OnlyListedUsersDecide(fold: char -> char, w0: World, labels: seq<Label>, h: nat)
    requires Initial(w0) && h < |Run(fold, w0, labels).sh.log|
    requires var e := Run(fold, w0, labels).sh.log[h]; e.Commit? && !e.op.Execute?
    ensures DecidedAsGiven(fold, Run(fold, w0, labels).sh.log[h])
  {
    var sh := Run(fold, w0, labels).sh;
    InitialOk(fold, w0);
    RunOk(fold, w0, labels);
    JustifiedAsGiven(fold, sh.log[h], sh.now);
  }

  lemma {:induction false} JustifiedAsGiven(fold: char -> char, e: Entry, now: nat)
    requires e.Commit? && !e.op.Execute? && EntryOk(fold, e, now)
    ensures DecidedAsGiven(fold, e)
  {
    var r := e.saw.rec;
    ContainsIsListed(fold, r.approvers, e.op.user);
    if e.kind == Decision && e.op.Approve? {
      var at: nat :| at <= now && e.rec == ApprovedCopy(r, e.op.user, at);
      assert e.rec == r.(status := Approved, approvedBy := e.op.user, approvedAt := Some(at));
    } else if e.kind == Decision {
      var at: nat :| at <= now && e.rec == DeniedCopy(r, e.op.user, at, e.op.reason);
      assert e.rec == r.(status := Denied, deniedBy := e.op.user, deniedAt := Some(at), denialReason := e.op.reason);
    }
  }

  ghost predicate DecisionLogged(log: seq<Entry>, op: Op) {
    exists h :: 0 <= h < |log| && log[h].Commit? && log[h].op == op && Terminal(log[h].rec.status)
  }

  /** What an answer tells of what its call saw, or of what is in the log. */
  ghost predicate AnswerTold(fold: char -> char, log: seq<Entry>, c: Client) {
    match c.pc
    case Done(Acknowledged) => !c.op.Execute? && DecisionLogged(log, c.op)
    case Done(Unauthorized) => !c.op.Execute? && c.saw.Found? && Open(c.saw.rec, c.tested) && !Listed(fold, c.saw.rec.approvers, c.op.user)
    case Done(NotPending(status)) => !c.op.Execute? && c.saw.Found? && !Open(c.saw.rec, c.tested) && ReportedAs(c.saw.rec, c.tested, status)
    case Done(NoRequest) => c.saw.Absent?
    case Done(Rejected) => c.op.Execute? && c.saw.Found? && c.saw.rec.status == Denied
    case Done(AwaitingApproval) => c.op.Execute?
    case Done(Started) => c.op.Execute?
    case Done(Proceed) => false
    case _ => true
  }

  lemma {:induction false} DecideTold(fold: char -> char, sh: Shared, c: Client)
    requires c.pc.Decide?
    ensures AnswerTold(fold, sh.log, ActDecide(fold, sh, c))
  {
    if c.saw.Found? && !c.op.Execute? {
      ContainsIsListed(fold, c.saw.rec.approvers, c.op.user);
    }
  }

  lemma {:induction false} WriteTold(fold: char -> char, sh: Shared, c: Client, fault: Fault)
    requires ClientOk(fold, sh, c) && c.pc.Write?
    ensures var (sh', c') := ActWrite(sh, c, c.pc.rec, c.pc.kind, c.pc.snap, fault); AnswerTold(fold, sh'.log, c')
  {
    var (sh', c') := ActWrite(sh, c, c.pc.rec, c.pc.kind, c.pc.snap, fault);
    if c'.pc == Done(Acknowledged) {
      assert sh'.log[|sh.log|].op == c.op;
    }
  }

  lemma {:induction false} ToldLater(fold: char -> char, log: seq<Entry>, log': seq<Entry>, c: Client)
    requires AnswerTold(fold, log, c) && log <= log'
    ensures AnswerTold(fold, log', c)
  {
    if c.pc == Done(Acknowledged) {
      var h :| 0 <= h < |log| && log[h].Commit? && log[h].op == c.op && Terminal(log[h].rec.status);
      assert log'[h] == log[h];
    }
  }

  lemma {:induction false} ActTellsTruth(fold: char -> char, sh: Shared, c: Client, fault: Fault)
    requires SharedOk(fold, sh) && ClientOk(fold, sh, c) && AnswerTold(fold, sh.log, c)
    ensures AnswerTold(fold, Act(fold, sh, c, fault).0.log, Act(fold, sh, c, fault).1)
  {
    match c.pc
    case Decide => DecideTold(fold, sh, c);
    case Write(_, _, _) => WriteTold(fold, sh, c, fault);
    case _ =>
  }

  ghost predicate AllTold(fold: char -> char, w: World) {
    forall i :: 0 <= i < |w.clients| ==> AnswerTold(fold, w.sh.log, w.clients[i])
  }

  lemma {:induction false} RunTellsTruth(fold: char -> char, w: World, labels: seq<Label>)
    requires Inv(fold, w) && AllTold(fold, w)
    ensures AllTold(fold, Run(fold, w, labels))
    decreases |labels|
  {
    if labels != [] {
      var l, w1 := labels[0], Next(fold, w, labels[0]);
      NextOk(fold, w, l);
      forall i | 0 <= i < |w1.clients| ensures AnswerTold(fold, w1.sh.log, w1.clients[i]) {
        if i < |w.clients| {
          if l.Step? && l.i == i {
            ActTellsTruth(fold, w.sh, w.clients[i], l.fault);
          } else {
            ToldLater(fold, w.sh.log, w1.sh.log, w.clients[i]);
          }
        }
      }
      RunTellsTruth(fold, w1, labels[1..]);
    }
  }

  /** Every answer is true, in any run: an acknowledged decision is in the log, given by a listed user on a
      request he found open; only a user who is not listed on the open request he found is turned away. */
  lemma {:induction false} AnswersAreTrue(fold: char -> char, w0: World, labels: seq<Label>, i: nat)
    requires Initial(w0) && i < |Run(fold, w0, labels).clients|
    ensures var w := Run(fold, w0, labels);
            && AnswerTold(fold, w.sh.log, w.clients[i])
            && (w.clients[i].pc == Done(Acknowledged) ==>
                  exists h :: 0 <= h < |w.sh.log| && DecisionOf(fold, w.sh.log[h], w.clients[i].op))
  {
    InitialOk(fold, w0);
    RunOk(fold, w0, labels);
    RunTellsTruth(fold, w0, labels);
    var w := Run(fold, w0, labels);
    if w.clients[i].pc == Done(Acknowledged) {
      var h :| 0 <= h < |w.sh.log| && w.sh.log[h].Commit? && w.sh.log[h].op == w.clients[i].op && Terminal(w.sh.log[h].rec.status);
      JustifiedAsGiven(fold, w.sh.log[h], w.sh.now);
      assert DecisionOf(fold, w.sh.log[h], w.clients[i].op);
    }
  }

  ghost predicate DecisionOf(fold: char -> char, e: Entry, op: Op) {
    e.Commit? && e.op == op && !op.Execute? && DecidedAsGiven(fold, e) && Listed(fold, e.saw.rec.approvers, op.user) && e.tested <= e.saw.rec.expiresAt
  }
}
