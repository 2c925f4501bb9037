/** The expiry write inside `Get`, whose result the code ignores. */
module ApprovalExpiry {
  import opened Common
  import opened ApprovalRecords
  import opened ApprovalProtocol
  import opened ProtocolInvariants
  import opened ApprovalRefinement
  import opened ApprovalFinality
  import opened ApprovalProgress

  ghost predicate SameUpToExpiry(a: Request, b: Request, now: nat) {
    a == b || (PastExpiry(a, now) && b == ExpiredCopy(a)) || (PastExpiry(b, now) && a == ExpiredCopy(b))
  }

  /** Two stores that differ only in whether an expiry has been written down. */
  ghost predicate SameStores(sh: Shared, sh': Shared) {
    && sh.now == sh'.now
    && Data(sh).Keys == Data(sh').Keys
    && forall k :: k in Data(sh) ==> SameUpToExpiry(Data(sh)[k], Data(sh')[k], sh.now)
  }

  /** The atomic map behind both: the record before its expiry was written. */
  function Unexpired(a: Request, b: Request): Request {
    if a.status == Pending then a else b
  }

  lemma {:induction false} SameStoresHaveOneMap(sh: Shared, sh': Shared) returns (st: Requests)
    requires SameStores(sh, sh')
    ensures Related(st, sh) && Related(st, sh')
  {
    st := map k | k in Data(sh) :: Unexpired(Data(sh)[k], Data(sh')[k]);
  }

  function Calls(trace: seq<Event>): seq<Call> {
    seq(|trace|, i requires 0 <= i < |trace| => trace[i].call)
  }

  function Outcomes(trace: seq<Event>): seq<Outcome> {
    seq(|trace|, i requires 0 <= i < |trace| => trace[i].outcome)
  }

  lemma {:induction false} SameCallsSameAnswers(fold: char -> char, st: Requests, t: seq<Event>, t': seq<Event>)
    requires AnswersAgree(fold, st, t) && AnswersAgree(fold, st, t')
    requires Calls(t) == Calls(t')
    ensures Outcomes(t) == Outcomes(t') && ServeAll(fold, st, t) == ServeAll(fold, st, t')
    decreases |t|
  {
    if t != [] {
      assert |t| == |Calls(t)| == |Calls(t')| == |t'|;
      assert t[0].call == Calls(t)[0] == Calls(t')[0] == t'[0].call;
      assert Calls(t[1..]) == Calls(t)[1..] == Calls(t')[1..] == Calls(t'[1..]);
      SameCallsSameAnswers(fold, Serve(fold, st, t[0].call).0, t[1..], t'[1..]);
      forall i | 0 <= i < |t| ensures Outcomes(t)[i] == Outcomes(t')[i] {
        if i > 0 {
          assert Outcomes(t)[i] == Outcomes(t[1..])[i - 1] && Outcomes(t')[i] == Outcomes(t'[1..])[i - 1];
        }
      }
    } else {
      assert |Calls(t')| == 0;
    }
  }

  lemma {:induction false} RelatedSameStores(st: Requests, sh: Shared, sh': Shared)
    requires Related(st, sh) && Related(st, sh') && sh.now == sh'.now
    ensures SameStores(sh, sh')
  {}

  /** The expiry write is unobservable. Start from two states that differ only in which expiries have
      been written down, and let the same calls take effect in the same order with the same clock
      readings, with any success or failure of the expiry writes on either side: every call gets the
      same answer, and the stores again differ at most in expiries written down. */
  lemma {:induction false} ExpiryWriteUnobservable(fold: char -> char, w: World, labels: seq<Label>, w': World, labels': seq<Label>)
    requires Inv(fold, w) && AllCurrent(w) && Inv(fold, w') && AllCurrent(w') && SameStores(w.sh, w'.sh)
    requires ExclusiveRun(fold, w, labels) && ExclusiveRun(fold, w', labels')
    requires Calls(Trace(fold, w, labels)) == Calls(Trace(fold, w', labels'))
    ensures Outcomes(Trace(fold, w, labels)) == Outcomes(Trace(fold, w', labels'))
    ensures Run(fold, w, labels).sh.now == Run(fold, w', labels').sh.now
            ==> SameStores(Run(fold, w, labels).sh, Run(fold, w', labels').sh)
  {
    var st := SameStoresHaveOneMap(w.sh, w'.sh);
    RunSimulates(fold, st, w, labels);
    RunSimulates(fold, st, w', labels');
    SameCallsSameAnswers(fold, st, Trace(fold, w, labels), Trace(fold, w', labels'));
    if Run(fold, w, labels).sh.now == Run(fold, w', labels').sh.now {
      RelatedSameStores(ServeAll(fold, st, Trace(fold, w, labels)), Run(fold, w, labels).sh, Run(fold, w', labels').sh);
    }
  }

  // ------------------------------------------------- what it costs others

  /** A commit raises the version; nothing else touches the object once it exists. */
  lemma {:induction false} StepBumps(fold: char -> char, w: World, l: Label)
    requires Inv(fold, w) && w.sh.cm.Some?
    ensures var sh, sh' := w.sh, Next(fold, w, l).sh;
            && sh'.cm.Some?
            && (if |sh'.log| > |sh.log| && sh'.log[|sh.log|].Commit? then sh'.cm.value.version == sh.cm.value.version + 1 else sh'.cm == sh.cm)
            && |sh.log| <= |sh'.log| <= |sh.log| + 1
  {
    if l.Step? && l.i < |w.clients| {
      ActSight(fold, w.sh, w.clients[l.i], l.fault);
    }
  }

  ghost predicate NoCommitSince(log: seq<Entry>, lo: nat) {
    forall h :: lo <= h < |log| ==> !log[h].Commit?
  }

  lemma {:induction false} VersionTells(log: seq<Entry>, log1: seq<Entry>, log': seq<Entry>, v: nat, v1: nat, v': nat)
    requires |log| <= |log1| <= |log| + 1 && log1 <= log'
    requires v1 == if |log1| > |log| && log1[|log|].Commit? then v + 1 else v
    requires v1 <= v' && (v' == v1 <==> NoCommitSince(log', |log1|))
    ensures v' == v <==> NoCommitSince(log', |log|)
  {
    assert |log1| > |log| ==> log'[|log|] == log1[|log|];
  }

  lemma {:induction false} CurrentUntilCommit(fold: char -> char, w: World, labels: seq<Label>, i: nat)
    requires Inv(fold, w) && w.sh.cm.Some? && i < |w.clients| && StepsBy(i, labels) == 0
    ensures var w' := Run(fold, w, labels);
            && i < |w'.clients| && w'.clients[i] == w.clients[i] && w'.sh.cm.Some?
            && (w'.sh.cm.value.version == w.sh.cm.value.version <==> NoCommitSince(w'.sh.log, |w.sh.log|))
    decreases |labels|
  {
    if labels != [] {
      var w1, w' := Next(fold, w, labels[0]), Run(fold, w, labels);
      NextOk(fold, w, labels[0]);
      StepBumps(fold, w, labels[0]);
      CurrentUntilCommit(fold, w1, labels[1..], i);
      RunOk(fold, w1, labels[1..]);
      VersionTells(w.sh.log, w1.sh.log, w'.sh.log, w.sh.cm.value.version, w1.sh.cm.value.version, w'.sh.cm.value.version);
    }
  }

  /** When a write loses its version check, exactly: client `i` has re-read the object in `w`; whatever
      others do before its write, the write, if no fault meets it, fails if and only if anything at all
      was committed meanwhile, an expiry of another key included. */
  lemma {:induction false} WriteFailsExactly(fold: char -> char, w: World, labels: seq<Label>, i: nat)
    requires Inv(fold, w) && i < |w.clients| && StepsBy(i, labels) == 0
    requires w.clients[i].pc.Write? && w.sh.cm == Some(w.clients[i].pc.snap)
    ensures var w' := Run(fold, w, labels);
            && i < |w'.clients|
            && Next(fold, w', Step(i, NoFault)).clients[i] == AfterWrite(w.clients[i], w.clients[i].pc.kind, NoCommitSince(w'.sh.log, |w.sh.log|))
  {
    CurrentUntilCommit(fold, w, labels, i);
  }
}
