/** Runs in which operations on the same key do not overlap refine an atomic map of requests;
    what that map forbids the store forbids. Operations on different keys overlap freely. */
module ApprovalRefinement {
  import opened Common
  import opened ApprovalRecords
  import opened ApprovalProtocol
  import opened ProtocolInvariants
  import opened ApprovalSafety

  // ---------------------------------------------- the atomic specification

  /** One operation on the atomic map: the clock readings of its expiry test and of its stamp, and,
      for an execution, whether its read failed (`blind`), since `Check` answers a failed read as it
      answers a missing request. */
  datatype Call = Call(op: Op, blind: bool, tested: nat, at: nat)

  type Requests = map<string, Request>

  function Held(st: Requests, call: Call): Option<Request> {
    if call.blind || KeyOf(call.op) !in st then None else Some(View(st[KeyOf(call.op)], call.tested))
  }

  function Serve(fold: char -> char, st: Requests, call: Call): (Requests, Outcome) {
    var k, held := KeyOf(call.op), Held(st, call);
    match call.op
    case Execute(plan) =>
      if held.Some? && held.value.status == Approved then (st, Proceed)
      else if held.Some? && held.value.status == Denied then (st, Rejected)
      else (st[k := NewRequest(plan, call.at)], AwaitingApproval)
    case Approve(_, _, user) =>
      if held.None? then (st, NoRequest)
      else if held.value.status != Pending then (st, NotPending(held.value.status))
      else if !Contains(fold, held.value.approvers, user) then (st, Unauthorized)
      else (st[k := ApprovedCopy(held.value, user, call.at)], Acknowledged)
    case Deny(_, _, user, reason) =>
      if held.None? then (st, NoRequest)
      else if held.value.status != Pending then (st, NotPending(held.value.status))
      else if !Contains(fold, held.value.approvers, user) then (st, Unauthorized)
      else (st[k := DeniedCopy(held.value, user, call.at, reason)], Acknowledged)
  }

  datatype Event = Event(client: nat, call: Call, outcome: Outcome)

  function ServeAll(fold: char -> char, st: Requests, trace: seq<Event>): Requests
    decreases |trace|
  {
    if trace == [] then st else ServeAll(fold, Serve(fold, st, trace[0].call).0, trace[1..])
  }

  /** Every answer in the trace is the atomic map's answer. */
  ghost predicate AnswersAgree(fold: char -> char, st: Requests, trace: seq<Event>)
    decreases |trace|
  {
    trace == [] || (
      && Serve(fold, st, trace[0].call).1 == trace[0].outcome
      && AnswersAgree(fold, Serve(fold, st, trace[0].call).0, trace[1..]))
  }

  // --------------------------------------------------- what a run reports

  function CallOf(c: Client, at: nat): Call {
    Call(c.op, c.saw.Unread?, c.tested, at)
  }

  /** The stamp a decision or a creation put into the record it stores. */
  function StampOf(op: Op, rec: Request): nat {
    var at := match op
              case Execute(_) => rec.createdAt
              case Approve(_, _, _) => if rec.approvedAt.Some? then rec.approvedAt.value else 0
              case Deny(_, _, _, _) => if rec.deniedAt.Some? then rec.deniedAt.value else 0;
    if at < 0 then 0 else at
  }

  /** Where an operation takes effect: at its commit, or, if it stores nothing, where it decides.
      An operation that fails, or loses its version check, takes no effect. */
  function EventOf(fold: char -> char, sh: Shared, i: nat, c: Client, fault: Fault): Option<Event> {
    match c.pc
    case Decide =>
      (match ActDecide(fold, sh, c).pc
       case Done(o) => if o == Failed then None else Some(Event(i, CallOf(c, sh.now), o))
       case CreateJob => Some(Event(i, CallOf(c, sh.now), Proceed))
       case _ => None)
    case Write(rec, kind, snap) =>
      if kind == Expiry || !Commits(sh, snap, fault) then None
      else Some(Event(i, CallOf(c, StampOf(c.op, rec)), if kind == Decision then Acknowledged else AwaitingApproval))
    case _ => None
  }

  function EventAt(fold: char -> char, w: World, l: Label): seq<Event> {
    if l.Step? && l.i < |w.clients| then
      match EventOf(fold, w.sh, l.i, w.clients[l.i], l.fault)
      case Some(e) => [e]
      case None => []
    else []
  }

  function Trace(fold: char -> char, w: World, labels: seq<Label>): seq<Event>
    decreases |labels|
  {
    if labels == [] then [] else EventAt(fold, w, labels[0]) + Trace(fold, Next(fold, w, labels[0]), labels[1..])
  }

  // -------------------------------------------------- no overlap on a key

  /** Inside the store: after its first read, before its last write. */
  predicate Active(c: Client) {
    !c.pc.Start? && !c.pc.CreateJob? && !c.pc.Done?
  }

  ghost predicate Exclusive(w: World) {
    forall i, j :: 0 <= i < j < |w.clients| && Active(w.clients[i]) && Active(w.clients[j])
                   ==> KeyOf(w.clients[i].op) != KeyOf(w.clients[j].op)
  }

  ghost predicate ExclusiveRun(fold: char -> char, w: World, labels: seq<Label>)
    decreases |labels|
  {
    Exclusive(w) && (labels == [] || ExclusiveRun(fold, Next(fold, w, labels[0]), labels[1..]))
  }

  /** Past the expiry test of `Get`, and past the write that may follow it. */
  predicate PastGet(c: Client) {
    || c.pc.Decide? || c.pc.NewObject?
    || ((c.pc.ReRead? || c.pc.Write?) && c.pc.kind != Expiry)
  }

  /** What an active client saw is what the store still holds, up to the expiry it wrote itself. */
  ghost predicate Current(sh: Shared, c: Client) {
    var k := KeyOf(c.op);
    match c.saw
    case Unread => true
    case Absent => k !in Data(sh)
    case Found(rec) =>
      && k in Data(sh)
      && (|| Data(sh)[k] == rec
          || (PastGet(c) && PastExpiry(rec, c.tested) && Data(sh)[k] == ExpiredCopy(rec)))
  }

  ghost predicate AllCurrent(w: World) {
    forall i :: 0 <= i < |w.clients| && Active(w.clients[i]) ==> Current(w.sh, w.clients[i])
  }

  // ------------------------------------------------ the refinement relation

  /** The store may already have written down an expiry that the atomic map only sees when asked. */
  ghost predicate SameView(a: Request, d: Request, now: nat) {
    d == a || (PastExpiry(a, now) && d == ExpiredCopy(a))
  }

  ghost predicate Related(st: Requests, sh: Shared) {
    && st.Keys == Data(sh).Keys
    && forall k :: k in st ==> SameView(st[k], Data(sh)[k], sh.now)
  }

  ghost predicate Sim(fold: char -> char, st: Requests, w: World) {
    Inv(fold, w) && AllCurrent(w) && Related(st, w.sh)
  }

  lemma {:induction false} RelatedUpdate(st: Requests, sh: Shared, sh': Shared, k: string, rec: Request)
    requires Related(st, sh) && Data(sh') == Data(sh)[k := rec] && sh'.now == sh.now
    ensures Related(st[k := rec], sh')
  {}

  /** Writing an expiry down is invisible. */
  lemma {:induction false} RelatedExpiry(st: Requests, sh: Shared, sh': Shared, k: string)
    requires Related(st, sh) && k in Data(sh) && PastExpiry(Data(sh)[k], sh.now)
    requires Data(sh') == Data(sh)[k := ExpiredCopy(Data(sh)[k])] && sh'.now == sh.now
    ensures Related(st, sh')
  {}

  /** What the atomic map holds for a call is what its client saw. */
  lemma {:induction false} HeldIsSeen(fold: char -> char, st: Requests, sh: Shared, c: Client, at: nat)
    requires ClientOk(fold, sh, c) && Related(st, sh)
    requires PastGet(c) && Current(sh, c)
    ensures Held(st, CallOf(c, at)) == if c.saw.Found? then Some(View(c.saw.rec, c.tested)) else None
  {}

  lemma {:induction false} DecideStaysCurrent(fold: char -> char, sh: Shared, c: Client)
    requires c.pc.Decide? && Current(sh, c)
    ensures Active(ActDecide(fold, sh, c)) ==> Current(sh, ActDecide(fold, sh, c))
  {}

  /** An operation that ends, or passes the gate, where it decides: the atomic map answers the same and
      is not changed. */
  lemma {:induction false} DecideServes(fold: char -> char, st: Requests, sh: Shared, i: nat, c: Client, fault: Fault)
    requires ClientOk(fold, sh, c) && Related(st, sh) && c.pc.Decide? && Current(sh, c)
    requires EventOf(fold, sh, i, c, fault).Some?
    ensures var e := EventOf(fold, sh, i, c, fault).value; Serve(fold, st, e.call) == (st, e.outcome)
  {
    HeldIsSeen(fold, st, sh, c, sh.now);
  }

  lemma {:induction false} DecideSimulates(fold: char -> char, st: Requests, sh: Shared, i: nat, c: Client, fault: Fault)
    requires SharedOk(fold, sh) && ClientOk(fold, sh, c) && Related(st, sh)
    requires c.pc.Decide? && Current(sh, c)
    ensures var c' := ActDecide(fold, sh, c);
            && (Active(c') ==> Current(sh, c'))
            && (match EventOf(fold, sh, i, c, fault)
                case None => true
                case Some(e) => Serve(fold, st, e.call) == (st, e.outcome))
  {
    DecideStaysCurrent(fold, sh, c);
    if EventOf(fold, sh, i, c, fault).Some? {
      DecideServes(fold, st, sh, i, c, fault);
    }
  }

  /** A final write that commits is the atomic operation. */
  lemma {:induction false} ServeIsWrite(fold: char -> char, st: Requests, sh: Shared, c: Client)
    requires ClientOk(fold, sh, c) && Related(st, sh)
    requires c.pc.Write? && c.pc.kind != Expiry && Current(sh, c)
    ensures Serve(fold, st, CallOf(c, StampOf(c.op, c.pc.rec)))
            == (st[KeyOf(c.op) := c.pc.rec], if c.pc.kind == Decision then Acknowledged else AwaitingApproval)
  {
    HeldIsSeen(fold, st, sh, c, StampOf(c.op, c.pc.rec));
  }

  lemma {:induction false} ExpiryWriteSimulates(fold: char -> char, st: Requests, sh: Shared, c: Client, fault: Fault)
    requires SharedOk(fold, sh) && ClientOk(fold, sh, c) && Related(st, sh)
    requires c.pc.Write? && c.pc.kind == Expiry && Current(sh, c) && Commits(sh, c.pc.snap, fault)
    ensures var sh' := Store(sh, c.pc.snap, EntryOf(c, c.pc.rec, Expiry));
            Related(st, sh') && Current(sh', c.(pc := Decide))
  {
    CommitOk(fold, sh, c, fault);
    RelatedExpiry(st, sh, Store(sh, c.pc.snap, EntryOf(c, c.pc.rec, Expiry)), KeyOf(c.op));
  }

  lemma {:induction false} FinalWriteSimulates(fold: char -> char, st: Requests, sh: Shared, c: Client, fault: Fault)
    requires SharedOk(fold, sh) && ClientOk(fold, sh, c) && Related(st, sh)
    requires c.pc.Write? && c.pc.kind != Expiry && Current(sh, c) && Commits(sh, c.pc.snap, fault)
    ensures var sh' := Store(sh, c.pc.snap, EntryOf(c, c.pc.rec, c.pc.kind));
            var (st', o) := Serve(fold, st, CallOf(c, StampOf(c.op, c.pc.rec)));
            Related(st', sh') && o == if c.pc.kind == Decision then Acknowledged else AwaitingApproval
  {
    CommitOk(fold, sh, c, fault);
    ServeIsWrite(fold, st, sh, c);
    RelatedUpdate(st, sh, Store(sh, c.pc.snap, EntryOf(c, c.pc.rec, c.pc.kind)), KeyOf(c.op), c.pc.rec);
  }

  lemma {:induction false} WriteSimulates(fold: char -> char, st: Requests, sh: Shared, i: nat, c: Client, fault: Fault)
    requires SharedOk(fold, sh) && ClientOk(fold, sh, c) && Related(st, sh)
    requires c.pc.Write? && Current(sh, c)
    ensures Simulated(fold, st, sh, i, c, fault)
  {
    if Commits(sh, c.pc.snap, fault) {
      if c.pc.kind == Expiry {
        ExpiryWriteSimulates(fold, st, sh, c, fault);
      } else {
        FinalWriteSimulates(fold, st, sh, c, fault);
      }
    }
  }

  lemma {:induction false} RelatedSame(st: Requests, sh: Shared, sh': Shared)
    requires Related(st, sh) && Data(sh') == Data(sh) && sh'.now == sh.now
    ensures Related(st, sh')
  {}

  lemma {:induction false} CurrentSame(sh: Shared, sh': Shared, c: Client)
    requires Data(sh') == Data(sh) && Current(sh, c)
    ensures Current(sh', c)
  {}

  lemma {:induction false} QuietStepStaysCurrent(fold: char -> char, sh: Shared, c: Client, fault: Fault)
    requires ClientOk(fold, sh, c)
    requires !c.pc.Decide? && !c.pc.Write? && !c.pc.NewObject?
    requires Active(c) ==> Current(sh, c)
    ensures Data(Act(fold, sh, c, fault).0) == Data(sh) && Act(fold, sh, c, fault).0.now == sh.now
    ensures Active(Act(fold, sh, c, fault).1) ==> Current(sh, Act(fold, sh, c, fault).1)
  {}

  lemma {:induction false} NewObjectStaysCurrent(fold: char -> char, sh: Shared, c: Client, fault: Fault)
    requires ClientOk(fold, sh, c) && c.pc.NewObject? && Current(sh, c)
    ensures Data(Act(fold, sh, c, fault).0) == Data(sh) && Act(fold, sh, c, fault).0.now == sh.now
    ensures Active(Act(fold, sh, c, fault).1) ==> Current(sh, Act(fold, sh, c, fault).1)
  {}

  /** The other steps of a client leave the stored records alone. */
  lemma {:induction false} QuietStepSimulates(fold: char -> char, st: Requests, sh: Shared, i: nat, c: Client, fault: Fault)
    requires ClientOk(fold, sh, c) && Related(st, sh)
    requires !c.pc.Decide? && !c.pc.Write?
    requires Active(c) ==> Current(sh, c)
    ensures Simulated(fold, st, sh, i, c, fault)
  {
    var (sh', c') := Act(fold, sh, c, fault);
    if c.pc.NewObject? {
      NewObjectStaysCurrent(fold, sh, c, fault);
    } else {
      QuietStepStaysCurrent(fold, sh, c, fault);
    }
    RelatedSame(st, sh, sh');
    if Active(c') {
      CurrentSame(sh, sh', c');
    }
  }

  /** The acting client: its view stays current, and its step is the atomic map's step. */
  ghost predicate Simulated(fold: char -> char, st: Requests, sh: Shared, i: nat, c: Client, fault: Fault) {
    var (sh', c') := Act(fold, sh, c, fault);
    && (Active(c') ==> Current(sh', c'))
    && (match EventOf(fold, sh, i, c, fault)
        case None => Related(st, sh')
        case Some(e) => Related(Serve(fold, st, e.call).0, sh') && Serve(fold, st, e.call).1 == e.outcome)
  }

  lemma {:induction false} ActSimulates(fold: char -> char, st: Requests, sh: Shared, i: nat, c: Client, fault: Fault)
    requires SharedOk(fold, sh) && ClientOk(fold, sh, c) && Related(st, sh)
    requires Active(c) ==> Current(sh, c)
    ensures Simulated(fold, st, sh, i, c, fault)
  {
    match c.pc
    case Decide => DecideSimulates(fold, st, sh, i, c, fault);
    case Write(_, _, _) => WriteSimulates(fold, st, sh, i, c, fault);
    case _ => QuietStepSimulates(fold, st, sh, i, c, fault);
  }

  // ------------------------------------------------------- whole runs

  lemma {:induction false} RelatedLater(st: Requests, sh: Shared, sh': Shared)
    requires Related(st, sh) && Data(sh') == Data(sh) && sh.now <= sh'.now
    ensures Related(st, sh')
  {}

  lemma {:induction false} OtherStaysCurrent(sh: Shared, sh': Shared, key: string, rec: Request, c: Client)
    requires Current(sh, c) && Data(sh') == Data(sh)[key := rec] && KeyOf(c.op) != key
    ensures Current(sh', c)
  {}

  /** The clients that do not move keep their view: a commit at their key would be an overlap. */
  lemma {:induction false} OthersStayCurrent(fold: char -> char, w: World, l: Label, j: nat)
    requires Inv(fold, w) && AllCurrent(w) && Exclusive(w)
    requires j < |w.clients| && Active(w.clients[j]) && !(l.Step? && l.i == j)
    ensures Current(Next(fold, w, l).sh, w.clients[j])
  {
    var w' := Next(fold, w, l);
    StepChangesOneKey(fold, w, l);
    if Data(w'.sh) == Data(w.sh) {
      CurrentSame(w.sh, w'.sh, w.clients[j]);
    } else {
      var e := w'.sh.log[|w.sh.log|];
      assert Active(w.clients[l.i]);
      assert KeyOf(w.clients[j].op) != e.key;
      OtherStaysCurrent(w.sh, w'.sh, e.key, e.rec, w.clients[j]);
    }
  }

  lemma {:induction false} StepStaysCurrent(fold: char -> char, st: Requests, w: World, l: Label)
    requires Sim(fold, st, w) && Exclusive(w)
    ensures AllCurrent(Next(fold, w, l))
  {
    var w' := Next(fold, w, l);
    forall j | 0 <= j < |w'.clients| && Active(w'.clients[j]) ensures Current(w'.sh, w'.clients[j]) {
      if l.Step? && l.i == j {
        ActSimulates(fold, st, w.sh, j, w.clients[j], l.fault);
      } else {
        OthersStayCurrent(fold, w, l, j);
      }
    }
  }

  /** How the atomic map follows one step of the system. */
  ghost predicate Follows(fold: char -> char, st: Requests, ev: seq<Event>, sh': Shared) {
    Related(ServeAll(fold, st, ev), sh') && AnswersAgree(fold, st, ev)
  }

  lemma {:induction false} OneEvent(fold: char -> char, st: Requests, e: Event)
    ensures ServeAll(fold, st, [e]) == Serve(fold, st, e.call).0
    ensures AnswersAgree(fold, st, [e]) == (Serve(fold, st, e.call).1 == e.outcome)
  {
    assert [e][1..] == [];
  }

  lemma {:induction false} StepFollows(fold: char -> char, st: Requests, w: World, l: Label)
    requires Sim(fold, st, w)
    ensures Follows(fold, st, EventAt(fold, w, l), Next(fold, w, l).sh)
  {
    if l.Step? && l.i < |w.clients| {
      var c := w.clients[l.i];
      assert Active(c) ==> Current(w.sh, c);
      ActSimulates(fold, st, w.sh, l.i, c, l.fault);
      match EventOf(fold, w.sh, l.i, c, l.fault) {
        case Some(e) => OneEvent(fold, st, e);
        case None =>
      }
    } else {
      RelatedLater(st, w.sh, Next(fold, w, l).sh);
    }
  }

  lemma {:induction false} StepSimulates(fold: char -> char, st: Requests, w: World, l: Label)
    requires Sim(fold, st, w) && Exclusive(w)
    ensures var ev := EventAt(fold, w, l);
            && Sim(fold, ServeAll(fold, st, ev), Next(fold, w, l))
            && AnswersAgree(fold, st, ev)
  {
    NextOk(fold, w, l);
    StepStaysCurrent(fold, st, w, l);
    StepFollows(fold, st, w, l);
  }

  lemma {:induction false} ServeAllConcat(fold: char -> char, st: Requests, t: seq<Event>, t': seq<Event>)
    requires AnswersAgree(fold, st, t) && AnswersAgree(fold, ServeAll(fold, st, t), t')
    ensures ServeAll(fold, st, t + t') == ServeAll(fold, ServeAll(fold, st, t), t')
    ensures AnswersAgree(fold, st, t + t')
    decreases |t|
  {
    if t == [] {
      assert t + t' == t';
    } else {
      assert (t + t')[0] == t[0] && (t + t')[1..] == t[1..] + t';
      ServeAllConcat(fold, Serve(fold, st, t[0].call).0, t[1..], t');
    }
  }

  lemma {:induction false} RunSimulates(fold: char -> char, st: Requests, w: World, labels: seq<Label>)
    requires Sim(fold, st, w) && ExclusiveRun(fold, w, labels)
    ensures var trace := Trace(fold, w, labels);
            && Sim(fold, ServeAll(fold, st, trace), Run(fold, w, labels))
            && AnswersAgree(fold, st, trace)
    decreases |labels|
  {
    if labels != [] {
      var ev, w' := EventAt(fold, w, labels[0]), Next(fold, w, labels[0]);
      StepSimulates(fold, st, w, labels[0]);
      RunSimulates(fold, ServeAll(fold, st, ev), w', labels[1..]);
      ServeAllConcat(fold, st, ev, Trace(fold, w', labels[1..]));
    }
  }

  // ------------------------------------- the trace tells what callers heard

  function Reported(o: Outcome): Outcome {
    if o == Started then Proceed else o
  }

  /** The answer a client has when it leaves the store, if it has one. */
  function AnswerOf(c: Client): Option<Outcome> {
    match c.pc
    case CreateJob => Some(Proceed)
    case Done(o) => if o == Failed || o == Crashed then None else Some(Reported(o))
    case _ => None
  }

  ghost predicate Answered(c: Client, i: nat, trace: seq<Event>) {
    Gated(c.op) && AnswerOf(c).Some? ==>
      exists n :: 0 <= n < |trace| && trace[n].client == i && trace[n].call.op == c.op && trace[n].outcome == AnswerOf(c).value
  }

  ghost predicate TraceOk(w: World, trace: seq<Event>) {
    && (forall i :: 0 <= i < |w.clients| ==> Answered(w.clients[i], i, trace))
    && (forall n :: 0 <= n < |trace| ==>
          && trace[n].client < |w.clients|
          && trace[n].call.op == w.clients[trace[n].client].op
          && !Active(w.clients[trace[n].client]) && !w.clients[trace[n].client].pc.Start?)
    && (forall m, n :: 0 <= m < n < |trace| ==> trace[m].client != trace[n].client)
  }

  lemma {:induction false} AnsweredLater(c: Client, i: nat, trace: seq<Event>, ev: seq<Event>)
    requires Answered(c, i, trace)
    ensures Answered(c, i, trace + ev)
  {
    var t := trace + ev;
    assert forall n :: 0 <= n < |trace| ==> t[n] == trace[n];
  }

  lemma {:induction false} EventIsAnswer(fold: char -> char, sh: Shared, i: nat, c: Client, fault: Fault)
    requires ClientOk(fold, sh, c) && Gated(c.op)
    ensures var c' := Act(fold, sh, c, fault).1;
            match EventOf(fold, sh, i, c, fault)
            case Some(e) =>
              && e.client == i && e.call.op == c.op
              && Active(c) && !Active(c') && !c'.pc.Start?
              && (AnswerOf(c') == None || AnswerOf(c') == Some(e.outcome))
            case None => AnswerOf(c') == None || AnswerOf(c') == AnswerOf(c)
  {}

  lemma {:induction false} ActAnswers(fold: char -> char, sh: Shared, i: nat, c: Client, fault: Fault, trace: seq<Event>)
    requires ClientOk(fold, sh, c) && Answered(c, i, trace)
    ensures var c' := Act(fold, sh, c, fault).1;
            match EventOf(fold, sh, i, c, fault)
            case Some(e) => Answered(c', i, trace + [e])
            case None => Answered(c', i, trace)
  {
    ActKeepsOp(fold, sh, c, fault);
    if Gated(c.op) {
      EventIsAnswer(fold, sh, i, c, fault);
      match EventOf(fold, sh, i, c, fault) {
        case Some(e) => assert (trace + [e])[|trace|] == e;
        case None =>
      }
    }
  }

  lemma {:induction false} EventLeaves(fold: char -> char, sh: Shared, i: nat, c: Client, fault: Fault)
    requires ClientOk(fold, sh, c)
    ensures var c' := Act(fold, sh, c, fault).1;
            match EventOf(fold, sh, i, c, fault)
            case Some(e) => e.client == i && e.call.op == c.op && Active(c) && !Active(c') && !c'.pc.Start?
            case None => !Active(c) && !c.pc.Start? ==> !Active(c') && !c'.pc.Start?
  {}

  lemma {:induction false} StepReports(fold: char -> char, w: World, l: Label, trace: seq<Event>)
    requires Inv(fold, w) && TraceOk(w, trace)
    ensures TraceOk(Next(fold, w, l), trace + EventAt(fold, w, l))
  {
    var w', ev := Next(fold, w, l), EventAt(fold, w, l);
    if l.Step? && l.i < |w.clients| {
      ActAnswers(fold, w.sh, l.i, w.clients[l.i], l.fault, trace);
      EventLeaves(fold, w.sh, l.i, w.clients[l.i], l.fault);
      ActKeepsOp(fold, w.sh, w.clients[l.i], l.fault);
    }
    assert ev == [] ==> trace + ev == trace;
    forall j | 0 <= j < |w'.clients| ensures Answered(w'.clients[j], j, trace + ev) {
      if j < |w.clients| && !(l.Step? && l.i == j) {
        AnsweredLater(w.clients[j], j, trace, ev);
      }
    }
  }

  lemma {:induction false} ConcatAssociates(a: seq<Event>, b: seq<Event>, c: seq<Event>)
    ensures a + (b + c) == a + b + c
  {}

  lemma {:induction false} RunReports(fold: char -> char, w: World, labels: seq<Label>, past: seq<Event>)
    requires Inv(fold, w) && TraceOk(w, past)
    ensures TraceOk(Run(fold, w, labels), past + Trace(fold, w, labels))
    decreases |labels|
  {
    if labels == [] {
      assert past + Trace(fold, w, labels) == past;
    } else {
      var ev, w' := EventAt(fold, w, labels[0]), Next(fold, w, labels[0]);
      var rest := Trace(fold, w', labels[1..]);
      StepReports(fold, w, labels[0], past);
      NextOk(fold, w, labels[0]);
      RunReports(fold, w', labels[1..], past + ev);
      ConcatAssociates(past, ev, rest);
    }
  }

  /** Refinement. Without overlap on a key, every run of the store is a run of the atomic map: the
      operations of the trace, applied one after another to the empty map, give the answers the
      callers heard and leave the records the store holds, up to an expiry already written down.
      Each caller appears once; a caller that does not appear heard an error and changed nothing. */
  lemma {:induction false} Refinement(fold: char -> char, w0: World, labels: seq<Label>)
    requires Initial(w0) && ExclusiveRun(fold, w0, labels)
    ensures var w, trace := Run(fold, w0, labels), Trace(fold, w0, labels);
            && Related(ServeAll(fold, map[], trace), w.sh)
            && AnswersAgree(fold, map[], trace)
            && TraceOk(w, trace)
  {
    InitialSim(fold, w0);
    RunSimulates(fold, map[], w0, labels);
    EmptyTraceOk(w0);
    RunReports(fold, w0, labels, []);
    assert [] + Trace(fold, w0, labels) == Trace(fold, w0, labels);
  }

  lemma {:induction false} InitialSim(fold: char -> char, w0: World)
    requires Initial(w0)
    ensures Sim(fold, map[], w0)
  {
    InitialOk(fold, w0);
  }

  lemma {:induction false} EmptyTraceOk(w0: World)
    requires w0.clients == []
    ensures TraceOk(w0, [])
  {}

  // -------------------------------------------------------- real time

  /** The clock readings of a client were taken since `t0`, in order. */
  ghost predicate Timely(c: Client, t0: nat, now: nat) {
    && (Active(c) && !c.pc.Test? ==> t0 <= c.tested <= now)
    && (PastGet(c) && !c.pc.Decide? ==> c.tested <= StampOf(c.op, c.pc.rec) <= now)
  }

  lemma {:induction false} DecideTimely(fold: char -> char, sh: Shared, c: Client, t0: nat)
    requires Timely(c, t0, sh.now) && c.pc.Decide?
    ensures Timely(ActDecide(fold, sh, c), t0, sh.now)
  {}

  lemma {:induction false} StartTimely(sh: Shared, c: Client, fault: Fault, t0: nat)
    requires t0 <= sh.now && c.pc.Start?
    ensures Timely(ActStart(sh, c, fault), t0, sh.now)
  {}

  lemma {:induction false} MoveTimely(c: Client, c': Client, t0: nat, now: nat)
    requires Timely(c, t0, now) && Active(c) && !c.pc.Test?
    requires c'.op == c.op && c'.tested == c.tested
    requires PastGet(c') && !c'.pc.Decide? ==> PastGet(c) && !c.pc.Decide? && c'.pc.rec == c.pc.rec
    ensures Timely(c', t0, now)
  {}

  lemma {:induction false} OthersTimely(fold: char -> char, sh: Shared, c: Client, fault: Fault, t0: nat)
    requires Timely(c, t0, sh.now) && t0 <= sh.now && !c.pc.Decide? && ClientOk(fold, sh, c)
    ensures Timely(Act(fold, sh, c, fault).1, t0, sh.now)
  {
    match c.pc
    case Start => StartTimely(sh, c, fault, t0);
    case ReRead(rec, kind) => MoveTimely(c, ActReRead(sh, c, rec, kind, fault), t0, sh.now);
    case NewObject(rec) => MoveTimely(c, ActNewObject(sh, c, rec, fault).1, t0, sh.now);
    case Write(rec, kind, snap) => MoveTimely(c, ActWrite(sh, c, rec, kind, snap, fault).1, t0, sh.now);
    case _ =>
  }

  lemma {:induction false} ActTimely(fold: char -> char, sh: Shared, i: nat, c: Client, fault: Fault, t0: nat)
    requires Timely(c, t0, sh.now) && t0 <= sh.now && ClientOk(fold, sh, c)
    ensures Timely(Act(fold, sh, c, fault).1, t0, sh.now)
    ensures match EventOf(fold, sh, i, c, fault)
            case Some(e) => t0 <= e.call.tested <= e.call.at <= sh.now
            case None => true
  {
    if c.pc.Decide? {
      DecideTimely(fold, sh, c, t0);
    } else {
      OthersTimely(fold, sh, c, fault, t0);
    }
  }

  /** The clock readings at which an operation takes effect are taken during the run, the test
      before the stamp. */
  lemma {:induction false} TraceTimely(fold: char -> char, w: World, labels: seq<Label>, t0: nat)
    requires Inv(fold, w) && t0 <= w.sh.now
    requires forall i :: 0 <= i < |w.clients| ==> Timely(w.clients[i], t0, w.sh.now)
    ensures forall n :: 0 <= n < |Trace(fold, w, labels)| ==>
              var call := Trace(fold, w, labels)[n].call; t0 <= call.tested <= call.at <= Run(fold, w, labels).sh.now
    decreases |labels|
  {
    if labels != [] {
      var l, w' := labels[0], Next(fold, w, labels[0]);
      NextOk(fold, w, l);
      if l.Step? && l.i < |w.clients| {
        ActTimely(fold, w.sh, l.i, w.clients[l.i], l.fault, t0);
      }
      TraceTimely(fold, w', labels[1..], t0);
      RunOk(fold, w', labels[1..]);
    }
  }
}
