/** What every step of the approval protocol keeps, whatever the interleaving. */
module ProtocolInvariants {
  import opened Common
  import opened ApprovalRecords
  import opened ApprovalProtocol

  // ------------------------------------------------- what a write may store

  /** The record `rec` that a client may store, given its call, what its `Get` saw and the clock
      reading of its expiry test. */
  ghost predicate Justified(fold: char -> char, op: Op, saw: Answer, tested: nat, rec: Request, kind: Kind, now: nat) {
    match kind
    case Expiry => saw.Found? && PastExpiry(saw.rec, tested) && rec == ExpiredCopy(saw.rec)
    case Decision =>
      && saw.Found? && saw.rec.status == Pending && tested <= saw.rec.expiresAt
      && !op.Execute? && Contains(fold, saw.rec.approvers, op.user)
      && (op.Approve? ==> exists at: nat :: at <= now && rec == ApprovedCopy(saw.rec, op.user, at))
      && (op.Deny? ==> exists at: nat :: at <= now && rec == DeniedCopy(saw.rec, op.user, at, op.reason))
    case Creation =>
      && op.Execute? && op.plan.gated
      && (saw.Found? ==> !Terminal(saw.rec.status))
      && exists at: nat :: at <= now && rec == NewRequest(op.plan, at)
  }

  ghost predicate EntryOk(fold: char -> char, e: Entry, now: nat) {
    e.Commit? ==>
      && e.key == KeyOf(e.op) == KeyOfRecord(e.rec)
      && e.tested <= now
      && (e.saw.Found? ==> RecordOk(fold, e.saw.rec, now))
      && Justified(fold, e.op, e.saw, e.tested, e.rec, e.kind, now)
  }

  lemma {:induction false} JustifiedRecordOk(fold: char -> char, op: Op, saw: Answer, tested: nat, rec: Request, kind: Kind, now: nat)
    requires Justified(fold, op, saw, tested, rec, kind, now)
    requires saw.Found? ==> RecordOk(fold, saw.rec, now) && KeyOfRecord(saw.rec) == KeyOf(op)
    requires tested <= now
    ensures RecordOk(fold, rec, now) && KeyOfRecord(rec) == KeyOf(op)
  {}

  ghost predicate Committed(log: seq<Entry>, n: nat, key: string, rec: Request) {
    n <= |log| && exists h :: 0 <= h < n && log[h].Commit? && log[h].key == key && log[h].rec == rec
  }

  ghost predicate ApprovalLogged(log: seq<Entry>, n: nat, key: string) {
    n <= |log| && exists h :: 0 <= h < n && log[h].Commit? && log[h].key == key && log[h].rec.status == Approved
  }

  // ------------------------------------------------------- the invariant

  /** Every gated Job in the log comes after a commit of an Approved record at its key. */
  ghost predicate GateKept(log: seq<Entry>) {
    forall j :: 0 <= j < |log| && log[j].JobMade? && log[j].plan.gated
                ==> ApprovalLogged(log, j, Key(log[j].plan.executionID, log[j].plan.stepName))
  }

  ghost predicate LogOk(fold: char -> char, log: seq<Entry>, now: nat) {
    && (forall h :: 0 <= h < |log| ==> EntryOk(fold, log[h], now))
    && GateKept(log)
  }

  ghost predicate SharedOk(fold: char -> char, sh: Shared) {
    && Data(sh) == Replay(sh.log)
    && LogOk(fold, sh.log, sh.now)
  }

  /** The snapshot of a write in flight: older, or the very object the server holds. */
  ghost predicate SnapOk(sh: Shared, snap: ConfigMap) {
    && sh.cm.Some?
    && snap.version <= sh.cm.value.version
    && (snap.version == sh.cm.value.version ==> snap == sh.cm.value)
    && snap.data.Keys <= sh.cm.value.data.Keys
  }

  ghost predicate SawOk(fold: char -> char, sh: Shared, c: Client) {
    c.saw.Found? ==>
      && RecordOk(fold, c.saw.rec, sh.now)
      && (c.pc.Test? || RecordOk(fold, c.saw.rec, c.tested))
      && KeyOfRecord(c.saw.rec) == KeyOf(c.op)
      && KeyOf(c.op) in Data(sh)
      && Committed(sh.log, |sh.log|, KeyOf(c.op), c.saw.rec)
  }

  ghost predicate PcOk(fold: char -> char, sh: Shared, c: Client) {
    match c.pc
    case Start => true
    case Test => c.saw.Found?
    case Decide => true
    case ReRead(rec, kind) => Justified(fold, c.op, c.saw, c.tested, rec, kind, sh.now)
    case NewObject(rec) => Justified(fold, c.op, c.saw, c.tested, rec, Creation, sh.now)
    case Write(rec, kind, snap) => Justified(fold, c.op, c.saw, c.tested, rec, kind, sh.now) && SnapOk(sh, snap)
    case CreateJob => c.op.Execute? && (c.op.plan.gated ==> c.saw.Found? && c.saw.rec.status == Approved)
    case Done(o) => o != Crashed
  }

  predicate Gated(op: Op) {
    op.Execute? ==> op.plan.gated
  }

  ghost predicate ClientOk(fold: char -> char, sh: Shared, c: Client) {
    && c.tested <= sh.now
    && (c.pc.Start? || c.pc.CreateJob? || c.pc.Done? || Gated(c.op))
    && SawOk(fold, sh, c)
    && PcOk(fold, sh, c)
  }

  ghost predicate Inv(fold: char -> char, w: World) {
    && SharedOk(fold, w.sh)
    && forall i :: 0 <= i < |w.clients| ==> ClientOk(fold, w.sh, w.clients[i])
  }

  // -------------------------------------------------- time and growth

  /** How the shared state may change under anybody's steps. */
  ghost predicate Grows(sh: Shared, sh': Shared) {
    && sh.now <= sh'.now
    && sh.log <= sh'.log
    && Data(sh).Keys <= Data(sh').Keys
    && (sh.cm.Some? ==>
          && sh'.cm.Some?
          && sh.cm.value.version <= sh'.cm.value.version
          && (sh.cm.value.version == sh'.cm.value.version ==> sh.cm == sh'.cm))
  }

  lemma {:induction false} RecordOkLater(fold: char -> char, r: Request, now: nat, now': nat)
    requires RecordOk(fold, r, now) && now <= now'
    ensures RecordOk(fold, r, now')
  {}

  lemma {:induction false} JustifiedLater(fold: char -> char, op: Op, saw: Answer, tested: nat, rec: Request, kind: Kind, now: nat, now': nat)
    requires Justified(fold, op, saw, tested, rec, kind, now) && now <= now'
    ensures Justified(fold, op, saw, tested, rec, kind, now')
  {}

  lemma {:induction false} ApprovalLoggedLater(log: seq<Entry>, log': seq<Entry>, n: nat, key: string)
    requires ApprovalLogged(log, n, key) && log <= log'
    ensures ApprovalLogged(log', n, key)
  {
    var h :| 0 <= h < n && log[h].Commit? && log[h].key == key && log[h].rec.status == Approved;
    assert log'[h] == log[h];
  }

  lemma {:induction false} CommittedLater(log: seq<Entry>, log': seq<Entry>, key: string, rec: Request)
    requires Committed(log, |log|, key, rec) && log <= log'
    ensures Committed(log', |log'|, key, rec)
  {
    var h :| 0 <= h < |log| && log[h].Commit? && log[h].key == key && log[h].rec == rec;
    assert log'[h] == log[h];
  }

  lemma {:induction false} SnapOkLater(sh: Shared, sh': Shared, snap: ConfigMap)
    requires SnapOk(sh, snap) && Grows(sh, sh')
    ensures SnapOk(sh', snap)
  {}

  /** Steps of others never spoil what a client knows. */
  lemma {:induction false} ClientOkLater(fold: char -> char, sh: Shared, sh': Shared, c: Client)
    requires ClientOk(fold, sh, c) && Grows(sh, sh')
    ensures ClientOk(fold, sh', c)
  {
    if c.saw.Found? {
      RecordOkLater(fold, c.saw.rec, sh.now, sh'.now);
      CommittedLater(sh.log, sh'.log, KeyOf(c.op), c.saw.rec);
    }
    match c.pc {
      case ReRead(rec, kind) => JustifiedLater(fold, c.op, c.saw, c.tested, rec, kind, sh.now, sh'.now);
      case NewObject(rec) => JustifiedLater(fold, c.op, c.saw, c.tested, rec, Creation, sh.now, sh'.now);
      case Write(rec, kind, snap) =>
        JustifiedLater(fold, c.op, c.saw, c.tested, rec, kind, sh.now, sh'.now);
        SnapOkLater(sh, sh', snap);
      case _ =>
    }
  }

  // ------------------------------------------------------------- the log

  lemma {:induction false} ReplaySnoc(log: seq<Entry>, e: Entry)
    ensures Replay(log + [e]) == if e.Commit? then Replay(log)[e.key := e.rec] else Replay(log)
  {
    assert (log + [e])[..|log|] == log;
  }

  lemma {:induction false} ReplayIsCommitted(log: seq<Entry>, key: string)
    requires key in Replay(log)
    ensures Committed(log, |log|, key, Replay(log)[key])
  {
    var before, last := log[..|log| - 1], log[|log| - 1];
    if last.Commit? && last.key == key {
      assert log[|log| - 1].rec == Replay(log)[key];
    } else {
      ReplayIsCommitted(before, key);
      CommittedLater(before, log, key, Replay(log)[key]);
    }
  }

  lemma {:induction false} LogSnoc(fold: char -> char, log: seq<Entry>, e: Entry, now: nat)
    requires LogOk(fold, log, now) && EntryOk(fold, e, now)
    requires e.JobMade? && e.plan.gated ==> ApprovalLogged(log, |log|, Key(e.plan.executionID, e.plan.stepName))
    ensures LogOk(fold, log + [e], now)
  {
    var log' := log + [e];
    forall j | 0 <= j < |log'| && log'[j].JobMade? && log'[j].plan.gated
      ensures ApprovalLogged(log', j, Key(log'[j].plan.executionID, log'[j].plan.stepName))
    {
      ApprovalLoggedLater(log, log', j, Key(log'[j].plan.executionID, log'[j].plan.stepName));
    }
  }

  lemma {:induction false} LogOkLater(fold: char -> char, log: seq<Entry>, now: nat, now': nat)
    requires LogOk(fold, log, now) && now <= now'
    ensures LogOk(fold, log, now')
  {
    forall h | 0 <= h < |log| && log[h].Commit? ensures EntryOk(fold, log[h], now') {
      var e := log[h];
      JustifiedLater(fold, e.op, e.saw, e.tested, e.rec, e.kind, now, now');
    }
  }

  /** Whatever is stored at a key is a well-formed record addressed by that key. */
  lemma {:induction false} StoredOk(fold: char -> char, sh: Shared, key: string)
    requires SharedOk(fold, sh) && key in Data(sh)
    ensures RecordOk(fold, Data(sh)[key], sh.now)
    ensures KeyOfRecord(Data(sh)[key]) == key
    ensures Committed(sh.log, |sh.log|, key, Data(sh)[key])
  {
    ReplayIsCommitted(sh.log, key);
    var h :| 0 <= h < |sh.log| && sh.log[h].Commit? && sh.log[h].key == key && sh.log[h].rec == Data(sh)[key];
    EntryRecordOk(fold, sh.log[h], sh.now);
  }

  lemma {:induction false} EntryRecordOk(fold: char -> char, e: Entry, now: nat)
    requires e.Commit? && EntryOk(fold, e, now)
    ensures RecordOk(fold, e.rec, now)
  {}

  // ------------------------------------------------------- one client step

  lemma {:induction false} StartOk(fold: char -> char, sh: Shared, c: Client, fault: Fault)
    requires SharedOk(fold, sh) && ClientOk(fold, sh, c) && c.pc.Start?
    ensures ClientOk(fold, sh, ActStart(sh, c, fault))
  {
    if KeyOf(c.op) in Data(sh) {
      StoredOk(fold, sh, KeyOf(c.op));
    }
  }

  lemma {:induction false} DecideOk(fold: char -> char, sh: Shared, c: Client)
    requires ClientOk(fold, sh, c) && c.pc.Decide?
    ensures ClientOk(fold, sh, ActDecide(fold, sh, c))
  {
    var c' := ActDecide(fold, sh, c);
    if c'.pc.ReRead? && c.op.Approve? {
      assert c'.pc.rec == ApprovedCopy(c.saw.rec, c.op.user, sh.now);
    } else if c'.pc.ReRead? && c.op.Deny? {
      assert c'.pc.rec == DeniedCopy(c.saw.rec, c.op.user, sh.now, c.op.reason);
    }
  }

  /** A record awaiting `Update` is stored already under its key, so the map `Update` reads holds
      data: the assignment into a nil map cannot happen. */
  lemma {:induction false} ReReadOk(fold: char -> char, sh: Shared, c: Client, fault: Fault)
    requires ClientOk(fold, sh, c) && c.pc.ReRead?
    ensures ClientOk(fold, sh, ActReRead(sh, c, c.pc.rec, c.pc.kind, fault))
  {}

  lemma {:induction false} NewObjectOk(fold: char -> char, sh: Shared, c: Client, fault: Fault)
    requires SharedOk(fold, sh) && ClientOk(fold, sh, c) && c.pc.NewObject?
    ensures Grows(sh, ActNewObject(sh, c, c.pc.rec, fault).0)
    ensures SharedOk(fold, ActNewObject(sh, c, c.pc.rec, fault).0)
    ensures ClientOk(fold, ActNewObject(sh, c, c.pc.rec, fault).0, ActNewObject(sh, c, c.pc.rec, fault).1)
  {}

  lemma {:induction false} CommitOk(fold: char -> char, sh: Shared, c: Client, fault: Fault)
    requires SharedOk(fold, sh) && ClientOk(fold, sh, c) && c.pc.Write? && Commits(sh, c.pc.snap, fault)
    ensures var sh' := Store(sh, c.pc.snap, EntryOf(c, c.pc.rec, c.pc.kind));
            && Grows(sh, sh') && SharedOk(fold, sh')
            && Data(sh') == Data(sh)[KeyOf(c.op) := c.pc.rec]
  {
    var e := EntryOf(c, c.pc.rec, c.pc.kind);
    JustifiedRecordOk(fold, c.op, c.saw, c.tested, c.pc.rec, c.pc.kind, sh.now);
    assert EntryOk(fold, e, sh.now);
    LogSnoc(fold, sh.log, e, sh.now);
    ReplaySnoc(sh.log, e);
  }

  lemma {:induction false} WriteOk(fold: char -> char, sh: Shared, c: Client, fault: Fault)
    requires SharedOk(fold, sh) && ClientOk(fold, sh, c) && c.pc.Write?
    ensures var (sh', c') := ActWrite(sh, c, c.pc.rec, c.pc.kind, c.pc.snap, fault);
            Grows(sh, sh') && SharedOk(fold, sh') && ClientOk(fold, sh', c')
  {
    if Commits(sh, c.pc.snap, fault) {
      CommitOk(fold, sh, c, fault);
      ClientOkLater(fold, sh, Store(sh, c.pc.snap, EntryOf(c, c.pc.rec, c.pc.kind)), c);
    }
  }

  lemma {:induction false} ApprovedIsLogged(log: seq<Entry>, key: string, rec: Request)
    requires Committed(log, |log|, key, rec) && rec.status == Approved
    ensures ApprovalLogged(log, |log|, key)
  {}

  lemma {:induction false} JobMadeOk(fold: char -> char, sh: Shared, sh': Shared, plan: Plan)
    requires SharedOk(fold, sh)
    requires plan.gated ==> ApprovalLogged(sh.log, |sh.log|, Key(plan.executionID, plan.stepName))
    requires sh' == sh.(jobs := sh'.jobs, log := sh.log + [JobMade(plan)])
    ensures Grows(sh, sh') && SharedOk(fold, sh')
  {
    LogSnoc(fold, sh.log, JobMade(plan), sh.now);
    ReplaySnoc(sh.log, JobMade(plan));
  }

  lemma {:induction false} DoneOk(fold: char -> char, sh: Shared, c: Client, o: Outcome)
    requires ClientOk(fold, sh, c) && !c.pc.Test? && o != Crashed
    ensures ClientOk(fold, sh, c.(pc := Done(o)))
  {}

  lemma {:induction false} CreateJobOk(fold: char -> char, sh: Shared, c: Client, fault: Fault)
    requires SharedOk(fold, sh) && ClientOk(fold, sh, c) && c.pc.CreateJob?
    ensures var (sh', c') := ActCreateJob(sh, c, fault);
            Grows(sh, sh') && SharedOk(fold, sh') && ClientOk(fold, sh', c')
  {
    var (sh', c') := ActCreateJob(sh, c, fault);
    if sh' != sh {
      if c.op.plan.gated {
        ApprovedIsLogged(sh.log, KeyOf(c.op), c.saw.rec);
      }
      JobMadeOk(fold, sh, sh', c.op.plan);
      ClientOkLater(fold, sh, sh', c);
    }
    DoneOk(fold, sh', c, c'.pc.outcome);
  }

  lemma {:induction false} ActOk(fold: char -> char, sh: Shared, c: Client, fault: Fault)
    requires SharedOk(fold, sh) && ClientOk(fold, sh, c)
    ensures var (sh', c') := Act(fold, sh, c, fault);
            Grows(sh, sh') && SharedOk(fold, sh') && ClientOk(fold, sh', c')
  {
    match c.pc
    case Start => StartOk(fold, sh, c, fault);
    case Test =>
    case Decide => DecideOk(fold, sh, c);
    case ReRead(_, _) => ReReadOk(fold, sh, c, fault);
    case NewObject(_) => NewObjectOk(fold, sh, c, fault);
    case Write(_, _, _) => WriteOk(fold, sh, c, fault);
    case CreateJob => CreateJobOk(fold, sh, c, fault);
    case Done(_) =>
  }

  // --------------------------------------------------- steps and whole runs

  lemma {:induction false} NextOk(fold: char -> char, w: World, l: Label)
    requires Inv(fold, w)
    ensures Inv(fold, Next(fold, w, l)) && Grows(w.sh, Next(fold, w, l).sh)
  {
    var w' := Next(fold, w, l);
    match l {
      case Tick(d) =>
        LogOkLater(fold, w.sh.log, w.sh.now, w'.sh.now);
      case Step(i, fault) =>
        if i < |w.clients| {
          ActOk(fold, w.sh, w.clients[i], fault);
        }
      case Reap(name) =>
        if name in w.sh.jobs {
          LogSnoc(fold, w.sh.log, JobGone(name), w.sh.now);
          ReplaySnoc(w.sh.log, JobGone(name));
        }
      case Arrive(_) =>
    }
    forall j | 0 <= j < |w'.clients| ensures ClientOk(fold, w'.sh, w'.clients[j]) {
      if j < |w.clients| {
        ClientOkLater(fold, w.sh, w'.sh, w.clients[j]);
      }
    }
  }

  lemma {:induction false} InitialOk(fold: char -> char, w: World)
    requires Initial(w)
    ensures Inv(fold, w)
  {}

  /** Every state of every run satisfies the invariant, and the shared state only grows. */
  lemma {:induction false} RunOk(fold: char -> char, w: World, labels: seq<Label>)
    requires Inv(fold, w)
    ensures Inv(fold, Run(fold, w, labels)) && Grows(w.sh, Run(fold, w, labels).sh)
    decreases |labels|
  {
    if labels != [] {
      NextOk(fold, w, labels[0]);
      RunOk(fold, Next(fold, w, labels[0]), labels[1..]);
    }
  }
}
