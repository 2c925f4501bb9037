/** The life of one key: which record may follow which, exactly when Approved and Denied are final,
    and what that means for Jobs. Finality is about every run, whatever overlaps. */
module ApprovalFinality {
  import opened Common
  import opened ApprovalRecords
  import opened ApprovalProtocol
  import opened ProtocolInvariants
  import opened ApprovalSafety
  import opened ApprovalRefinement

  /** The request without what was decided about it. */
  function Undone(r: Request): Request {
    r.(status := Pending, approvedBy := "", approvedAt := None, deniedBy := "", deniedAt := None, denialReason := "")
  }

  /** A key starts with a pending request. A pending request is approved, denied, expired (keeping
      everything else) or replaced by a new one; an expired one is only replaced; an approved or
      denied one stays. */
  ghost predicate LegalMove(prev: Option<Request>, next: Request) {
    match prev
    case None => next.status == Pending
    case Some(p) =>
      match p.status
      case Pending => next.status == Pending || Undone(next) == p
      case Expired => next.status == Pending
      case _ => false
  }

  /** An execution whose read of the store failed: it stores a new request without having seen the
      old one. */
  predicate Blind(e: Entry) {
    e.Commit? && e.saw.Unread?
  }

  function Before(log: seq<Entry>, h: nat): Option<Request>
    requires h < |log| && log[h].Commit?
  {
    Lookup(Replay(log[..h]), log[h].key)
  }

  ghost predicate LogLegal(log: seq<Entry>) {
    forall h :: 0 <= h < |log| && log[h].Commit? ==>
      if Blind(log[h]) then log[h].op.Execute? && log[h].rec.status == Pending
      else LegalMove(Before(log, h), log[h].rec)
  }

  lemma {:induction false} LogLegalSnoc(log: seq<Entry>, e: Entry)
    requires LogLegal(log)
    requires e.Commit? ==> if Blind(e) then e.op.Execute? && e.rec.status == Pending
                           else LegalMove(Lookup(Replay(log), e.key), e.rec)
    ensures LogLegal(log + [e])
  {
    var log' := log + [e];
    assert log'[..|log|] == log;
    forall h | 0 <= h < |log'| && log'[h].Commit? && !Blind(log'[h]) ensures LegalMove(Before(log', h), log'[h].rec) {
      if h < |log| {
        assert log'[..h] == log[..h];
      }
    }
  }

  /** A write whose client still sees the store as it is moves its key legally. */
  lemma {:induction false} CommitIsLegal(fold: char -> char, sh: Shared, c: Client)
    requires SharedOk(fold, sh) && ClientOk(fold, sh, c) && c.pc.Write? && Current(sh, c)
    ensures var e := EntryOf(c, c.pc.rec, c.pc.kind);
            if Blind(e) then e.op.Execute? && e.rec.status == Pending
            else LegalMove(Lookup(Data(sh), e.key), e.rec)
  {
    JustifiedRecordOk(fold, c.op, c.saw, c.tested, c.pc.rec, c.pc.kind, sh.now);
  }

  lemma {:induction false} StepLegal(fold: char -> char, w: World, l: Label)
    requires Inv(fold, w) && AllCurrent(w) && LogLegal(w.sh.log)
    ensures LogLegal(Next(fold, w, l).sh.log)
  {
    var w' := Next(fold, w, l);
    match l {
      case Step(i, fault) =>
        if i < |w.clients| && w'.sh.log != w.sh.log {
          if w.clients[i].pc.Write? {
            CommitIsLegal(fold, w.sh, w.clients[i]);
          }
          LogLegalSnoc(w.sh.log, w'.sh.log[|w.sh.log|]);
        }
      case Reap(name) => LogLegalSnoc(w.sh.log, JobGone(name));
      case _ =>
    }
  }

  lemma {:induction false} RunLegal(fold: char -> char, st: Requests, w: World, labels: seq<Label>)
    requires Sim(fold, st, w) && ExclusiveRun(fold, w, labels) && LogLegal(w.sh.log)
    ensures LogLegal(Run(fold, w, labels).sh.log)
    decreases |labels|
  {
    if labels != [] {
      StepLegal(fold, w, labels[0]);
      StepSimulates(fold, st, w, labels[0]);
      RunLegal(fold, ServeAll(fold, st, EventAt(fold, w, labels[0])), Next(fold, w, labels[0]), labels[1..]);
    }
  }

  /** Over every run without overlap, every commit is a legal move of its key or comes from an
      execution whose read failed. */
  lemma {:induction false} Lifecycle(fold: char -> char, w0: World, labels: seq<Label>)
    requires Initial(w0) && ExclusiveRun(fold, w0, labels)
    ensures LogLegal(Run(fold, w0, labels).sh.log)
  {
    InitialOk(fold, w0);
    RunLegal(fold, map[], w0, labels);
  }

  // ------------------------------------------------- what a client saw, and when

  /** `saw` is what the store held at `k` when the log had `n` entries. */
  ghost predicate SawAt(log: seq<Entry>, n: nat, k: string, saw: Answer) {
    && n <= |log|
    && match saw
       case Unread => true
       case Absent => k !in Replay(log[..n])
       case Found(rec) => Lookup(Replay(log[..n]), k) == Some(rec)
  }

  ghost predicate EntryTold(log: seq<Entry>, h: nat)
    requires h < |log|
  {
    log[h].Commit? ==> log[h].readAt <= h && SawAt(log, log[h].readAt, log[h].key, log[h].saw)
  }

  ghost predicate LogTold(log: seq<Entry>) {
    forall h :: 0 <= h < |log| ==> EntryTold(log, h)
  }

  ghost predicate ClientTold(log: seq<Entry>, c: Client) {
    SawAt(log, c.readAt, KeyOf(c.op), c.saw)
  }

  ghost predicate Told(w: World) {
    && LogTold(w.sh.log)
    && forall i :: 0 <= i < |w.clients| ==> ClientTold(w.sh.log, w.clients[i])
  }

  lemma {:induction false} SawAtLater(log: seq<Entry>, log': seq<Entry>, n: nat, k: string, saw: Answer)
    requires SawAt(log, n, k, saw) && log <= log'
    ensures SawAt(log', n, k, saw)
  {
    assert log'[..n] == log[..n];
  }

  lemma {:induction false} LogToldSnoc(log: seq<Entry>, e: Entry)
    requires LogTold(log)
    requires e.Commit? ==> SawAt(log, e.readAt, e.key, e.saw)
    ensures LogTold(log + [e])
  {
    var log' := log + [e];
    forall h | 0 <= h < |log'| && log'[h].Commit? ensures EntryTold(log', h) {
      if h < |log| {
        assert EntryTold(log, h);
      }
      SawAtLater(log, log', log'[h].readAt, log'[h].key, log'[h].saw);
    }
  }

  /** The first step takes the view of the store that all later steps keep. What a step adds to the log
      it adds under that view. */
  lemma {:induction false} ActSight(fold: char -> char, sh: Shared, c: Client, fault: Fault)
    ensures var (sh', c') := Act(fold, sh, c, fault);
            && (c.pc.Start? ==> sh' == sh && (Active(c') ==> c'.readAt == |sh.log|))
            && (!c.pc.Start? ==> c'.saw == c.saw && c'.readAt == c.readAt)
            && (!c.pc.Start? && Active(c') ==> Active(c))
            && (!c.pc.Start? && c'.pc.CreateJob? ==> Active(c) || c.pc.CreateJob?)
            && (sh'.log == sh.log
                || (c.pc.Write? && sh'.log == sh.log + [EntryOf(c, c.pc.rec, c.pc.kind)])
                || (c.pc.CreateJob? && c.op.Execute? && sh'.log == sh.log + [JobMade(c.op.plan)]))
  {}

  lemma {:induction false} ActTold(fold: char -> char, sh: Shared, c: Client, fault: Fault)
    requires SharedOk(fold, sh) && ClientOk(fold, sh, c) && LogTold(sh.log) && ClientTold(sh.log, c)
    ensures LogTold(Act(fold, sh, c, fault).0.log)
    ensures ClientTold(Act(fold, sh, c, fault).0.log, Act(fold, sh, c, fault).1)
  {
    var (sh', c') := Act(fold, sh, c, fault);
    ActKeepsOp(fold, sh, c, fault);
    ActSight(fold, sh, c, fault);
    if c.pc.Start? {
      StartTold(sh, c, fault);
    } else {
      if sh'.log != sh.log {
        if c.pc.Write? {
          WriteAtOwnKey(fold, sh, c);
          LogToldSnoc(sh.log, EntryOf(c, c.pc.rec, c.pc.kind));
        } else {
          LogToldSnoc(sh.log, JobMade(c.op.plan));
        }
      }
      SawAtLater(sh.log, sh'.log, c.readAt, KeyOf(c.op), c.saw);
    }
  }

  lemma {:induction false} StartTold(sh: Shared, c: Client, fault: Fault)
    requires Data(sh) == Replay(sh.log) && ClientTold(sh.log, c) && c.pc.Start?
    ensures ClientTold(sh.log, ActStart(sh, c, fault))
  {
    assert sh.log[..|sh.log|] == sh.log;
  }

  lemma {:induction false} WriteAtOwnKey(fold: char -> char, sh: Shared, c: Client)
    requires ClientOk(fold, sh, c) && c.pc.Write?
    ensures KeyOfRecord(c.pc.rec) == KeyOf(c.op)
    ensures c.saw.Unread? ==> c.op.Execute? && c.pc.kind == Creation
    ensures c.saw.Found? ==> !Terminal(c.saw.rec.status)
  {
    JustifiedRecordOk(fold, c.op, c.saw, c.tested, c.pc.rec, c.pc.kind, sh.now);
  }

  lemma {:induction false} NextTold(fold: char -> char, w: World, l: Label)
    requires Inv(fold, w) && Told(w)
    ensures Told(Next(fold, w, l))
  {
    var w' := Next(fold, w, l);
    match l {
      case Step(i, fault) => if i < |w.clients| { ActTold(fold, w.sh, w.clients[i], fault); }
      case Reap(name) => LogToldSnoc(w.sh.log, JobGone(name));
      case _ =>
    }
    NextOk(fold, w, l);
    forall j | 0 <= j < |w'.clients| ensures ClientTold(w'.sh.log, w'.clients[j]) {
      if j < |w.clients| && !(l.Step? && l.i == j) {
        SawAtLater(w.sh.log, w'.sh.log, w.clients[j].readAt, KeyOf(w.clients[j].op), w.clients[j].saw);
      }
    }
  }

  lemma {:induction false} RunTold(fold: char -> char, w: World, labels: seq<Label>)
    requires Inv(fold, w) && Told(w)
    ensures Inv(fold, Run(fold, w, labels)) && Told(Run(fold, w, labels))
    decreases |labels|
  {
    if labels != [] {
      NextOk(fold, w, labels[0]);
      NextTold(fold, w, labels[0]);
      RunTold(fold, Next(fold, w, labels[0]), labels[1..]);
    }
  }

  // ------------------------------------------------------- exact finality

  ghost predicate Untouched(log: seq<Entry>, lo: nat, hi: nat, k: string) {
    hi <= |log| && forall h :: lo <= h < hi && log[h].Commit? ==> log[h].key != k
  }

  /** A commit whose client did not see the decision committed at `d`: it saw nothing at all, or it
      had read the store by then. */
  predicate Stale(e: Entry, d: nat) {
    e.Commit? && (e.saw.Unread? || e.readAt <= d)
  }

  ghost predicate NoStaleWrite(log: seq<Entry>, d: nat, hi: nat, k: string) {
    hi <= |log| && forall h :: d < h < hi && log[h].Commit? && log[h].key == k ==> !Stale(log[h], d)
  }

  /** No client acts on an approved or denied record it saw. */
  ghost predicate ActsOnOpenRequests(log: seq<Entry>) {
    forall h :: 0 <= h < |log| && log[h].Commit? && log[h].saw.Found? ==> !Terminal(log[h].saw.rec.status)
  }

  predicate Decided(log: seq<Entry>, d: nat) {
    d < |log| && log[d].Commit? && Terminal(log[d].rec.status)
  }

  lemma {:induction false} CommitsActOnOpenRequests(fold: char -> char, sh: Shared)
    requires SharedOk(fold, sh)
    ensures ActsOnOpenRequests(sh.log)
  {
    forall h | 0 <= h < |sh.log| && sh.log[h].Commit? && sh.log[h].saw.Found? ensures !Terminal(sh.log[h].saw.rec.status) {
      assert EntryOk(fold, sh.log[h], sh.now);
    }
  }

  lemma {:induction false} LatestStays(log: seq<Entry>, d: nat, n: nat)
    requires d < n <= |log| && log[d].Commit? && Untouched(log, d + 1, n, log[d].key)
    ensures Lookup(Replay(log[..n]), log[d].key) == Some(log[d].rec)
  {
    assert log[..d + 1] == log[..d] + [log[d]];
    ReplaySnoc(log[..d], log[d]);
    ReplayUntouched(log[..d + 1], log[..n], log[d].key);
  }

  /** A commit straight over a decision did not see it. */
  lemma {:induction false} OverwriteIsStale(log: seq<Entry>, d: nat, h: nat)
    requires LogTold(log) && ActsOnOpenRequests(log) && Decided(log, d)
    requires d < h < |log| && log[h].Commit? && log[h].key == log[d].key && Untouched(log, d + 1, h, log[d].key)
    ensures Stale(log[h], d)
  {
    assert EntryTold(log, h);
    if !log[h].saw.Unread? && log[h].readAt > d {
      LatestStays(log, d, log[h].readAt);
      assert false;
    }
  }

  lemma {:induction false} UntouchedIfFresh(log: seq<Entry>, d: nat, hi: nat)
    requires LogTold(log) && ActsOnOpenRequests(log) && Decided(log, d)
    requires d < hi <= |log| && NoStaleWrite(log, d, hi, log[d].key)
    ensures Untouched(log, d + 1, hi, log[d].key)
    decreases hi
  {
    if d + 1 < hi {
      UntouchedIfFresh(log, d, hi - 1);
      if log[hi - 1].Commit? && log[hi - 1].key == log[d].key {
        OverwriteIsStale(log, d, hi - 1);
        assert false;
      }
    }
  }

  lemma {:induction false} ReachedTold(fold: char -> char, w0: World, labels: seq<Label>)
    requires Initial(w0)
    ensures var w := Run(fold, w0, labels);
            Inv(fold, w) && Told(w) && ActsOnOpenRequests(w.sh.log)
  {
    InitialOk(fold, w0);
    RunTold(fold, w0, labels);
    CommitsActOnOpenRequests(fold, Run(fold, w0, labels).sh);
  }

  /** Finality, exactly, for every run and every interleaving: an approval or a denial, committed as
      the d-th entry, is written over if and only if some later commit at its key comes from a client
      that read the store no later than that, or whose read failed. */
  lemma {:induction false} FinalUnlessStale(fold: char -> char, w0: World, labels: seq<Label>, d: nat)
    requires Initial(w0) && Decided(Run(fold, w0, labels).sh.log, d)
    ensures var sh := Run(fold, w0, labels).sh;
            var k := sh.log[d].key;
            && (Untouched(sh.log, d + 1, |sh.log|, k) <==> NoStaleWrite(sh.log, d, |sh.log|, k))
            && (NoStaleWrite(sh.log, d, |sh.log|, k) ==> Lookup(Data(sh), k) == Some(sh.log[d].rec))
  {
    ReachedTold(fold, w0, labels);
    var sh := Run(fold, w0, labels).sh;
    if NoStaleWrite(sh.log, d, |sh.log|, sh.log[d].key) {
      UntouchedIfFresh(sh.log, d, |sh.log|);
      LatestStays(sh.log, d, |sh.log|);
      assert sh.log[..|sh.log|] == sh.log;
    }
  }

  // --------------------------------- finality seen from the moment of decision

  /** No client inside the store has read `k` while it was still open. */
  ghost predicate Calm(w: World, k: string) {
    forall i :: 0 <= i < |w.clients| && Active(w.clients[i]) && KeyOf(w.clients[i].op) == k
                ==> w.clients[i].saw.Unread? || (w.clients[i].saw.Found? && Terminal(w.clients[i].saw.rec.status))
  }

  ghost predicate NoBlindWrite(log: seq<Entry>, lo: nat, k: string) {
    forall h :: lo <= h < |log| && Blind(log[h]) ==> log[h].key != k
  }

  /** The latest commit at `k`. */
  lemma {:induction false} LatestCommit(log: seq<Entry>, k: string) returns (d: nat)
    requires k in Replay(log)
    ensures d < |log| && log[d].Commit? && log[d].key == k && log[d].rec == Replay(log)[k]
    ensures Untouched(log, d + 1, |log|, k)
    decreases |log|
  {
    var last := log[|log| - 1];
    if last.Commit? && last.key == k {
      d := |log| - 1;
    } else {
      d := LatestCommit(log[..|log| - 1], k);
    }
  }

  /** Whoever may still write at `k` saw nothing, saw the decision, or reads after the moment `lo`. */
  ghost predicate ClientSince(c: Client, lo: nat, k: string) {
    Active(c) && KeyOf(c.op) == k ==> c.saw.Unread? || (c.saw.Found? && Terminal(c.saw.rec.status)) || c.readAt >= lo
  }

  ghost predicate Since(w: World, lo: nat, k: string) {
    && lo <= |w.sh.log|
    && (forall i :: 0 <= i < |w.clients| ==> ClientSince(w.clients[i], lo, k))
    && (forall h :: lo <= h < |w.sh.log| && w.sh.log[h].Commit? && w.sh.log[h].key == k ==> Blind(w.sh.log[h]) || w.sh.log[h].readAt >= lo)
  }

  lemma {:induction false} ActSince(fold: char -> char, sh: Shared, c: Client, fault: Fault, lo: nat, k: string)
    requires SharedOk(fold, sh) && ClientOk(fold, sh, c) && ClientSince(c, lo, k) && lo <= |sh.log|
    ensures var (sh', c') := Act(fold, sh, c, fault);
            && ClientSince(c', lo, k)
            && (|sh'.log| > |sh.log| ==>
                  var e := sh'.log[|sh.log|];
                  e.Commit? && e.key == k ==> Blind(e) || e.readAt >= lo)
  {
    ActKeepsOp(fold, sh, c, fault);
    ActSight(fold, sh, c, fault);
    if c.pc.Write? {
      WriteAtOwnKey(fold, sh, c);
    }
  }

  lemma {:induction false} NextSince(fold: char -> char, w: World, l: Label, lo: nat, k: string)
    requires Inv(fold, w) && Since(w, lo, k)
    ensures Since(Next(fold, w, l), lo, k)
  {
    if l.Step? && l.i < |w.clients| {
      ActSince(fold, w.sh, w.clients[l.i], l.fault, lo, k);
      ActKeepsOp(fold, w.sh, w.clients[l.i], l.fault);
    }
    NextOk(fold, w, l);
  }

  lemma {:induction false} RunSince(fold: char -> char, w: World, labels: seq<Label>, lo: nat, k: string)
    requires Inv(fold, w) && Since(w, lo, k)
    ensures Since(Run(fold, w, labels), lo, k)
    decreases |labels|
  {
    if labels != [] {
      NextOk(fold, w, labels[0]);
      NextSince(fold, w, labels[0], lo, k);
      RunSince(fold, Next(fold, w, labels[0]), labels[1..], lo, k);
    }
  }

  /** What a run reaches after a moment at which `k` is decided and calm. */
  lemma {:induction false} AfterCalm(fold: char -> char, w0: World, before: seq<Label>, after: seq<Label>, k: string) returns (d: nat)
    requires Initial(w0) && Calm(Run(fold, w0, before), k)
    requires var sh := Run(fold, w0, before).sh; k in Data(sh) && Terminal(Data(sh)[k].status)
    ensures var sh, w' := Run(fold, w0, before).sh, Run(fold, w0, before + after);
            && Inv(fold, w') && Told(w') && ActsOnOpenRequests(w'.sh.log) && Since(w', |sh.log|, k)
            && sh.log <= w'.sh.log
            && d < |sh.log| && Decided(w'.sh.log, d) && w'.sh.log[d].key == k && w'.sh.log[d].rec == Data(sh)[k]
            && Untouched(w'.sh.log, d + 1, |sh.log|, k)
  {
    var w, w' := Run(fold, w0, before), Run(fold, w0, before + after);
    RunConcat(fold, w0, before, after);
    ReachedTold(fold, w0, before);
    ReachedTold(fold, w0, before + after);
    RunOk(fold, w, after);
    RunSince(fold, w, after, |w.sh.log|, k);
    d := LatestCommit(w.sh.log, k);
    assert forall h :: 0 <= h < |w.sh.log| ==> w'.sh.log[h] == w.sh.log[h];
  }

  /** A fresh commit over the decision can only come after a blind one. */
  lemma {:induction false} OnlyBlindWritesTouch(w: World, lo: nat, hi: nat, d: nat)
    requires LogTold(w.sh.log) && ActsOnOpenRequests(w.sh.log)
    requires Decided(w.sh.log, d) && Since(w, lo, w.sh.log[d].key)
    requires d < lo <= hi <= |w.sh.log| && Untouched(w.sh.log, d + 1, lo, w.sh.log[d].key)
    requires forall h :: lo <= h < hi && Blind(w.sh.log[h]) ==> w.sh.log[h].key != w.sh.log[d].key
    ensures Untouched(w.sh.log, d + 1, hi, w.sh.log[d].key)
  {
    assert NoStaleWrite(w.sh.log, d, hi, w.sh.log[d].key);
    UntouchedIfFresh(w.sh.log, d, hi);
  }

  /** Finality from what is known when the key is decided. Take any moment of any run at which `k` is
      approved or denied and no client inside the store read it earlier. From then on its record is
      never written over if and only if no execution whose read of the store failed stores a new
      request at that key. Operations on other keys, and later ones on `k`, may overlap as they like. */
  lemma {:induction false} FinalUnlessBlind(fold: char -> char, w0: World, before: seq<Label>, after: seq<Label>, k: string)
    requires Initial(w0) && Calm(Run(fold, w0, before), k)
    requires var sh := Run(fold, w0, before).sh; k in Data(sh) && Terminal(Data(sh)[k].status)
    ensures var sh, sh' := Run(fold, w0, before).sh, Run(fold, w0, before + after).sh;
            && sh.log <= sh'.log
            && (NoBlindWrite(sh'.log, |sh.log|, k) <==> Untouched(sh'.log, |sh.log|, |sh'.log|, k))
            && (NoBlindWrite(sh'.log, |sh.log|, k) ==> k in Data(sh') && Data(sh')[k] == Data(sh)[k])
  {
    var d := AfterCalm(fold, w0, before, after, k);
    var sh, w' := Run(fold, w0, before).sh, Run(fold, w0, before + after);
    if NoBlindWrite(w'.sh.log, |sh.log|, k) {
      OnlyBlindWritesTouch(w', |sh.log|, |w'.sh.log|, d);
      LatestStays(w'.sh.log, d, |w'.sh.log|);
      assert w'.sh.log[..|w'.sh.log|] == w'.sh.log;
    }
  }

  /** Operations that do not overlap leave a decided key calm. */
  lemma {:induction false} ExclusiveIsCalm(fold: char -> char, w0: World, labels: seq<Label>, k: string)
    requires Initial(w0) && ExclusiveRun(fold, w0, labels)
    requires var sh := Run(fold, w0, labels).sh; k in Data(sh) && Terminal(Data(sh)[k].status)
    ensures Calm(Run(fold, w0, labels), k)
  {
    InitialSim(fold, w0);
    RunSimulates(fold, map[], w0, labels);
  }

  // ------------------------------------------- a condition on the schedule

  /** The first read of every execution at `k` that needs approval gets through. */
  ghost predicate ReadsSucceed(fold: char -> char, w: World, labels: seq<Label>, k: string)
    decreases |labels|
  {
    labels == [] || (
      && (labels[0].Step? && labels[0].i < |w.clients| && AboutToRead(w.clients[labels[0].i], k) ==> labels[0].fault == NoFault)
      && ReadsSucceed(fold, Next(fold, w, labels[0]), labels[1..], k))
  }

  predicate AboutToRead(c: Client, k: string) {
    c.pc.Start? && c.op.Execute? && c.op.plan.gated && KeyOf(c.op) == k
  }

  predicate BlindAt(c: Client, k: string) {
    Active(c) && c.op.Execute? && KeyOf(c.op) == k && c.saw.Unread?
  }

  ghost predicate Sighted(w: World, k: string) {
    forall i :: 0 <= i < |w.clients| ==> !BlindAt(w.clients[i], k)
  }

  lemma {:induction false} ActSighted(fold: char -> char, sh: Shared, c: Client, fault: Fault, k: string)
    requires SharedOk(fold, sh) && ClientOk(fold, sh, c) && !BlindAt(c, k)
    requires AboutToRead(c, k) ==> fault == NoFault
    ensures var (sh', c') := Act(fold, sh, c, fault);
            && !BlindAt(c', k)
            && (|sh'.log| > |sh.log| && Blind(sh'.log[|sh.log|]) ==> sh'.log[|sh.log|].key != k)
  {
    ActKeepsOp(fold, sh, c, fault);
    ActSight(fold, sh, c, fault);
    if c.pc.Write? {
      WriteAtOwnKey(fold, sh, c);
    }
  }

  lemma {:induction false} RunSighted(fold: char -> char, w: World, labels: seq<Label>, k: string, lo: nat)
    requires Inv(fold, w) && Sighted(w, k) && ReadsSucceed(fold, w, labels, k)
    requires lo <= |w.sh.log| && NoBlindWrite(w.sh.log, lo, k)
    ensures NoBlindWrite(Run(fold, w, labels).sh.log, lo, k)
    decreases |labels|
  {
    if labels != [] {
      NextOk(fold, w, labels[0]);
      NextSighted(fold, w, labels[0], k, lo);
      RunSighted(fold, Next(fold, w, labels[0]), labels[1..], k, lo);
    }
  }

  lemma {:induction false} NextSighted(fold: char -> char, w: World, l: Label, k: string, lo: nat)
    requires Inv(fold, w) && Sighted(w, k) && lo <= |w.sh.log| && NoBlindWrite(w.sh.log, lo, k)
    requires l.Step? && l.i < |w.clients| && AboutToRead(w.clients[l.i], k) ==> l.fault == NoFault
    ensures Sighted(Next(fold, w, l), k) && NoBlindWrite(Next(fold, w, l).sh.log, lo, k)
    ensures lo <= |Next(fold, w, l).sh.log|
  {
    if l.Step? && l.i < |w.clients| {
      ActSighted(fold, w.sh, w.clients[l.i], l.fault, k);
      ActKeepsOp(fold, w.sh, w.clients[l.i], l.fault);
    }
  }

  /** If no client inside the store read `k` before its decision, or failed to read it, and no later
      execution's first read of `k` fails, the decision stands for ever. All of this is known from the
      state at the decision and from the faults of the schedule. */
  lemma {:induction false} FinalWhenReadsSucceed(fold: char -> char, w0: World, before: seq<Label>, after: seq<Label>, k: string)
    requires Initial(w0) && Calm(Run(fold, w0, before), k) && Sighted(Run(fold, w0, before), k)
    requires ReadsSucceed(fold, Run(fold, w0, before), after, k)
    requires var sh := Run(fold, w0, before).sh; k in Data(sh) && Terminal(Data(sh)[k].status)
    ensures var sh, sh' := Run(fold, w0, before).sh, Run(fold, w0, before + after).sh;
            Untouched(sh'.log, |sh.log|, |sh'.log|, k) && k in Data(sh') && Data(sh')[k] == Data(sh)[k]
  {
    InitialOk(fold, w0);
    RunOk(fold, w0, before);
    RunConcat(fold, w0, before, after);
    RunSighted(fold, Run(fold, w0, before), after, k, |Run(fold, w0, before).sh.log|);
    FinalUnlessBlind(fold, w0, before, after, k);
  }

  // ------------------------------------------------------ denials and Jobs

  /** On the way to a gated Job, or to a write, with what was read of `k`. */
  predicate Underway(c: Client, k: string) {
    KeyOf(c.op) == k && Gated(c.op) && (Active(c) || c.pc.CreateJob?)
  }

  /** Whoever is under way at the denied key `k` saw the denial or nothing. */
  ghost predicate Settled(w: World, k: string) {
    forall i :: 0 <= i < |w.clients| && Underway(w.clients[i], k)
                ==> w.clients[i].saw.Unread? || (w.clients[i].saw.Found? && w.clients[i].saw.rec.status == Denied)
  }

  ghost predicate ApprovedSince(log: seq<Entry>, lo: nat, hi: nat, k: string) {
    hi <= |log| && exists h :: lo <= h < hi && log[h].Commit? && log[h].key == k && log[h].rec.status == Approved
  }

  ghost predicate SawApproved(c: Client, k: string) {
    Underway(c, k) && c.saw.Found? && c.saw.rec.status == Approved
  }

  predicate ApprovedIn(data: map<string, Request>, k: string) {
    k in data && data[k].status == Approved
  }

  ghost predicate GateSince(w: World, lo: nat, k: string) {
    && lo <= |w.sh.log|
    && !ApprovedIn(Replay(w.sh.log[..lo]), k)
    && (forall i :: 0 <= i < |w.clients| && SawApproved(w.clients[i], k) ==> ApprovedSince(w.sh.log, lo, |w.sh.log|, k))
    && (forall j :: lo <= j < |w.sh.log| && GatedJobAt(w.sh.log[j], k) ==> ApprovedSince(w.sh.log, lo, j, k))
  }

  predicate GatedJobAt(e: Entry, k: string) {
    e.JobMade? && e.plan.gated && Key(e.plan.executionID, e.plan.stepName) == k
  }

  lemma {:induction false} ApprovedSinceLater(log: seq<Entry>, log': seq<Entry>, lo: nat, hi: nat, hi': nat, k: string)
    requires ApprovedSince(log, lo, hi, k) && log <= log' && hi <= hi' <= |log'|
    ensures ApprovedSince(log', lo, hi', k)
  {
    var h :| lo <= h < hi && log[h].Commit? && log[h].key == k && log[h].rec.status == Approved;
    assert log'[h] == log[h];
  }

  /** What is approved now and was not at `lo` was approved in between. */
  lemma {:induction false} ApprovedMeansSince(log: seq<Entry>, lo: nat, k: string)
    requires lo <= |log| && !ApprovedIn(Replay(log[..lo]), k) && ApprovedIn(Replay(log), k)
    ensures ApprovedSince(log, lo, |log|, k)
  {
    var d := LatestCommit(log, k);
    if d < lo {
      LatestStays(log, d, lo);
      assert false;
    }
  }

  lemma {:induction false} ActGateSince(fold: char -> char, sh: Shared, c: Client, fault: Fault, lo: nat, k: string)
    requires SharedOk(fold, sh) && ClientOk(fold, sh, c) && lo <= |sh.log|
    requires !ApprovedIn(Replay(sh.log[..lo]), k)
    requires SawApproved(c, k) ==> ApprovedSince(sh.log, lo, |sh.log|, k)
    ensures var (sh', c') := Act(fold, sh, c, fault);
            && (SawApproved(c', k) ==> ApprovedSince(sh.log, lo, |sh.log|, k))
            && (|sh'.log| > |sh.log| && GatedJobAt(sh'.log[|sh.log|], k) ==> ApprovedSince(sh.log, lo, |sh.log|, k))
  {
    var (sh', c') := Act(fold, sh, c, fault);
    ActKeepsOp(fold, sh, c, fault);
    ActSight(fold, sh, c, fault);
    if c.pc.Start? && SawApproved(c', k) {
      ApprovedMeansSince(sh.log, lo, k);
    }
  }

  lemma {:induction false} NextGateSince(fold: char -> char, w: World, l: Label, lo: nat, k: string)
    requires Inv(fold, w) && GateSince(w, lo, k)
    ensures GateSince(Next(fold, w, l), lo, k)
  {
    var w' := Next(fold, w, l);
    NextOk(fold, w, l);
    assert w'.sh.log[..lo] == w.sh.log[..lo];
    if l.Step? && l.i < |w.clients| {
      ActGateSince(fold, w.sh, w.clients[l.i], l.fault, lo, k);
      ActKeepsOp(fold, w.sh, w.clients[l.i], l.fault);
    }
    forall i | 0 <= i < |w'.clients| && SawApproved(w'.clients[i], k) ensures ApprovedSince(w'.sh.log, lo, |w'.sh.log|, k) {
      ApprovedSinceLater(w.sh.log, w'.sh.log, lo, |w.sh.log|, |w'.sh.log|, k);
    }
    forall j | lo <= j < |w'.sh.log| && GatedJobAt(w'.sh.log[j], k) ensures ApprovedSince(w'.sh.log, lo, j, k) {
      ApprovedSinceLater(w.sh.log, w'.sh.log, lo, if j < |w.sh.log| then j else |w.sh.log|, j, k);
    }
  }

  lemma {:induction false} RunGateSince(fold: char -> char, w: World, labels: seq<Label>, lo: nat, k: string)
    requires Inv(fold, w) && GateSince(w, lo, k)
    ensures GateSince(Run(fold, w, labels), lo, k)
    decreases |labels|
  {
    if labels != [] {
      NextOk(fold, w, labels[0]);
      NextGateSince(fold, w, labels[0], lo, k);
      RunGateSince(fold, Next(fold, w, labels[0]), labels[1..], lo, k);
    }
  }

  /** A fresh approval. Take any moment of any run at which `k` is not approved and no execution under
      way at `k` saw it approved. A gated Job for `k` made after that comes after an authorized approval
      committed since. */
  lemma {:induction false} FreshApproval(fold: char -> char, w0: World, before: seq<Label>, after: seq<Label>, k: string, j: nat)
    requires Initial(w0)
    requires var w := Run(fold, w0, before);
             !ApprovedIn(Data(w.sh), k) && forall i :: 0 <= i < |w.clients| ==> !SawApproved(w.clients[i], k)
    requires |Run(fold, w0, before).sh.log| <= j < |Run(fold, w0, before + after).sh.log|
    requires GatedJobAt(Run(fold, w0, before + after).sh.log[j], k)
    ensures var lo, log := |Run(fold, w0, before).sh.log|, Run(fold, w0, before + after).sh.log;
            exists h :: lo <= h < j && AuthorizedApproval(fold, log[h]) && log[h].key == k
  {
    var w, w' := Run(fold, w0, before), Run(fold, w0, before + after);
    var lo, log := |w.sh.log|, w'.sh.log;
    InitialOk(fold, w0);
    RunOk(fold, w0, before);
    RunConcat(fold, w0, before, after);
    RunOk(fold, w, after);
    assert w.sh.log[..lo] == w.sh.log;
    RunGateSince(fold, w, after, lo, k);
    assert ApprovedSince(log, lo, j, k);
    var h :| lo <= h < j && log[h].Commit? && log[h].key == k && log[h].rec.status == Approved;
    ApprovedIsAuthorized(fold, log[h], w'.sh.now);
  }

  ghost predicate BlindlyWritten(log: seq<Entry>, lo: nat, hi: nat, k: string) {
    hi <= |log| && exists b :: lo <= b < hi && Blind(log[b]) && log[b].key == k
  }

  ghost predicate BlindThenApproved(fold: char -> char, log: seq<Entry>, lo: nat, hi: nat, k: string) {
    hi <= |log| && exists h :: lo <= h < hi && AuthorizedApproval(fold, log[h]) && log[h].key == k && BlindlyWritten(log, lo, h, k)
  }

  lemma {:induction false} ApprovedWasSeen(fold: char -> char, e: Entry, now: nat)
    requires EntryOk(fold, e, now) && e.Commit? && e.rec.status == Approved
    ensures AuthorizedApproval(fold, e) && !Blind(e)
  {
    ApprovedIsAuthorized(fold, e, now);
  }

  lemma {:induction false} ApprovalNeedsBlindWrite(fold: char -> char, w: World, lo: nat, hi: nat, d: nat)
    requires SharedOk(fold, w.sh) && LogTold(w.sh.log) && ActsOnOpenRequests(w.sh.log)
    requires Decided(w.sh.log, d) && Since(w, lo, w.sh.log[d].key)
    requires d < lo <= hi <= |w.sh.log| && Untouched(w.sh.log, d + 1, lo, w.sh.log[d].key)
    requires ApprovedSince(w.sh.log, lo, hi, w.sh.log[d].key)
    ensures BlindThenApproved(fold, w.sh.log, lo, hi, w.sh.log[d].key)
  {
    var log, k := w.sh.log, w.sh.log[d].key;
    var h :| lo <= h < hi && log[h].Commit? && log[h].key == k && log[h].rec.status == Approved;
    assert EntryOk(fold, log[h], w.sh.now);
    ApprovedWasSeen(fold, log[h], w.sh.now);
    TouchedBlindly(w, lo, h, d);
  }

  lemma {:induction false} TouchedBlindly(w: World, lo: nat, h: nat, d: nat)
    requires LogTold(w.sh.log) && ActsOnOpenRequests(w.sh.log)
    requires Decided(w.sh.log, d) && Since(w, lo, w.sh.log[d].key)
    requires d < lo <= h < |w.sh.log| && Untouched(w.sh.log, d + 1, lo, w.sh.log[d].key)
    requires w.sh.log[h].Commit? && w.sh.log[h].key == w.sh.log[d].key && !Blind(w.sh.log[h])
    ensures BlindlyWritten(w.sh.log, lo, h, w.sh.log[d].key)
  {
    if !BlindlyWritten(w.sh.log, lo, h, w.sh.log[d].key) {
      OnlyBlindWritesTouch(w, lo, h + 1, d);
      assert false;
    }
  }

  /** Take any moment of any run at which `k` is denied and every client under way at `k` saw the
      denial, or nothing. A gated Job for `k` made after that comes after an execution that stored a
      new request at `k` blindly and an authorized approval of it. Without a blind write there is none. */
  lemma {:induction false} DeniedNeverRuns(fold: char -> char, w0: World, before: seq<Label>, after: seq<Label>, k: string)
    requires Initial(w0) && Settled(Run(fold, w0, before), k)
    requires var sh := Run(fold, w0, before).sh; k in Data(sh) && Data(sh)[k].status == Denied
    ensures var lo, log := |Run(fold, w0, before).sh.log|, Run(fold, w0, before + after).sh.log;
            && (forall j :: lo <= j < |log| && GatedJobAt(log[j], k) ==> BlindThenApproved(fold, log, lo, j, k))
            && (NoBlindWrite(log, lo, k) ==> forall j :: lo <= j < |log| ==> !GatedJobAt(log[j], k))
  {
    var w, w' := Run(fold, w0, before), Run(fold, w0, before + after);
    var lo := |w.sh.log|;
    InitialOk(fold, w0);
    RunOk(fold, w0, before);
    SettledIsCalm(fold, w, k);
    var d := AfterCalm(fold, w0, before, after, k);
    RunConcat(fold, w0, before, after);
    assert w.sh.log[..lo] == w.sh.log;
    RunGateSince(fold, w, after, lo, k);
    forall j | lo <= j < |w'.sh.log| && GatedJobAt(w'.sh.log[j], k) ensures BlindThenApproved(fold, w'.sh.log, lo, j, k) {
      ApprovalNeedsBlindWrite(fold, w', lo, j, d);
    }
  }

  /** In particular none is made if no later execution's first read of `k` fails. */
  lemma {:induction false} DeniedNeverRunsWhenReadsSucceed(fold: char -> char, w0: World, before: seq<Label>, after: seq<Label>, k: string)
    requires Initial(w0) && Settled(Run(fold, w0, before), k) && Sighted(Run(fold, w0, before), k)
    requires ReadsSucceed(fold, Run(fold, w0, before), after, k)
    requires var sh := Run(fold, w0, before).sh; k in Data(sh) && Data(sh)[k].status == Denied
    ensures var lo, log := |Run(fold, w0, before).sh.log|, Run(fold, w0, before + after).sh.log;
            forall j :: lo <= j < |log| ==> !GatedJobAt(log[j], k)
  {
    InitialOk(fold, w0);
    RunOk(fold, w0, before);
    RunConcat(fold, w0, before, after);
    RunSighted(fold, Run(fold, w0, before), after, k, |Run(fold, w0, before).sh.log|);
    DeniedNeverRuns(fold, w0, before, after, k);
  }

  lemma {:induction false} SettledIsCalm(fold: char -> char, w: World, k: string)
    requires Inv(fold, w) && Settled(w, k)
    ensures Calm(w, k)
  {
    forall i | 0 <= i < |w.clients| && Active(w.clients[i]) && KeyOf(w.clients[i].op) == k ensures Underway(w.clients[i], k) {
      assert ClientOk(fold, w.sh, w.clients[i]);
    }
  }

  lemma {:induction false} RunConcat(fold: char -> char, w: World, before: seq<Label>, after: seq<Label>)
    ensures Run(fold, w, before + after) == Run(fold, Run(fold, w, before), after)
    decreases |before|
  {
    if before == [] {
      assert before + after == after;
    } else {
      assert (before + after)[0] == before[0] && (before + after)[1..] == before[1..] + after;
      RunConcat(fold, Next(fold, w, before[0]), before[1..], after);
    }
  }
}
