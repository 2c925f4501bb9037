/** Two stores that differ only in which expiries have been written down can follow each other step by
    step: whatever a run does from one, a run from the other does too, with the same answers. */
module ApprovalTwins {
  import opened Common
  import opened ApprovalRecords
  import opened ApprovalProtocol
  import opened ProtocolInvariants
  import opened ApprovalSafety
  import opened ApprovalRefinement
  import opened ApprovalFinality
  import opened ApprovalOverlap
  import opened ApprovalExpiry

  ghost predicate TwinStores(sh: Shared, sh': Shared) {
    SameStores(sh, sh') && (sh.cm.Some? <==> sh'.cm.Some?) && sh.jobs == sh'.jobs
  }

  ghost predicate TwinSaw(c: Client, c': Client, now: nat) {
    match c.saw
    case Unread => c'.saw.Unread?
    case Absent => c'.saw.Absent?
    case Found(rec) =>
      && c'.saw.Found?
      && if c.pc.Test? then SameUpToExpiry(rec, c'.saw.rec, now) else View(rec, c.tested) == View(c'.saw.rec, c'.tested)
  }

  predicate WritingExpiry(c: Client) {
    (c.pc.ReRead? || c.pc.Write?) && c.pc.kind == Expiry
  }

  /** The twin of a client that is writing an expiry has lost its expiry write, or had none to do. The
      twin of a write that can still commit can still commit. */
  ghost predicate TwinPc(sh: Shared, sh': Shared, c: Client, c': Client) {
    if WritingExpiry(c) then c'.pc == Decide
    else if c.pc.Write? then
      c'.pc.Write? && c'.pc.rec == c.pc.rec && c'.pc.kind == c.pc.kind && (sh.cm == Some(c.pc.snap) ==> sh'.cm == Some(c'.pc.snap))
    else c'.pc == c.pc
  }

  ghost predicate Twin(sh: Shared, sh': Shared, c: Client, c': Client) {
    c.op == c'.op && c.tested == c'.tested && TwinSaw(c, c', sh.now) && TwinPc(sh, sh', c, c')
  }

  ghost predicate Twins(w: World, w': World) {
    && TwinStores(w.sh, w'.sh)
    && |w.clients| == |w'.clients|
    && forall i :: 0 <= i < |w.clients| ==> Twin(w.sh, w'.sh, w.clients[i], w'.clients[i])
  }

  // ------------------------------------------------------- the other run

  /** What the other run does meanwhile: the same, except that it writes no expiry (a re-read for one is
      dropped), and that a write that lost its version check is dropped. */
  function ShadowStep(fold: char -> char, w: World, w': World, l: Label): seq<Label> {
    if l.Step? && l.i < |w.clients| && l.i < |w'.clients| then
      var c, c' := w.clients[l.i], w'.clients[l.i];
      if WritingExpiry(c) then []
      else if c.pc.Test? && c'.saw.Found? && PastExpiry(c'.saw.rec, w'.sh.now) then [l, Step(l.i, Dropped)]
      else if c.pc.Write? && !Commits(w.sh, c.pc.snap, l.fault) then [Step(l.i, Dropped)]
      else [l]
    else [l]
  }

  function Shadow(fold: char -> char, w: World, w': World, labels: seq<Label>): seq<Label>
    decreases |labels|
  {
    if labels == [] then []
    else
      var s := ShadowStep(fold, w, w', labels[0]);
      s + Shadow(fold, Next(fold, w, labels[0]), Run(fold, w', s), labels[1..])
  }

  lemma {:induction false} RunOne(fold: char -> char, w: World, l: Label)
    ensures Run(fold, w, [l]) == Next(fold, w, l)
    ensures Trace(fold, w, [l]) == EventAt(fold, w, l)
  {
    assert [l][1..] == [];
    assert Run(fold, Next(fold, w, l), []) == Next(fold, w, l);
    assert Trace(fold, Next(fold, w, l), []) == [];
  }

  lemma {:induction false} RunTwo(fold: char -> char, w: World, l: Label, l': Label)
    ensures Run(fold, w, [l, l']) == Next(fold, Next(fold, w, l), l')
    ensures Trace(fold, w, [l, l']) == EventAt(fold, w, l) + EventAt(fold, Next(fold, w, l), l')
  {
    assert [l, l'][1..] == [l'];
    RunOne(fold, Next(fold, w, l), l');
  }

  // --------------------------------------------------------- other clients

  /** How the two stores move together, as seen by a client that does not. */
  ghost predicate MoveTogether(sh: Shared, sh1: Shared, sh': Shared, sh1': Shared) {
    && sh.now <= sh1.now
    && ((sh1.cm == sh.cm && sh1'.cm == sh'.cm)
        || (sh.cm.Some? ==> sh1.cm.Some? && sh.cm.value.version < sh1.cm.value.version))
  }

  lemma {:induction false} BystanderTwin(fold: char -> char, sh: Shared, sh1: Shared, sh': Shared, sh1': Shared, c: Client, c': Client)
    requires Twin(sh, sh', c, c') && ClientOk(fold, sh, c) && MoveTogether(sh, sh1, sh', sh1')
    ensures Twin(sh1, sh1', c, c')
  {}

  lemma {:induction false} SameStoresLater(sh: Shared, sh': Shared, d: nat)
    requires TwinStores(sh, sh')
    ensures TwinStores(sh.(now := sh.now + d), sh'.(now := sh'.now + d))
  {}

  // ------------------------------------------------------- one client step

  /** A step and the step of the twin: the stores and the clients stay alike, and the same operation, if
      any, takes effect. */
  ghost predicate ActTwin(fold: char -> char, sh: Shared, sh': Shared, i: nat, c: Client, c': Client, fault: Fault, fault': Fault) {
    var (sh1, c1), (sh1', c1') := Act(fold, sh, c, fault), Act(fold, sh', c', fault');
    && TwinStores(sh1, sh1') && Twin(sh1, sh1', c1, c1') && MoveTogether(sh, sh1, sh', sh1')
    && EventOf(fold, sh, i, c, fault) == EventOf(fold, sh', i, c', fault')
  }

  lemma {:induction false} TwinStart(fold: char -> char, sh: Shared, sh': Shared, i: nat, c: Client, c': Client, fault: Fault)
    requires TwinStores(sh, sh') && Twin(sh, sh', c, c') && c.pc.Start?
    ensures ActTwin(fold, sh, sh', i, c, c', fault, fault)
  {}

  /** The expiry test sees the same view on both sides; an expiry write to be done there is dropped. */
  lemma {:induction false} TwinTest(sh: Shared, sh': Shared, c: Client, c': Client)
    requires TwinStores(sh, sh') && Twin(sh, sh', c, c') && c.pc.Test? && c.saw.Found?
    ensures var d' := ActTest(sh', c');
            var e' := if d'.pc.ReRead? then ActReRead(sh', d', d'.pc.rec, d'.pc.kind, Dropped) else d';
            && Twin(sh, sh', ActTest(sh, c), e')
            && (d'.pc.ReRead? <==> PastExpiry(c'.saw.rec, sh'.now))
            && (d'.pc.ReRead? ==> d'.pc.kind == Expiry)
  {}

  lemma {:induction false} DecideAlike(fold: char -> char, sh: Shared, sh': Shared, c: Client, c': Client)
    requires sh.now == sh'.now && c.op == c'.op && c.tested == c'.tested && c.pc == Decide == c'.pc
    requires TwinSaw(c, c', sh.now)
    ensures ActDecide(fold, sh, c).pc == ActDecide(fold, sh', c').pc
    ensures !ActDecide(fold, sh, c).pc.Test? && !ActDecide(fold, sh, c).pc.Write? && !WritingExpiry(ActDecide(fold, sh, c))
  {}

  lemma {:induction false} DecideTwin(fold: char -> char, sh: Shared, sh': Shared, c: Client, c': Client)
    requires TwinStores(sh, sh') && Twin(sh, sh', c, c') && c.pc.Decide?
    ensures Twin(sh, sh', ActDecide(fold, sh, c), ActDecide(fold, sh', c'))
  {
    DecideAlike(fold, sh, sh', c, c');
    var d, d' := ActDecide(fold, sh, c), ActDecide(fold, sh', c');
    assert d == c.(pc := d.pc) && d' == c'.(pc := d'.pc);
  }

  lemma {:induction false} DecideEvents(fold: char -> char, sh: Shared, sh': Shared, i: nat, c: Client, c': Client, fault: Fault)
    requires TwinStores(sh, sh') && Twin(sh, sh', c, c') && c.pc.Decide?
    ensures EventOf(fold, sh, i, c, fault) == EventOf(fold, sh', i, c', fault)
  {
    DecideAlike(fold, sh, sh', c, c');
    assert CallOf(c, sh.now) == CallOf(c', sh'.now);
  }

  lemma {:induction false} TwinDecide(fold: char -> char, sh: Shared, sh': Shared, i: nat, c: Client, c': Client, fault: Fault)
    requires TwinStores(sh, sh') && Twin(sh, sh', c, c') && c.pc.Decide?
    ensures ActTwin(fold, sh, sh', i, c, c', fault, fault)
  {
    DecideTwin(fold, sh, sh', c, c');
    DecideEvents(fold, sh, sh', i, c, c', fault);
  }

  lemma {:induction false} ReReadFindsData(fold: char -> char, sh: Shared, c: Client, fault: Fault)
    requires ClientOk(fold, sh, c) && c.pc.ReRead? && c.pc.kind != Creation
    ensures ReadConfigMap(sh, fault).Some? ==> ReadConfigMap(sh, fault).value.data != map[]
  {
    ReReadOk(fold, sh, c, fault);
  }

  lemma {:induction false} ReReadTwin(sh: Shared, sh': Shared, c: Client, c': Client, fault: Fault)
    requires TwinStores(sh, sh') && Twin(sh, sh', c, c') && c.pc.ReRead? && c.pc.kind != Expiry
    requires c.pc.kind != Creation && fault == NoFault && sh.cm.Some? ==> Data(sh) != map[] && Data(sh') != map[]
    ensures Twin(sh, sh', ActReRead(sh, c, c.pc.rec, c.pc.kind, fault), ActReRead(sh', c', c.pc.rec, c.pc.kind, fault))
  {}

  lemma {:induction false} TwinReRead(fold: char -> char, sh: Shared, sh': Shared, i: nat, c: Client, c': Client, fault: Fault)
    requires TwinStores(sh, sh') && Twin(sh, sh', c, c') && c.pc.ReRead? && c.pc.kind != Expiry
    requires ClientOk(fold, sh, c) && ClientOk(fold, sh', c')
    ensures ActTwin(fold, sh, sh', i, c, c', fault, fault)
  {
    if c.pc.kind != Creation {
      ReReadFindsData(fold, sh, c, fault);
      ReReadFindsData(fold, sh', c', fault);
    }
    ReReadTwin(sh, sh', c, c', fault);
  }

  lemma {:induction false} TwinNewObject(fold: char -> char, sh: Shared, sh': Shared, i: nat, c: Client, c': Client, fault: Fault)
    requires TwinStores(sh, sh') && Twin(sh, sh', c, c') && c.pc.NewObject?
    ensures ActTwin(fold, sh, sh', i, c, c', fault, fault)
  {}

  lemma {:induction false} TwinStoresUpdate(sh: Shared, sh': Shared, sh1: Shared, sh1': Shared, k: string, rec: Request)
    requires TwinStores(sh, sh')
    requires Data(sh1) == Data(sh)[k := rec] && Data(sh1') == Data(sh')[k := rec]
    requires sh1.now == sh.now && sh1'.now == sh'.now && sh1.cm.Some? && sh1'.cm.Some? && sh1.jobs == sh.jobs && sh1'.jobs == sh'.jobs
    ensures TwinStores(sh1, sh1')
  {}

  lemma {:induction false} AfterWriteTwin(sh: Shared, sh': Shared, c: Client, c': Client, ok: bool)
    requires c.op == c'.op && c.tested == c'.tested && TwinSaw(c, c', sh.now) && !c.pc.Test? && c.pc.Write? && c'.pc.Write?
    requires c.pc.kind == c'.pc.kind != Expiry
    ensures Twin(sh, sh', AfterWrite(c, c.pc.kind, ok), AfterWrite(c', c'.pc.kind, ok))
  {}

  lemma {:induction false} CommitStores(fold: char -> char, sh: Shared, sh': Shared, c: Client, c': Client, fault: Fault)
    requires TwinStores(sh, sh') && Twin(sh, sh', c, c') && c.pc.Write? && c.pc.kind != Expiry
    requires SharedOk(fold, sh) && SharedOk(fold, sh') && ClientOk(fold, sh, c) && ClientOk(fold, sh', c')
    requires Commits(sh, c.pc.snap, fault)
    ensures Commits(sh', c'.pc.snap, fault)
    ensures TwinStores(Store(sh, c.pc.snap, EntryOf(c, c.pc.rec, c.pc.kind)), Store(sh', c'.pc.snap, EntryOf(c', c'.pc.rec, c'.pc.kind)))
  {
    assert sh.cm == Some(c.pc.snap);
    CommitOk(fold, sh, c, fault);
    CommitOk(fold, sh', c', fault);
    TwinStoresUpdate(sh, sh', Store(sh, c.pc.snap, EntryOf(c, c.pc.rec, c.pc.kind)),
                     Store(sh', c'.pc.snap, EntryOf(c', c'.pc.rec, c'.pc.kind)), KeyOf(c.op), c.pc.rec);
  }

  /** A final write that commits, on both sides. */
  lemma {:induction false} TwinCommit(fold: char -> char, sh: Shared, sh': Shared, i: nat, c: Client, c': Client, fault: Fault)
    requires TwinStores(sh, sh') && Twin(sh, sh', c, c') && c.pc.Write? && c.pc.kind != Expiry
    requires SharedOk(fold, sh) && SharedOk(fold, sh') && ClientOk(fold, sh, c) && ClientOk(fold, sh', c')
    requires Commits(sh, c.pc.snap, fault)
    ensures ActTwin(fold, sh, sh', i, c, c', fault, fault)
  {
    CommitStores(fold, sh, sh', c, c', fault);
    var sh1, sh1' := Act(fold, sh, c, fault).0, Act(fold, sh', c', fault).0;
    AfterWriteTwin(sh1, sh1', c, c', fault == NoFault);
    assert CallOf(c, StampOf(c.op, c.pc.rec)) == CallOf(c', StampOf(c'.op, c'.pc.rec));
  }

  lemma {:induction false} TwinLostWrite(fold: char -> char, sh: Shared, sh': Shared, i: nat, c: Client, c': Client, fault: Fault)
    requires TwinStores(sh, sh') && Twin(sh, sh', c, c') && c.pc.Write? && c.pc.kind != Expiry
    requires !Commits(sh, c.pc.snap, fault)
    ensures ActTwin(fold, sh, sh', i, c, c', fault, Dropped)
  {}

  lemma {:induction false} TwinStoresExpiry(sh: Shared, sh': Shared, sh1: Shared, k: string)
    requires TwinStores(sh, sh') && k in Data(sh) && PastExpiry(Data(sh)[k], sh.now)
    requires Data(sh1) == Data(sh)[k := ExpiredCopy(Data(sh)[k])]
    requires sh1.now == sh.now && sh.cm.Some? && sh1.cm.Some? && sh1.jobs == sh.jobs
    ensures TwinStores(sh1, sh')
  {}

  lemma {:induction false} ExpiryStores(fold: char -> char, sh: Shared, sh': Shared, c: Client, fault: Fault)
    requires TwinStores(sh, sh') && WritingExpiry(c) && c.pc.Write? && Commits(sh, c.pc.snap, fault)
    requires SharedOk(fold, sh) && ClientOk(fold, sh, c) && Current(sh, c)
    ensures TwinStores(Store(sh, c.pc.snap, EntryOf(c, c.pc.rec, Expiry)), sh')
  {
    CommitOk(fold, sh, c, fault);
    TwinStoresExpiry(sh, sh', Store(sh, c.pc.snap, EntryOf(c, c.pc.rec, Expiry)), KeyOf(c.op));
  }

  /** An expiry that one side writes down and the other does not. */
  lemma {:induction false} TwinExpiry(fold: char -> char, sh: Shared, sh': Shared, i: nat, c: Client, c': Client, fault: Fault)
    requires TwinStores(sh, sh') && Twin(sh, sh', c, c') && WritingExpiry(c)
    requires SharedOk(fold, sh) && ClientOk(fold, sh, c) && Current(sh, c)
    ensures var (sh1, c1) := Act(fold, sh, c, fault);
            TwinStores(sh1, sh') && Twin(sh1, sh', c1, c') && MoveTogether(sh, sh1, sh', sh')
    ensures EventOf(fold, sh, i, c, fault) == None
  {
    if c.pc.Write? {
      if Commits(sh, c.pc.snap, fault) {
        ExpiryStores(fold, sh, sh', c, fault);
      }
    } else {
      ReReadFindsData(fold, sh, c, fault);
    }
  }

  lemma {:induction false} TwinCreateJob(fold: char -> char, sh: Shared, sh': Shared, i: nat, c: Client, c': Client, fault: Fault)
    requires TwinStores(sh, sh') && Twin(sh, sh', c, c') && c.pc.CreateJob? && c.op.Execute?
    ensures ActTwin(fold, sh, sh', i, c, c', fault, fault)
  {}

  lemma {:induction false} TwinDone(fold: char -> char, sh: Shared, sh': Shared, i: nat, c: Client, c': Client, fault: Fault)
    requires TwinStores(sh, sh') && Twin(sh, sh', c, c') && c.pc.Done?
    ensures ActTwin(fold, sh, sh', i, c, c', fault, fault)
  {}

  /** The acting client and its twin. */
  ghost predicate ActTogether(fold: char -> char, w: World, w': World, l: Label)
    requires l.Step? && l.i < |w.clients| == |w'.clients|
  {
    var w1, w1' := Next(fold, w, l), Run(fold, w', ShadowStep(fold, w, w', l));
    && TwinStores(w1.sh, w1'.sh) && MoveTogether(w.sh, w1.sh, w'.sh, w1'.sh)
    && |w1'.clients| == |w'.clients| && Twin(w1.sh, w1'.sh, w1.clients[l.i], w1'.clients[l.i])
    && (forall j :: 0 <= j < |w'.clients| && j != l.i ==> w1'.clients[j] == w'.clients[j])
    && Trace(fold, w', ShadowStep(fold, w, w', l)) == EventAt(fold, w, l)
  }

  lemma {:induction false} OneStepTogether(fold: char -> char, w: World, w': World, l: Label, fault': Fault)
    requires l.Step? && l.i < |w.clients| == |w'.clients|
    requires ShadowStep(fold, w, w', l) == [Step(l.i, fault')]
    requires ActTwin(fold, w.sh, w'.sh, l.i, w.clients[l.i], w'.clients[l.i], l.fault, fault')
    ensures ActTogether(fold, w, w', l)
  {
    RunOne(fold, w', Step(l.i, fault'));
  }

  lemma {:induction false} NoStepTogether(fold: char -> char, w: World, w': World, l: Label)
    requires l.Step? && l.i < |w.clients| == |w'.clients| && ShadowStep(fold, w, w', l) == []
    requires var (sh1, c1) := Act(fold, w.sh, w.clients[l.i], l.fault);
             TwinStores(sh1, w'.sh) && Twin(sh1, w'.sh, c1, w'.clients[l.i]) && MoveTogether(w.sh, sh1, w'.sh, w'.sh)
    requires EventOf(fold, w.sh, l.i, w.clients[l.i], l.fault) == None
    ensures ActTogether(fold, w, w', l)
  {
    assert Run(fold, w', []) == w' && Trace(fold, w', []) == [];
  }

  lemma {:induction false} TestTogether(fold: char -> char, w: World, w': World, l: Label)
    requires l.Step? && l.i < |w.clients| == |w'.clients| && w.clients[l.i].pc.Test? && w.clients[l.i].saw.Found?
    requires TwinStores(w.sh, w'.sh) && Twin(w.sh, w'.sh, w.clients[l.i], w'.clients[l.i])
    ensures ActTogether(fold, w, w', l)
  {
    var c, c' := w.clients[l.i], w'.clients[l.i];
    TwinTest(w.sh, w'.sh, c, c');
    if PastExpiry(c'.saw.rec, w'.sh.now) {
      TestAndDrop(fold, w', l);
    } else {
      RunOne(fold, w', l);
    }
  }

  /** The test, and the dropped re-read after it. */
  lemma {:induction false} TestAndDrop(fold: char -> char, w: World, l: Label)
    requires l.Step? && l.i < |w.clients| && w.clients[l.i].pc.Test? && w.clients[l.i].saw.Found?
    requires PastExpiry(w.clients[l.i].saw.rec, w.sh.now)
    ensures var c := ActTest(w.sh, w.clients[l.i]);
            Run(fold, w, [l, Step(l.i, Dropped)]) == World(w.sh, w.clients[l.i := ActReRead(w.sh, c, c.pc.rec, c.pc.kind, Dropped)])
    ensures Trace(fold, w, [l, Step(l.i, Dropped)]) == []
  {
    RunTwo(fold, w, l, Step(l.i, Dropped));
  }

  lemma {:induction false} WriteTogether(fold: char -> char, w: World, w': World, l: Label)
    requires l.Step? && l.i < |w.clients| == |w'.clients| && w.clients[l.i].pc.Write? && w.clients[l.i].pc.kind != Expiry
    requires SharedOk(fold, w.sh) && SharedOk(fold, w'.sh) && ClientOk(fold, w.sh, w.clients[l.i]) && ClientOk(fold, w'.sh, w'.clients[l.i])
    requires TwinStores(w.sh, w'.sh) && Twin(w.sh, w'.sh, w.clients[l.i], w'.clients[l.i])
    ensures ActTogether(fold, w, w', l)
  {
    var c, c' := w.clients[l.i], w'.clients[l.i];
    if Commits(w.sh, c.pc.snap, l.fault) {
      TwinCommit(fold, w.sh, w'.sh, l.i, c, c', l.fault);
      OneStepTogether(fold, w, w', l, l.fault);
    } else {
      TwinLostWrite(fold, w.sh, w'.sh, l.i, c, c', l.fault);
      OneStepTogether(fold, w, w', l, Dropped);
    }
  }

  lemma {:induction false} ExpiryTogether(fold: char -> char, w: World, w': World, l: Label)
    requires l.Step? && l.i < |w.clients| == |w'.clients| && WritingExpiry(w.clients[l.i])
    requires SharedOk(fold, w.sh) && ClientOk(fold, w.sh, w.clients[l.i]) && Current(w.sh, w.clients[l.i])
    requires TwinStores(w.sh, w'.sh) && Twin(w.sh, w'.sh, w.clients[l.i], w'.clients[l.i])
    ensures ActTogether(fold, w, w', l)
  {
    var c, c' := w.clients[l.i], w'.clients[l.i];
    TwinExpiry(fold, w.sh, w'.sh, l.i, c, c', l.fault);
    NoStepTogether(fold, w, w', l);
  }

  lemma {:induction false} OthersTogether(fold: char -> char, w: World, w': World, l: Label)
    requires l.Step? && l.i < |w.clients| == |w'.clients|
    requires !w.clients[l.i].pc.Test? && !w.clients[l.i].pc.Write? && !WritingExpiry(w.clients[l.i])
    requires ClientOk(fold, w.sh, w.clients[l.i]) && ClientOk(fold, w'.sh, w'.clients[l.i])
    requires TwinStores(w.sh, w'.sh) && Twin(w.sh, w'.sh, w.clients[l.i], w'.clients[l.i])
    ensures ActTogether(fold, w, w', l)
  {
    var c, c' := w.clients[l.i], w'.clients[l.i];
    match c.pc {
      case Start => TwinStart(fold, w.sh, w'.sh, l.i, c, c', l.fault);
      case Decide => TwinDecide(fold, w.sh, w'.sh, l.i, c, c', l.fault);
      case ReRead(_, _) => TwinReRead(fold, w.sh, w'.sh, l.i, c, c', l.fault);
      case NewObject(_) => TwinNewObject(fold, w.sh, w'.sh, l.i, c, c', l.fault);
      case CreateJob => TwinCreateJob(fold, w.sh, w'.sh, l.i, c, c', l.fault);
      case Done(_) => TwinDone(fold, w.sh, w'.sh, l.i, c, c', l.fault);
    }
    OneStepTogether(fold, w, w', l, l.fault);
  }

  // ------------------------------------------------------- the whole system

  lemma {:induction false} ClientStepTwins(fold: char -> char, w: World, w': World, l: Label)
    requires Inv(fold, w) && Inv(fold, w') && AllCurrent(w) && Twins(w, w')
    requires l.Step? && l.i < |w.clients|
    ensures Twins(Next(fold, w, l), Run(fold, w', ShadowStep(fold, w, w', l)))
    ensures Trace(fold, w', ShadowStep(fold, w, w', l)) == EventAt(fold, w, l)
  {
    var c := w.clients[l.i];
    assert ClientOk(fold, w.sh, c) && ClientOk(fold, w'.sh, w'.clients[l.i]) && Twin(w.sh, w'.sh, c, w'.clients[l.i]);
    if WritingExpiry(c) {
      ExpiryTogether(fold, w, w', l);
    } else if c.pc.Test? {
      TestTogether(fold, w, w', l);
    } else if c.pc.Write? {
      WriteTogether(fold, w, w', l);
    } else {
      OthersTogether(fold, w, w', l);
    }
    var w1, w1' := Next(fold, w, l), Run(fold, w', ShadowStep(fold, w, w', l));
    forall j | 0 <= j < |w1.clients| ensures Twin(w1.sh, w1'.sh, w1.clients[j], w1'.clients[j]) {
      if j != l.i {
        BystanderTwin(fold, w.sh, w1.sh, w'.sh, w1'.sh, w.clients[j], w'.clients[j]);
      }
    }
  }

  lemma {:induction false} StepTwins(fold: char -> char, w: World, w': World, l: Label)
    requires Inv(fold, w) && Inv(fold, w') && AllCurrent(w) && Twins(w, w')
    ensures Twins(Next(fold, w, l), Run(fold, w', ShadowStep(fold, w, w', l)))
    ensures Trace(fold, w', ShadowStep(fold, w, w', l)) == EventAt(fold, w, l)
  {
    if l.Step? && l.i < |w.clients| {
      ClientStepTwins(fold, w, w', l);
    } else {
      RunOne(fold, w', l);
      var w1, w1' := Next(fold, w, l), Next(fold, w', l);
      if l.Tick? {
        SameStoresLater(w.sh, w'.sh, l.d);
      }
      forall j | 0 <= j < |w1.clients| ensures Twin(w1.sh, w1'.sh, w1.clients[j], w1'.clients[j]) {
        if j < |w.clients| {
          BystanderTwin(fold, w.sh, w1.sh, w'.sh, w1'.sh, w.clients[j], w'.clients[j]);
        }
      }
    }
  }

  lemma {:induction false} TwinsExclusive(w: World, w': World)
    requires Twins(w, w') && Exclusive(w)
    ensures Exclusive(w')
  {
    forall i | 0 <= i < |w'.clients| ensures Active(w'.clients[i]) == Active(w.clients[i]) && w'.clients[i].op == w.clients[i].op {
      assert Twin(w.sh, w'.sh, w.clients[i], w'.clients[i]);
    }
  }

  lemma {:induction false} ExclusiveOne(fold: char -> char, w: World, l: Label)
    requires Exclusive(w) && Exclusive(Next(fold, w, l))
    ensures ExclusiveRun(fold, w, [l])
  {
    assert [l][1..] == [];
    assert ExclusiveRun(fold, Next(fold, w, l), []);
  }

  /** A client inside the store may move without an overlap arising. */
  lemma {:induction false} ExclusiveTwo(fold: char -> char, w: World, l: Label, l': Label)
    requires Exclusive(w) && Exclusive(Run(fold, w, [l, l']))
    requires l.Step? && l.i < |w.clients| && Active(w.clients[l.i])
    ensures ExclusiveRun(fold, w, [l, l'])
  {
    ActKeepsOp(fold, w.sh, w.clients[l.i], l.fault);
    assert Exclusive(Next(fold, w, l));
    RunTwo(fold, w, l, l');
    ExclusiveOne(fold, Next(fold, w, l), l');
    assert [l, l'][1..] == [l'];
  }

  lemma {:induction false} ExclusiveShort(fold: char -> char, w: World, s: seq<Label>)
    requires Exclusive(w) && Exclusive(Run(fold, w, s)) && |s| <= 2
    requires |s| == 2 ==> s[0].Step? && s[0].i < |w.clients| && Active(w.clients[s[0].i])
    ensures ExclusiveRun(fold, w, s)
  {
    if |s| == 2 {
      assert s == [s[0], s[1]];
      ExclusiveTwo(fold, w, s[0], s[1]);
    } else if |s| == 1 {
      assert s == [s[0]];
      RunOne(fold, w, s[0]);
      ExclusiveOne(fold, w, s[0]);
    }
  }

  lemma {:induction false} ShadowStepExclusive(fold: char -> char, w: World, w': World, l: Label)
    requires Inv(fold, w) && Inv(fold, w') && AllCurrent(w) && Twins(w, w') && Exclusive(w) && Exclusive(Next(fold, w, l))
    ensures ExclusiveRun(fold, w', ShadowStep(fold, w, w', l))
  {
    StepTwins(fold, w, w', l);
    TwinsExclusive(w, w');
    TwinsExclusive(Next(fold, w, l), Run(fold, w', ShadowStep(fold, w, w', l)));
    ExclusiveShort(fold, w', ShadowStep(fold, w, w', l));
  }

  lemma {:induction false} TraceConcat(fold: char -> char, w: World, before: seq<Label>, after: seq<Label>)
    ensures Trace(fold, w, before + after) == Trace(fold, w, before) + Trace(fold, Run(fold, w, before), after)
    decreases |before|
  {
    if before == [] {
      assert before + after == after;
    } else {
      assert (before + after)[0] == before[0] && (before + after)[1..] == before[1..] + after;
      TraceConcat(fold, Next(fold, w, before[0]), before[1..], after);
    }
  }

  lemma {:induction false} RunTwins(fold: char -> char, w: World, w': World, labels: seq<Label>)
    requires Inv(fold, w) && Inv(fold, w') && AllCurrent(w) && Twins(w, w') && ExclusiveRun(fold, w, labels)
    ensures var labels' := Shadow(fold, w, w', labels);
            && Twins(Run(fold, w, labels), Run(fold, w', labels'))
            && Trace(fold, w', labels') == Trace(fold, w, labels)
            && ExclusiveRun(fold, w', labels')
    decreases |labels|
  {
    if labels == [] {
      TwinsExclusive(w, w');
    } else {
      var l, s := labels[0], ShadowStep(fold, w, w', labels[0]);
      var w1, w1' := Next(fold, w, l), Run(fold, w', s);
      StepTwins(fold, w, w', l);
      ShadowStepExclusive(fold, w, w', l);
      NextOk(fold, w, l);
      RunOk(fold, w', s);
      StepStaysCurrent(fold, Data(w.sh), w, l);
      RunTwins(fold, w1, w1', labels[1..]);
      var rest := Shadow(fold, w1, w1', labels[1..]);
      RunConcat(fold, w', s, rest);
      TraceConcat(fold, w', s, rest);
      ExclusiveConcat(fold, w', s, rest);
    }
  }

  /** Nobody is inside the store, and the two stores differ only in which expiries are written down. */
  ghost predicate SameButExpiries(fold: char -> char, w: World, w': World) {
    && Inv(fold, w) && Inv(fold, w') && TwinStores(w.sh, w'.sh) && w.clients == w'.clients
    && forall i :: 0 <= i < |w.clients| ==> !Active(w.clients[i])
  }

  /** The same call, which on both sides is still inside the store, or ended alike. */
  predicate EndAlike(c: Client, c': Client) {
    c.op == c'.op && (Active(c) <==> Active(c')) && (!Active(c) ==> c.pc == c'.pc)
  }

  /** Which expiries have been written down cannot be observed: for every run without overlap from one
      of the two there is a run without overlap from the other in which the same calls take effect with
      the same clock readings and answers, every call ends as it did, failures included, and at the end
      the stores again differ only in expiries written down. The relation is symmetric. */
  lemma {:induction false} ExpiryWriteBisimilar(fold: char -> char, w: World, w': World, labels: seq<Label>)
    requires SameButExpiries(fold, w, w') && ExclusiveRun(fold, w, labels)
    ensures SameButExpiries(fold, w', w)
    ensures exists labels': seq<Label> ::
              var v, v' := Run(fold, w, labels), Run(fold, w', labels');
              && ExclusiveRun(fold, w', labels')
              && Trace(fold, w', labels') == Trace(fold, w, labels)
              && TwinStores(v.sh, v'.sh) && |v.clients| == |v'.clients|
              && forall i :: 0 <= i < |v.clients| ==> EndAlike(v.clients[i], v'.clients[i])
  {
    assert Twins(w, w');
    RunTwins(fold, w, w', labels);
    var labels' := Shadow(fold, w, w', labels);
    var v, v' := Run(fold, w, labels), Run(fold, w', labels');
    forall i | 0 <= i < |v.clients|
      ensures EndAlike(v.clients[i], v'.clients[i])
    {
      assert Twin(v.sh, v'.sh, v.clients[i], v'.clients[i]);
    }
  }
}
