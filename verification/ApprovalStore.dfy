/** `ConfigMapStore` and `Checker` as they are written: objects over an API server whose methods
    read, re-read and write. Run with nobody else about, a method does exactly what its client does
    in the step protocol, so the two descriptions of the code agree. */
module ApprovalStore {
  import opened Common
  import opened ApprovalRecords
  import opened ApprovalProtocol
  import opened ProtocolInvariants
  import opened ApprovalSafety
  import opened ApprovalRefinement
  import JB = JobBuilder

  // ------------------------------------------------ one client on its own

  /** What happens around one call or one reading of the clock: how much time passes before it, and
      whether it fails. */
  datatype Turn = Turn(lag: nat, fault: Fault)

  function NextTurn(turns: seq<Turn>): Turn {
    if turns == [] then Turn(0, NoFault) else turns[0]
  }

  function LaterTurns(turns: seq<Turn>): seq<Turn> {
    if turns == [] then [] else turns[1..]
  }

  datatype Machine = Machine(sh: Shared, c: Client, turns: seq<Turn>)

  function Delayed(sh: Shared, turns: seq<Turn>): Shared {
    sh.(now := sh.now + NextTurn(turns).lag)
  }

  function SoloStep(fold: char -> char, m: Machine): Machine {
    var (sh, c) := Act(fold, Delayed(m.sh, m.turns), m.c, NextTurn(m.turns).fault);
    Machine(sh, c, LaterTurns(m.turns))
  }

  function Solo(fold: char -> char, m: Machine, n: nat): Machine
    decreases n
  {
    if n == 0 then m else Solo(fold, SoloStep(fold, m), n - 1)
  }

  /** `m'` is where the client gets to from `m` on its own. */
  ghost predicate Leads(fold: char -> char, m: Machine, m': Machine) {
    exists n: nat :: m' == Solo(fold, m, n)
  }

  lemma {:induction false} SoloConcat(fold: char -> char, m: Machine, n: nat, n': nat)
    ensures Solo(fold, m, n + n') == Solo(fold, Solo(fold, m, n), n')
    decreases n
  {
    if n > 0 {
      SoloConcat(fold, SoloStep(fold, m), n - 1, n');
    }
  }

  lemma {:induction false} LeadsOn(fold: char -> char, m: Machine, m1: Machine, m2: Machine)
    requires Leads(fold, m, m1) && Leads(fold, m1, m2)
    ensures Leads(fold, m, m2)
  {
    var n: nat :| m1 == Solo(fold, m, n);
    var n': nat :| m2 == Solo(fold, m1, n');
    SoloConcat(fold, m, n, n');
  }

  lemma {:induction false} StepLeads(fold: char -> char, m: Machine)
    ensures Leads(fold, m, SoloStep(fold, m))
  {
    assert Solo(fold, SoloStep(fold, m), 0) == SoloStep(fold, m);
    assert Solo(fold, m, 1) == SoloStep(fold, m);
  }

  lemma {:induction false} StepLeadsOn(fold: char -> char, m: Machine, m1: Machine)
    requires Leads(fold, m, m1)
    ensures Leads(fold, m, SoloStep(fold, m1))
  {
    StepLeads(fold, m1);
    LeadsOn(fold, m, m1, SoloStep(fold, m1));
  }

  function SoloLabels(turns: seq<Turn>, n: nat): seq<Label>
    decreases n
  {
    if n == 0 then [] else [Tick(NextTurn(turns).lag), Step(0, NextTurn(turns).fault)] + SoloLabels(LaterTurns(turns), n - 1)
  }

  /** A solo run is a run of the protocol, so what holds of every run holds of it. */
  lemma {:induction false} SoloIsRun(fold: char -> char, m: Machine, n: nat)
    ensures Run(fold, World(m.sh, [m.c]), SoloLabels(m.turns, n)) == World(Solo(fold, m, n).sh, [Solo(fold, m, n).c])
    decreases n
  {
    if n > 0 {
      var labels := SoloLabels(m.turns, n);
      var w, m1 := World(m.sh, [m.c]), SoloStep(fold, m);
      var w1 := Next(fold, w, labels[0]);
      assert w1 == World(Delayed(m.sh, m.turns), [m.c]);
      assert Next(fold, w1, labels[1]) == World(m1.sh, [m1.c]);
      assert labels[1..][0] == labels[1] && labels[1..][1..] == SoloLabels(LaterTurns(m.turns), n - 1);
      SoloIsRun(fold, m1, n - 1);
    }
  }

  ghost predicate MachineOk(fold: char -> char, m: Machine) {
    SharedOk(fold, m.sh) && ClientOk(fold, m.sh, m.c)
  }

  lemma {:induction false} SoloStepOk(fold: char -> char, m: Machine)
    requires MachineOk(fold, m)
    ensures MachineOk(fold, SoloStep(fold, m))
    ensures SharedOk(fold, Delayed(m.sh, m.turns)) && ClientOk(fold, Delayed(m.sh, m.turns), m.c)
  {
    var sh := Delayed(m.sh, m.turns);
    LogOkLater(fold, m.sh.log, m.sh.now, sh.now);
    ClientOkLater(fold, m.sh, sh, m.c);
    ActOk(fold, sh, m.c, NextTurn(m.turns).fault);
  }

  lemma {:induction false} SoloOk(fold: char -> char, m: Machine, n: nat)
    requires MachineOk(fold, m)
    ensures MachineOk(fold, Solo(fold, m, n))
    decreases n
  {
    if n > 0 {
      SoloStepOk(fold, m);
      SoloOk(fold, SoloStep(fold, m), n - 1);
    }
  }

  lemma {:induction false} LeadsOk(fold: char -> char, m: Machine, m': Machine)
    requires MachineOk(fold, m) && Leads(fold, m, m')
    ensures MachineOk(fold, m')
  {
    var n: nat :| m' == Solo(fold, m, n);
    SoloOk(fold, m, n);
  }

  // ---------------------------------------- alone, a call is served atomically

  /** The call took effect as one operation of the atomic map, its clock readings taken while it ran;
      only its reply may have been lost. Or it failed and took no effect. */
  ghost predicate ServedOnce(fold: char -> char, op: Op, sh: Shared, sh': Shared, o: Outcome) {
    || (o == Failed && Related(Data(sh), sh'))
    || (exists call: Call ::
          && call.op == op && sh.now <= call.tested <= call.at <= sh'.now
          && (o == Failed || o == Serve(fold, Data(sh), call).1)
          && Related(Serve(fold, Data(sh), call).0, sh'))
  }

  lemma {:induction false} SoloExclusive(fold: char -> char, m: Machine, n: nat)
    ensures ExclusiveRun(fold, World(m.sh, [m.c]), SoloLabels(m.turns, n))
    decreases n
  {
    if n > 0 {
      var labels := SoloLabels(m.turns, n);
      var w, m1 := World(m.sh, [m.c]), SoloStep(fold, m);
      var w1 := Next(fold, w, labels[0]);
      assert w1 == World(Delayed(m.sh, m.turns), [m.c]);
      assert Next(fold, w1, labels[1]) == World(m1.sh, [m1.c]);
      assert labels[1..][0] == labels[1] && labels[1..][1..] == SoloLabels(LaterTurns(m.turns), n - 1);
      SoloExclusive(fold, m1, n - 1);
    }
  }

  lemma {:induction false} SoloKeepsOp(fold: char -> char, m: Machine, n: nat)
    ensures Solo(fold, m, n).c.op == m.c.op
    decreases n
  {
    if n > 0 {
      ActKeepsOp(fold, Delayed(m.sh, m.turns), m.c, NextTurn(m.turns).fault);
      SoloKeepsOp(fold, SoloStep(fold, m), n - 1);
    }
  }

  lemma {:induction false} OnlyOneEvent(w: World, trace: seq<Event>)
    requires TraceOk(w, trace) && |w.clients| == 1
    ensures |trace| <= 1
  {
    assert |trace| > 1 ==> trace[0].client != trace[1].client;
  }

  lemma {:induction false} ServedByTrace(fold: char -> char, sh: Shared, sh': Shared, c: Client, trace: seq<Event>)
    requires TraceOk(World(sh', [c]), trace) && AnswersAgree(fold, Data(sh), trace)
    requires Related(ServeAll(fold, Data(sh), trace), sh')
    requires forall n :: 0 <= n < |trace| ==> sh.now <= trace[n].call.tested <= trace[n].call.at <= sh'.now
    requires c.pc.Done? && c.pc.outcome != Crashed && !c.op.Execute?
    ensures ServedOnce(fold, c.op, sh, sh', c.pc.outcome)
  {
    OnlyOneEvent(World(sh', [c]), trace);
    assert World(sh', [c]).clients[0] == c;
    assert Answered(c, 0, trace);
    if trace != [] {
      assert trace == [trace[0]];
      OneEvent(fold, Data(sh), trace[0]);
      assert trace[0].call.op == c.op;
    }
  }

  lemma {:induction false} SoloSimulates(fold: char -> char, m: Machine, n: nat)
    requires MachineOk(fold, m) && m.c == NewClient(m.c.op)
    ensures var m', trace := Solo(fold, m, n), Trace(fold, World(m.sh, [m.c]), SoloLabels(m.turns, n));
            && AnswersAgree(fold, Data(m.sh), trace)
            && Related(ServeAll(fold, Data(m.sh), trace), m'.sh)
  {
    SoloIsRun(fold, m, n);
    SoloExclusive(fold, m, n);
    RunSimulates(fold, Data(m.sh), World(m.sh, [m.c]), SoloLabels(m.turns, n));
  }

  lemma {:induction false} SoloReports(fold: char -> char, m: Machine, n: nat)
    requires MachineOk(fold, m) && m.c == NewClient(m.c.op)
    ensures var m', trace := Solo(fold, m, n), Trace(fold, World(m.sh, [m.c]), SoloLabels(m.turns, n));
            && TraceOk(World(m'.sh, [m'.c]), trace)
            && forall k :: 0 <= k < |trace| ==> m.sh.now <= trace[k].call.tested <= trace[k].call.at <= m'.sh.now
  {
    var w, labels := World(m.sh, [m.c]), SoloLabels(m.turns, n);
    SoloIsRun(fold, m, n);
    RunReports(fold, w, labels, []);
    assert [] + Trace(fold, w, labels) == Trace(fold, w, labels);
    TraceTimely(fold, w, labels, m.sh.now);
  }

  /** Every complete solo run of `Approve` or `Deny` is one operation of the atomic map. */
  lemma {:induction false} SoloServes(fold: char -> char, m: Machine, m': Machine)
    requires MachineOk(fold, m) && m.c == NewClient(m.c.op) && !m.c.op.Execute?
    requires Leads(fold, m, m') && m'.c.pc.Done?
    ensures ServedOnce(fold, m.c.op, m.sh, m'.sh, m'.c.pc.outcome)
  {
    var n: nat :| m' == Solo(fold, m, n);
    SoloKeepsOp(fold, m, n);
    SoloOk(fold, m, n);
    SoloSimulates(fold, m, n);
    SoloReports(fold, m, n);
    ServedByTrace(fold, m.sh, m'.sh, m'.c, Trace(fold, World(m.sh, [m.c]), SoloLabels(m.turns, n)));
  }

  // ------------------------------------------------------------ API server

  class ApiServer {
    var cm: Option<ConfigMap>
    var jobs: map<string, Plan>
    var now: nat
    var turns: seq<Turn>
    var objects: map<string, JB.Job>
    ghost var log: seq<Entry>

    ghost function State(): Shared
      reads this
    {
      Shared(cm, jobs, now, log)
    }

    constructor ()
      ensures State() == Shared(None, map[], 0, []) && turns == []
    {
      cm, jobs, now, turns, objects := None, map[], 0, [], map[];
      log := [];
    }

    method Advance() returns (fault: Fault)
      modifies `now, `turns
      ensures State() == Delayed(old(State()), old(turns))
      ensures fault == NextTurn(old(turns)).fault && turns == LaterTurns(old(turns))
    {
      fault := NextTurn(turns).fault;
      now := now + NextTurn(turns).lag;
      turns := LaterTurns(turns);
    }

    method Now() returns (t: nat)
      modifies `now, `turns
      ensures State() == Delayed(old(State()), old(turns)) && turns == LaterTurns(old(turns))
      ensures t == now
    {
      var _ := Advance();
      t := now;
    }

    method GetConfigMap() returns (r: Option<ConfigMap>, failed: bool)
      modifies `now, `turns
      ensures State() == Delayed(old(State()), old(turns)) && turns == LaterTurns(old(turns))
      ensures failed == (NextTurn(old(turns)).fault != NoFault)
      ensures r == ReadConfigMap(State(), NextTurn(old(turns)).fault)
    {
      var fault := Advance();
      failed := fault != NoFault;
      r := if failed then None else cm;
    }

    method UpdateConfigMap(sent: ConfigMap, ghost snap: ConfigMap, ghost entry: Entry) returns (ok: bool)
      requires entry.Commit? && sent == ConfigMap(snap.version, snap.data[entry.key := entry.rec])
      modifies `now, `turns, `cm, `log
      ensures turns == LaterTurns(old(turns))
      ensures var sh, fault := Delayed(old(State()), old(turns)), NextTurn(old(turns)).fault;
              && State() == (if Commits(sh, snap, fault) then Store(sh, snap, entry) else sh)
              && ok == (Commits(sh, snap, fault) && fault == NoFault)
    {
      var fault := Advance();
      ok := false;
      if cm.Some? && cm.value.version == sent.version && fault != Dropped {
        cm := Some(ConfigMap(sent.version + 1, sent.data));
        log := log + [entry];
        ok := fault == NoFault;
      }
    }

    method CreateConfigMap() returns (r: Option<ConfigMap>)
      modifies `now, `turns, `cm
      ensures turns == LaterTurns(old(turns))
      ensures var sh, fault := Delayed(old(State()), old(turns)), NextTurn(old(turns)).fault;
              && State() == (if sh.cm.Some? || fault == Dropped then sh else sh.(cm := Some(ConfigMap(1, map[]))))
              && r == (if sh.cm.Some? || fault != NoFault then None else Some(ConfigMap(1, map[])))
    {
      var fault := Advance();
      r := None;
      if cm.None? && fault != Dropped {
        cm := Some(ConfigMap(1, map[]));
        r := if fault == NoFault then cm else None;
      }
    }

    method CreateJob(plan: Plan, job: JB.Job) returns (ok: bool)
      requires job.name == plan.jobName
      modifies `now, `turns, `jobs, `objects, `log
      ensures turns == LaterTurns(old(turns))
      ensures var sh, fault := Delayed(old(State()), old(turns)), NextTurn(old(turns)).fault;
              if plan.jobName in sh.jobs || fault == Dropped then State() == sh && objects == old(objects) && !ok
              else && State() == sh.(jobs := sh.jobs[plan.jobName := plan], log := sh.log + [JobMade(plan)])
                   && objects == old(objects)[job.name := job] && ok == (fault == NoFault)
    {
      var fault := Advance();
      ok := false;
      if job.name !in jobs && fault != Dropped {
        jobs := jobs[job.name := plan];
        objects := objects[job.name := job];
        log := log + [JobMade(plan)];
        ok := fault == NoFault;
      }
    }
  }

  // ----------------------------------------------------------------- store

  /** What `Get` returns to its caller. */
  function Returned(c: Client): Result<Request, Outcome> {
    match c.saw
    case Unread => Err(Failed)
    case Absent => Err(NoRequest)
    case Found(rec) => Ok(View(rec, c.tested))
  }

  /** The request a caller of `Create` fills in. */
  function Asked(p: Plan): Request {
    Request("", p.executionID, p.stepName, p.runbookID, p.user, p.script, p.scriptHash, p.approvers,
            Pending, "", None, "", None, "", 0, 0)
  }

  /** What `Check` reports of what `Get` returned. */
  function CheckStatus(r: Result<Request, Outcome>): Status {
    if r.Ok? && Terminal(r.value.status) then r.value.status else Pending
  }

  predicate WantsRequest(c: Client) {
    c.op.Execute? && CheckStatus(Returned(c)) == Pending
  }

  // The steps of one client, one by one.

  lemma {:induction false} StepReReads(fold: char -> char, m: Machine)
    requires m.c.pc.ReRead? && m.c.pc.kind != Creation
    requires MachineOk(fold, m)
    ensures var sh, cm := Delayed(m.sh, m.turns), ReadConfigMap(Delayed(m.sh, m.turns), NextTurn(m.turns).fault);
            && (cm.Some? ==> cm.value.data != map[])
            && SoloStep(fold, m) == Machine(sh, if cm.Some? then m.c.(pc := Write(m.c.pc.rec, m.c.pc.kind, cm.value)) else AfterWrite(m.c, m.c.pc.kind, false),
                                            LaterTurns(m.turns))
  {
    SoloStepOk(fold, m);
    ReReadOk(fold, Delayed(m.sh, m.turns), m.c, NextTurn(m.turns).fault);
  }

  lemma {:induction false} StepWrites(fold: char -> char, m: Machine)
    requires m.c.pc.Write?
    ensures var sh, fault := Delayed(m.sh, m.turns), NextTurn(m.turns).fault;
            SoloStep(fold, m) == (if Commits(sh, m.c.pc.snap, fault)
              then Machine(Store(sh, m.c.pc.snap, EntryOf(m.c, m.c.pc.rec, m.c.pc.kind)), AfterWrite(m.c, m.c.pc.kind, fault == NoFault), LaterTurns(m.turns))
              else Machine(sh, AfterWrite(m.c, m.c.pc.kind, false), LaterTurns(m.turns)))
  {}

  lemma {:induction false} StepReads(fold: char -> char, m: Machine)
    requires m.c == NewClient(m.c.op) && Gated(m.c.op)
    ensures SoloStep(fold, m) == Machine(Delayed(m.sh, m.turns), ActStart(Delayed(m.sh, m.turns), m.c, NextTurn(m.turns).fault), LaterTurns(m.turns))
  {}

  lemma {:induction false} StepTests(fold: char -> char, m: Machine)
    requires m.c.pc.Test? && m.c.saw.Found?
    ensures SoloStep(fold, m) == Machine(Delayed(m.sh, m.turns), ActTest(Delayed(m.sh, m.turns), m.c), LaterTurns(m.turns))
  {}

  lemma {:induction false} StepGetsOrCreates(fold: char -> char, m: Machine)
    requires m.c.pc.ReRead? && m.c.pc.kind == Creation
    ensures var sh, cm := Delayed(m.sh, m.turns), ReadConfigMap(Delayed(m.sh, m.turns), NextTurn(m.turns).fault);
            SoloStep(fold, m) == Machine(sh, m.c.(pc := if cm.Some? then Write(m.c.pc.rec, Creation, cm.value) else NewObject(m.c.pc.rec)), LaterTurns(m.turns))
  {}

  lemma {:induction false} StepCreatesObject(fold: char -> char, m: Machine)
    requires m.c.pc.NewObject?
    ensures var (sh, c) := ActNewObject(Delayed(m.sh, m.turns), m.c, m.c.pc.rec, NextTurn(m.turns).fault);
            SoloStep(fold, m) == Machine(sh, c, LaterTurns(m.turns))
  {}

  /** The step at which an execution decides to ask for approval stamps the request. */
  lemma {:induction false} StepAsks(fold: char -> char, m: Machine)
    requires m.c.pc == Decide && WantsRequest(m.c)
    ensures var sh := Delayed(m.sh, m.turns);
            SoloStep(fold, m) == Machine(sh, m.c.(pc := ReRead(NewRequest(m.c.op.plan, sh.now), Creation)), LaterTurns(m.turns))
  {}

  /** What `Approve` and `Deny` do with what `Get` returned, the clock reading `at`. */
  function Ruling(fold: char -> char, op: Op, r: Result<Request, Outcome>, at: nat): PC
    requires !op.Execute?
  {
    match r
    case Err(o) => Done(o)
    case Ok(req) =>
      if req.status != Pending then Done(NotPending(req.status))
      else if !Contains(fold, req.approvers, op.user) then Done(Unauthorized)
      else if op.Approve? then ReRead(ApprovedCopy(req, op.user, at), Decision)
      else ReRead(DeniedCopy(req, op.user, at, op.reason), Decision)
  }

  lemma {:induction false} StepRules(fold: char -> char, m: Machine)
    requires m.c.pc == Decide && !m.c.op.Execute?
    ensures var sh := Delayed(m.sh, m.turns);
            SoloStep(fold, m) == Machine(sh, m.c.(pc := Ruling(fold, m.c.op, Returned(m.c), sh.now)), LaterTurns(m.turns))
  {}

  class ConfigMapStore {
    const api: ApiServer

    constructor (api: ApiServer)
      ensures this.api == api
    {
      this.api := api;
    }

    /** The machine is where the object is. */
    ghost predicate At(m: Machine)
      reads api
    {
      m.sh == api.State() && m.turns == api.turns
    }

    method Update(req: Request, ghost fold: char -> char, ghost m: Machine) returns (ok: bool, ghost m': Machine)
      requires At(m) && MachineOk(fold, m) && m.c.pc.ReRead? && m.c.pc.rec == req && m.c.pc.kind != Creation
      modifies api`now, api`turns, api`cm, api`log
      ensures At(m') && Leads(fold, m, m') && m'.c == AfterWrite(m.c, m.c.pc.kind, ok)
    {
      StepReReads(fold, m);
      StepLeads(fold, m);
      m' := SoloStep(fold, m);
      var cm, _ := api.GetConfigMap();
      if cm.None? {
        return false, m';
      }
      assert cm.value.data != map[];
      var key := Key(req.executionID, req.stepName);
      var sent := cm.value.(data := cm.value.data[key := req]);
      ghost var entry := EntryOf(m'.c, req, m.c.pc.kind);
      StepWrites(fold, m');
      StepLeadsOn(fold, m, m');
      ok := api.UpdateConfigMap(sent, cm.value, entry);
      m' := SoloStep(fold, m');
    }

    method Get(executionID: string, stepName: string, ghost fold: char -> char, ghost m: Machine)
      returns (r: Result<Request, Outcome>, ghost m': Machine)
      requires At(m) && MachineOk(fold, m)
      requires m.c == NewClient(m.c.op) && Gated(m.c.op) && KeyOf(m.c.op) == Key(executionID, stepName)
      modifies api`now, api`turns, api`cm, api`log
      ensures At(m') && Leads(fold, m, m') && m'.c.op == m.c.op
      ensures m'.c.pc == Decide && r == Returned(m'.c)
    {
      StepReads(fold, m);
      StepLeads(fold, m);
      m' := SoloStep(fold, m);
      var cm, failed := api.GetConfigMap();
      if failed {
        return Err(Failed), m';
      }
      var key := Key(executionID, stepName);
      if cm.None? || key !in cm.value.data {
        return Err(NoRequest), m';
      }
      var req := cm.value.data[key];
      StepTests(fold, m');
      StepLeadsOn(fold, m, m');
      m' := SoloStep(fold, m');
      var now := api.Now();
      if req.status == Pending && now > req.expiresAt {
        req := req.(status := Expired);
        LeadsOk(fold, m, m');
        var ignored;
        ghost var m2;
        ignored, m2 := Update(req, fold, m');
        LeadsOn(fold, m, m', m2);
        m' := m2;
      }
      r := Ok(req);
    }

    method GetOrCreate(ghost fold: char -> char, ghost m: Machine) returns (r: Option<ConfigMap>, ghost m': Machine)
      requires At(m) && m.c.pc.ReRead? && m.c.pc.kind == Creation
      modifies api`now, api`turns, api`cm, api`log
      ensures At(m') && Leads(fold, m, m')
      ensures m'.c == m.c.(pc := if r.Some? then Write(m.c.pc.rec, Creation, r.value) else Done(Failed))
    {
      StepGetsOrCreates(fold, m);
      StepLeads(fold, m);
      m' := SoloStep(fold, m);
      var cm, _ := api.GetConfigMap();
      if cm.Some? {
        return cm, m';
      }
      StepCreatesObject(fold, m');
      StepLeadsOn(fold, m, m');
      r := api.CreateConfigMap();
      m' := SoloStep(fold, m');
    }

    /** `asked` carries the caller's fields; the identifier, the status and the times are set here. */
    method Create(asked: Request, ghost fold: char -> char, ghost m: Machine) returns (ok: bool, ghost m': Machine)
      requires At(m) && m.c.pc == Decide && WantsRequest(m.c) && asked == Asked(m.c.op.plan)
      modifies api`now, api`turns, api`cm, api`log
      ensures At(m') && Leads(fold, m, m')
      ensures m'.c.op == m.c.op && m'.c.pc == Done(if ok then AwaitingApproval else Failed)
    {
      StepAsks(fold, m);
      StepLeads(fold, m);
      m' := SoloStep(fold, m);
      var now := api.Now();
      var req := asked.(id := Key(asked.executionID, asked.stepName) + "-" + Decimal(now));
      req := req.(status := Pending);
      req := req.(createdAt := now, expiresAt := now + LIFETIME);
      assert m'.c.pc == ReRead(req, Creation);
      var cm;
      ghost var m2;
      cm, m2 := GetOrCreate(fold, m');
      LeadsOn(fold, m, m', m2);
      m' := m2;
      if cm.None? {
        return false, m';
      }
      var key := Key(req.executionID, req.stepName);
      var sent := cm.value.(data := cm.value.data[key := req]);
      ghost var entry := EntryOf(m'.c, req, Creation);
      StepWrites(fold, m');
      StepLeadsOn(fold, m, m');
      ok := api.UpdateConfigMap(sent, cm.value, entry);
      m' := SoloStep(fold, m');
    }
  }

  // --------------------------------------------------------------- checker

  /** Who gets which answer: only a listed user on an open request has his decision stored, and only a user
      who is not listed is turned away as unauthorized. */
  ghost predicate AnsweredByList(fold: char -> char, c: Client, user: string, outcome: Outcome) {
    && (outcome == Acknowledged ==> c.saw.Found? && Listed(fold, c.saw.rec.approvers, user))
    && (outcome == Unauthorized ==> c.saw.Found? && !Listed(fold, c.saw.rec.approvers, user))
  }

  class Checker {
    const store: ConfigMapStore
    const defaultApprovers: seq<string>
    const fold: char -> char

    constructor (store: ConfigMapStore, defaultApprovers: seq<string>, fold: char -> char)
      ensures this.store == store && this.defaultApprovers == defaultApprovers && this.fold == fold
    {
      this.store, this.defaultApprovers, this.fold := store, defaultApprovers, fold;
    }

    function Approvers(asked: seq<string>): seq<string> {
      if |asked| == 0 then defaultApprovers else asked
    }

    method CreateRequest(executionID: string, stepName: string, runbookID: string, user: string, script: string, scriptHash: string,
                         approvers: seq<string>, ghost m: Machine)
      returns (ok: bool, ghost m': Machine)
      requires store.At(m) && m.c.pc == Decide && WantsRequest(m.c)
      requires var p := m.c.op.plan;
               && p.executionID == executionID && p.stepName == stepName && p.runbookID == runbookID && p.user == user
               && p.script == script && p.scriptHash == scriptHash && p.approvers == Approvers(approvers)
      modifies store.api`now, store.api`turns, store.api`cm, store.api`log
      ensures store.At(m') && Leads(fold, m, m')
      ensures m'.c.op == m.c.op && m'.c.pc == Done(if ok then AwaitingApproval else Failed)
    {
      var names := approvers;
      if |names| == 0 {
        names := defaultApprovers;
      }
      var req := Request("", executionID, stepName, runbookID, user, script, scriptHash, names,
                         Pending, "", None, "", None, "", 0, 0);
      ok, m' := store.Create(req, fold, m);
    }

    /** The gate's question. A failed read and a missing request answer alike. */
    method Check(executionID: string, stepName: string, ghost m: Machine) returns (status: Status, ghost m': Machine)
      requires store.At(m) && MachineOk(fold, m)
      requires m.c == NewClient(m.c.op) && m.c.op.Execute? && m.c.op.plan.gated
      requires m.c.op.plan.executionID == executionID && m.c.op.plan.stepName == stepName
      modifies store.api`now, store.api`turns, store.api`cm, store.api`log
      ensures store.At(m') && Leads(fold, m, m') && m'.c.op == m.c.op && m'.c.pc == Decide
      ensures status == CheckStatus(Returned(m'.c))
    {
      var r;
      r, m' := store.Get(executionID, stepName, fold, m);
      match r {
        case Err(_) => status := Pending;
        case Ok(req) =>
          match req.status {
            case Approved => status := Approved;
            case Denied => status := Denied;
            case Expired => status := Pending;
            case Pending => status := Pending;
          }
      }
    }

    method Approve(executionID: string, stepName: string, approver: string, ghost m: Machine) returns (outcome: Outcome, ghost m': Machine)
      requires store.At(m) && MachineOk(fold, m) && m.c == NewClient(Op.Approve(executionID, stepName, approver))
      modifies store.api`now, store.api`turns, store.api`cm, store.api`log
      ensures store.At(m') && Leads(fold, m, m') && m'.c.pc == Done(outcome)
      ensures ServedOnce(fold, m.c.op, old(store.api.State()), store.api.State(), outcome)
      ensures AnsweredByList(fold, m'.c, m.c.op.user, outcome)
    {
      var r;
      r, m' := store.Get(executionID, stepName, fold, m);
      StepRules(fold, m');
      StepLeadsOn(fold, m, m');
      m' := SoloStep(fold, m');
      var now := store.api.Now();
      if r.Err? {
        SoloServes(fold, m, m');
        return r.error, m';
      }
      var req := r.value;
      if req.status != Pending {
        SoloServes(fold, m, m');
        return NotPending(req.status), m';
      }
      ContainsIsListed(fold, req.approvers, approver);
      if !Contains(fold, req.approvers, approver) {
        SoloServes(fold, m, m');
        return Unauthorized, m';
      }
      req := req.(status := Approved, approvedBy := approver);
      req := req.(approvedAt := Some(now));
      var ok;
      ghost var m2;
      LeadsOk(fold, m, m');
      ok, m2 := store.Update(req, fold, m');
      LeadsOn(fold, m, m', m2);
      m' := m2;
      outcome := if ok then Acknowledged else Failed;
      SoloServes(fold, m, m');
    }

    method Deny(executionID: string, stepName: string, denier: string, reason: string, ghost m: Machine) returns (outcome: Outcome, ghost m': Machine)
      requires store.At(m) && MachineOk(fold, m) && m.c == NewClient(Op.Deny(executionID, stepName, denier, reason))
      modifies store.api`now, store.api`turns, store.api`cm, store.api`log
      ensures store.At(m') && Leads(fold, m, m') && m'.c.pc == Done(outcome)
      ensures ServedOnce(fold, m.c.op, old(store.api.State()), store.api.State(), outcome)
      ensures AnsweredByList(fold, m'.c, m.c.op.user, outcome)
    {
      var r;
      r, m' := store.Get(executionID, stepName, fold, m);
      StepRules(fold, m');
      StepLeadsOn(fold, m, m');
      m' := SoloStep(fold, m');
      var now := store.api.Now();
      if r.Err? {
        SoloServes(fold, m, m');
        return r.error, m';
      }
      var req := r.value;
      if req.status != Pending {
        SoloServes(fold, m, m');
        return NotPending(req.status), m';
      }
      ContainsIsListed(fold, req.approvers, denier);
      if !Contains(fold, req.approvers, denier) {
        SoloServes(fold, m, m');
        return Unauthorized, m';
      }
      req := req.(status := Denied, deniedBy := denier);
      req := req.(deniedAt := Some(now), denialReason := reason);
      var ok;
      ghost var m2;
      LeadsOk(fold, m, m');
      ok, m2 := store.Update(req, fold, m');
      LeadsOn(fold, m, m', m2);
      m' := m2;
      outcome := if ok then Acknowledged else Failed;
      SoloServes(fold, m, m');
    }
  }
}
