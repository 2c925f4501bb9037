/** The approval protocol as a system of steps. Every client is an `Execute`, `Approve` or `Deny`
    call; each of its steps is one call to the Kubernetes API server or one reading of the clock,
    so any number of clients of any number of replicas may interleave between two steps.

    The API server keeps the approvals ConfigMap under optimistic concurrency (Kubernetes API
    Conventions, "Concurrency Control and Consistency"): an update commits only if it carries the
    current resource version, a create only if the object is absent. A call may also be dropped, or
    take effect and lose its reply. */
module ApprovalProtocol {
  import opened Common
  import opened ApprovalRecords
  import JB = JobBuilder

  // ------------------------------------------------------------ API server

  datatype ConfigMap = ConfigMap(version: nat, data: map<string, Request>)

  datatype Fault = NoFault | Dropped | ReplyLost

  /** What an `Execute` call brings to the gate once its script is loaded and validated and its
      image resolved and validated. `context` is what `BuildContext` will make of it, if it succeeds. */
  datatype Plan = Plan(
    executionID: string,
    stepName: string,
    runbookID: string,
    user: string,
    script: string,
    scriptHash: string,
    approvers: seq<string>,
    gated: bool,
    jobName: string,
    context: Option<JB.Context>)

  datatype Op =
    | Execute(plan: Plan)
    | Approve(executionID: string, stepName: string, user: string)
    | Deny(executionID: string, stepName: string, user: string, reason: string)

  function KeyOf(op: Op): string {
    match op
    case Execute(p) => Key(p.executionID, p.stepName)
    case Approve(e, s, _) => Key(e, s)
    case Deny(e, s, _, _) => Key(e, s)
  }

  /** Which of the three writes of the store a client is doing. */
  datatype Kind = Expiry | Decision | Creation

  /** What the read at the start of `Get` brought back; `Unread` is a read that failed. */
  datatype Answer = Unread | Absent | Found(rec: Request)

  /** The log of everything that took effect, oldest first. A commit keeps what its client saw, the
      clock reading of its expiry test, and how long the log was when it read. */
  datatype Entry =
    | Commit(key: string, rec: Request, kind: Kind, op: Op, saw: Answer, tested: nat, readAt: nat)
    | JobMade(plan: Plan)
    | JobGone(name: string)

  datatype Shared = Shared(cm: Option<ConfigMap>, jobs: map<string, Plan>, now: nat, log: seq<Entry>)

  function Data(sh: Shared): map<string, Request> {
    if sh.cm.Some? then sh.cm.value.data else map[]
  }

  function ReadConfigMap(sh: Shared, fault: Fault): Option<ConfigMap> {
    if fault == NoFault then sh.cm else None
  }

  predicate Commits(sh: Shared, snap: ConfigMap, fault: Fault) {
    sh.cm.Some? && sh.cm.value.version == snap.version && fault != Dropped
  }

  function Store(sh: Shared, snap: ConfigMap, entry: Entry): Shared
    requires entry.Commit?
  {
    sh.(cm := Some(ConfigMap(snap.version + 1, snap.data[entry.key := entry.rec])), log := sh.log + [entry])
  }

  // --------------------------------------------------------------- clients

  datatype Outcome =
    | Started            // the Job was created
    | Proceed            // the gate let the execution pass
    | AwaitingApproval
    | Rejected           // the execution was denied
    | Acknowledged       // the decision was stored
    | NoRequest
    | NotPending(status: Status)
    | Unauthorized
    | Failed             // an API call failed, or lost its version check
    | Crashed            // a write into a nil map

  /** Where a client stands. `rec` is the record about to be stored, `snap` the ConfigMap read for it. */
  datatype PC =
    | Start
    | Test
    | Decide
    | ReRead(rec: Request, kind: Kind)
    | NewObject(rec: Request)
    | Write(rec: Request, kind: Kind, snap: ConfigMap)
    | CreateJob
    | Done(outcome: Outcome)

  datatype Client = Client(op: Op, pc: PC, saw: Answer, tested: nat, readAt: nat)

  function NewClient(op: Op): Client {
    Client(op, Start, Unread, 0, 0)
  }

  function NewRequest(p: Plan, now: nat): Request {
    Request(Key(p.executionID, p.stepName) + "-" + Decimal(now),
            p.executionID, p.stepName, p.runbookID, p.user, p.script, p.scriptHash, p.approvers,
            Pending, "", None, "", None, "", now, now + LIFETIME)
  }

  /** The read of `Get`, unless an execution needs no approval. When there is no record to test,
      `tested` keeps the moment of the answer. */
  function ActStart(sh: Shared, c: Client, fault: Fault): Client {
    if c.op.Execute? && !c.op.plan.gated then c.(pc := CreateJob)
    else if fault != NoFault then c.(pc := Decide, saw := Unread, tested := sh.now, readAt := |sh.log|)
    else if KeyOf(c.op) !in Data(sh) then c.(pc := Decide, saw := Absent, tested := sh.now, readAt := |sh.log|)
    else c.(pc := Test, saw := Found(Data(sh)[KeyOf(c.op)]), readAt := |sh.log|)
  }

  /** The expiry test of `Get`. */
  function ActTest(sh: Shared, c: Client): Client
    requires c.saw.Found?
  {
    c.(tested := sh.now,
       pc := if PastExpiry(c.saw.rec, sh.now) then ReRead(ExpiredCopy(c.saw.rec), Expiry) else Decide)
  }

  /** What `Check`, `Approve` and `Deny` do with the answer of `Get`. */
  function ActDecide(fold: char -> char, sh: Shared, c: Client): Client {
    match c.op
    case Execute(plan) =>
      if !c.saw.Found? then c.(pc := ReRead(NewRequest(plan, sh.now), Creation))
      else
        (match View(c.saw.rec, c.tested).status
         case Approved => c.(pc := CreateJob)
         case Denied => c.(pc := Done(Rejected))
         case Pending => c.(pc := ReRead(NewRequest(plan, sh.now), Creation))
         case Expired => c.(pc := ReRead(NewRequest(plan, sh.now), Creation)))
    case Approve(_, _, user) =>
      if !c.saw.Found? then c.(pc := Done(if c.saw.Absent? then NoRequest else Failed))
      else
        var r := View(c.saw.rec, c.tested);
        if r.status != Pending then c.(pc := Done(NotPending(r.status)))
        else if !Contains(fold, r.approvers, user) then c.(pc := Done(Unauthorized))
        else c.(pc := ReRead(ApprovedCopy(r, user, sh.now), Decision))
    case Deny(_, _, user, reason) =>
      if !c.saw.Found? then c.(pc := Done(if c.saw.Absent? then NoRequest else Failed))
      else
        var r := View(c.saw.rec, c.tested);
        if r.status != Pending then c.(pc := Done(NotPending(r.status)))
        else if !Contains(fold, r.approvers, user) then c.(pc := Done(Unauthorized))
        else c.(pc := ReRead(DeniedCopy(r, user, sh.now, reason), Decision))
  }

  /** After a write ended, well or badly. The result of the expiry write is ignored. */
  function AfterWrite(c: Client, kind: Kind, ok: bool): Client {
    match kind
    case Expiry => c.(pc := Decide)
    case Decision => c.(pc := Done(if ok then Acknowledged else Failed))
    case Creation => c.(pc := Done(if ok then AwaitingApproval else Failed))
  }

  /** The read of `Update`, or the read of `getOrCreate`. `Update` assigns into the map it read,
      which is nil when the object holds no data. */
  function ActReRead(sh: Shared, c: Client, rec: Request, kind: Kind, fault: Fault): Client {
    match ReadConfigMap(sh, fault)
    case Some(cm) =>
      if kind != Creation && cm.data == map[] then c.(pc := Done(Crashed)) else c.(pc := Write(rec, kind, cm))
    case None =>
      if kind == Creation then c.(pc := NewObject(rec)) else AfterWrite(c, kind, false)
  }

  /** The create of `getOrCreate`. */
  function ActNewObject(sh: Shared, c: Client, rec: Request, fault: Fault): (Shared, Client) {
    if sh.cm.Some? || fault == Dropped then (sh, AfterWrite(c, Creation, false))
    else
      var cm := ConfigMap(1, map[]);
      (sh.(cm := Some(cm)),
       if fault == NoFault then c.(pc := Write(rec, Creation, cm)) else AfterWrite(c, Creation, false))
  }

  function EntryOf(c: Client, rec: Request, kind: Kind): Entry {
    Commit(KeyOfRecord(rec), rec, kind, c.op, c.saw, c.tested, c.readAt)
  }

  /** The conditional write. */
  function ActWrite(sh: Shared, c: Client, rec: Request, kind: Kind, snap: ConfigMap, fault: Fault): (Shared, Client) {
    if Commits(sh, snap, fault)
    then (Store(sh, snap, EntryOf(c, rec, kind)), AfterWrite(c, kind, fault == NoFault))
    else (sh, AfterWrite(c, kind, false))
  }

  /** The creation of the Job, refused if the name is taken. */
  function ActCreateJob(sh: Shared, c: Client, fault: Fault): (Shared, Client)
    requires c.op.Execute?
  {
    var plan := c.op.plan;
    if plan.context.None? || plan.jobName in sh.jobs || fault == Dropped then (sh, c.(pc := Done(Failed)))
    else
      (sh.(jobs := sh.jobs[plan.jobName := plan], log := sh.log + [JobMade(plan)]),
       c.(pc := Done(if fault == NoFault then Started else Failed)))
  }

  /** Program points a client cannot be at, whatever the interleaving, do nothing here. */
  function Act(fold: char -> char, sh: Shared, c: Client, fault: Fault): (Shared, Client) {
    match c.pc
    case Start => (sh, ActStart(sh, c, fault))
    case Test => (sh, if c.saw.Found? then ActTest(sh, c) else c)
    case Decide => (sh, ActDecide(fold, sh, c))
    case ReRead(rec, kind) => (sh, ActReRead(sh, c, rec, kind, fault))
    case NewObject(rec) => ActNewObject(sh, c, rec, fault)
    case Write(rec, kind, snap) => ActWrite(sh, c, rec, kind, snap, fault)
    case CreateJob => if c.op.Execute? then ActCreateJob(sh, c, fault) else (sh, c)
    case Done(_) => (sh, c)
  }

  // ------------------------------------------------------------------ runs

  datatype World = World(sh: Shared, clients: seq<Client>)

  /** One step of the whole system: time passes, a call arrives, client `i` makes its next step, or
      the TTL controller removes a finished Job. */
  datatype Label = Tick(d: nat) | Arrive(op: Op) | Step(i: nat, fault: Fault) | Reap(name: string)

  function Next(fold: char -> char, w: World, l: Label): World {
    match l
    case Tick(d) => w.(sh := w.sh.(now := w.sh.now + d))
    case Arrive(op) => w.(clients := w.clients + [NewClient(op)])
    case Step(i, fault) =>
      if i >= |w.clients| then w
      else
        var (sh, c) := Act(fold, w.sh, w.clients[i], fault);
        World(sh, w.clients[i := c])
    case Reap(name) =>
      if name !in w.sh.jobs then w
      else w.(sh := w.sh.(jobs := w.sh.jobs - {name}, log := w.sh.log + [JobGone(name)]))
  }

  function Run(fold: char -> char, w: World, labels: seq<Label>): World
    decreases |labels|
  {
    if labels == [] then w else Run(fold, Next(fold, w, labels[0]), labels[1..])
  }

  /** No client yet, and an approvals ConfigMap that is absent or empty. */
  predicate Initial(w: World) {
    && w.clients == [] && w.sh.log == [] && w.sh.jobs == map[]
    && Data(w.sh) == map[]
  }

  /** The contents a log of commits leaves behind: the latest committed record of every key. */
  function Replay(log: seq<Entry>): map<string, Request> {
    if log == [] then map[]
    else
      var last := log[|log| - 1];
      var before := Replay(log[..|log| - 1]);
      if last.Commit? then before[last.key := last.rec] else before
  }

  function Lookup(m: map<string, Request>, k: string): Option<Request> {
    if k in m then Some(m[k]) else None
  }
}
