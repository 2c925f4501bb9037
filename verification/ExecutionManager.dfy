/** `Manager.Execute` (`internal/execution/manager.go`): every gate in its order, the Job and its
    outcome. */
module ExecutionManager {
  import opened Common
  import opened ApprovalRecords
  import opened ApprovalProtocol
  import opened ProtocolInvariants
  import opened ApprovalStore
  import Loader = ScriptLoader
  import Scripts = ScriptValidator
  import Images = ImageValidator
  import JB = JobBuilder
  import Monitor = JobMonitor
  import Origins = ApprovalOrigins
  import Safety = ApprovalSafety

  /** What an execution is configured with. `hash` is the SHA-256 digest in hex. `decode` is the
      parameter decoding of `BuildContext`: the context without script, source, image and execution
      ID, and the timeout, or nothing when the timeout does not parse. */
  datatype Config = Config(
    ns: string,
    blockedCommands: seq<string>,
    maxScriptSize: int,
    maxScriptLines: int,
    approvedImages: seq<string>,
    blockedImages: seq<string>,
    defaultImage: string,
    approvalEnabled: bool,
    defaultApprovers: seq<string>,
    hash: string -> string,
    decode: Loader.Params -> Option<(JB.Context, nat)>)

  datatype ExecuteRequest = ExecuteRequest(
    params: Loader.Params,
    executionID: string,
    runbookID: string,
    user: string,
    timeout: Option<nat>)

  datatype Problem =
    | LoadProblem(load: Loader.LoadError)
    | ScriptProblem(script: Scripts.Problem)
    | ImageNotResolved
    | ImageProblem(verdict: Images.Verdict)

  datatype ResponseStatus = Succeeded | FailedStatus | PendingStatus

  const GRACE := 30_000_000_000

  /** The manager gives its script validator no allowlist. */
  function ScriptRules(cfg: Config): Scripts.Validator {
    Scripts.NewValidator(cfg.blockedCommands, [], cfg.maxScriptSize, cfg.maxScriptLines)
  }

  function EffectiveID(id: string, now: nat): string {
    if id == "" then "exec-" + Decimal(now) else id
  }

  /** The image reference an execution asks for; the catalog is read only for `image_ref`. */
  function ResolveImage(cfg: Config, catalog: Option<map<string, string>>, params: Loader.Params): Option<string> {
    var image, ref := Loader.GetString(params, "image", ""), Loader.GetString(params, "image_ref", "");
    if image != "" then Some(image)
    else if ref != "" then if catalog.Some? && ref in catalog.value then Some(catalog.value[ref]) else None
    else Some(cfg.defaultImage)
  }

  function HashOf(cfg: Config, content: string): string {
    if content != "" then cfg.hash(content) else ""
  }

  function ApproversOf(cfg: Config, params: Loader.Params): seq<string> {
    var asked := Loader.GetStringSlice(params, "approvers");
    if |asked| == 0 then cfg.defaultApprovers else asked
  }

  function ContextOf(cfg: Config, params: Loader.Params, executionID: string, content: string, source: Loader.Source, image: string): Option<JB.Context> {
    match cfg.decode(params)
    case None => None
    case Some((ctx, _)) =>
      Some(ctx.(executionID := executionID, script := content, scriptSource := source, scriptHash := HashOf(cfg, content), image := image))
  }

  /** The plan of an execution whose script and image are known. */
  function PlanOf(cfg: Config, req: ExecuteRequest, executionID: string, content: string, source: Loader.Source, image: string): Plan {
    Plan(executionID, Loader.GetString(req.params, "step_name", "default"), req.runbookID, req.user, content, HashOf(cfg, content),
         ApproversOf(cfg, req.params), Loader.GetBool(req.params, "approval_required") && cfg.approvalEnabled,
         JB.JOB_PREFIX + executionID, ContextOf(cfg, req.params, executionID, content, source, image))
  }

  /** Steps 1 to 5, as a function: the plan of an execution that is not refused on the way. */
  ghost function PlanFor(cfg: Config, req: ExecuteRequest, cluster: Loader.Cluster, catalog: Option<map<string, string>>, now: nat): Option<Plan> {
    match Loader.LoadScript(cluster, cfg.ns, req.params)
    case Err(_) => None
    case Ok((content, source)) =>
      var image := ResolveImage(cfg, catalog, req.params);
      if source.kind != Loader.FromPath && content != "" && !Scripts.Accepts(ScriptRules(cfg), content) then None
      else if image.None? || Images.Validate(cfg.approvedImages, cfg.blockedImages, image.value) != Images.Accepted then None
      else Some(PlanOf(cfg, req, EffectiveID(req.executionID, now), content, source, image.value))
  }

  // ------------------------------------------------ what a plan has passed

  /** The request asks for approval, and approvals are checked. */
  predicate Demanded(cfg: Config, req: ExecuteRequest) {
    cfg.approvalEnabled && "approval_required" in req.params && req.params["approval_required"] == Loader.BoolValue(true)
  }

  /** The script was loaded from what the cluster held and, unless it runs from a mounted path or is
      empty, validated; the image was validated; the Job will run exactly these. */
  ghost predicate PassedGates(cfg: Config, req: ExecuteRequest, cluster: Loader.Cluster, source: Loader.Source, plan: Plan) {
    && Loader.Truthful(cluster, cfg.ns, req.params, plan.script, source)
    && (source.kind == Loader.FromPath || plan.script == "" || Scripts.Accepts(ScriptRules(cfg), plan.script))
    && plan.scriptHash == HashOf(cfg, plan.script)
    && (plan.gated <==> Demanded(cfg, req))
    && Safety.NamedAfterExecution(plan)
    && (plan.context.Some? ==>
          var ctx := plan.context.value;
          && (cfg.approvedImages == [] || Images.Described(ctx.image, cfg.approvedImages))
          && !Images.Described(ctx.image, cfg.blockedImages)
          && JB.CommandOf(ctx) == (if source.kind == Loader.FromPath then [ctx.interpreter, source.path] else [ctx.interpreter, "-c", plan.script])
          && ctx.executionID == plan.executionID && ctx.scriptHash == plan.scriptHash)
  }

  lemma {:induction false} PlanPassesGates(cfg: Config, req: ExecuteRequest, cluster: Loader.Cluster, catalog: Option<map<string, string>>, now: nat)
    requires PlanFor(cfg, req, cluster, catalog, now).Some?
    ensures PassedGates(cfg, req, cluster, Loader.LoadScript(cluster, cfg.ns, req.params).value.1, PlanFor(cfg, req, cluster, catalog, now).value)
  {
    Loader.LoadedIsTruthful(cluster, cfg.ns, req.params);
    Images.AcceptsExactly(cfg.approvedImages, cfg.blockedImages, ResolveImage(cfg, catalog, req.params).value);
  }

  // ------------------------------------- a plan and its request, as written

  /** The image that the request asks for: by reference, by catalog entry, or not at all. */
  predicate AsksForImage(cfg: Config, catalog: Option<map<string, string>>, params: Loader.Params, image: string) {
    || Loader.HasText(params, "image", image)
    || (Loader.LacksText(params, "image")
        && "image_ref" in params && params["image_ref"].StringValue? && params["image_ref"].text != ""
        && catalog.Some? && params["image_ref"].text in catalog.value && catalog.value[params["image_ref"].text] == image)
    || (Loader.LacksText(params, "image") && Loader.LacksText(params, "image_ref") && image == cfg.defaultImage)
  }

  /** Who may approve: those the request lists, otherwise the default approvers. */
  ghost predicate AsksForApprovers(cfg: Config, params: Loader.Params, approvers: seq<string>) {
    if "approvers" in params && params["approvers"].ListValue? && params["approvers"].values != [] then
      var values := params["approvers"].values;
      && |approvers| == |values|
      && forall i :: 0 <= i < |values| ==> approvers[i] == if values[i].StringValue? then values[i].text else ""
    else approvers == cfg.defaultApprovers
  }

  /** What a plan takes from its request, field by field. */
  lemma {:induction false} PlanAsRequested(cfg: Config, req: ExecuteRequest, cluster: Loader.Cluster, catalog: Option<map<string, string>>, now: nat)
    requires PlanFor(cfg, req, cluster, catalog, now).Some?
    ensures var plan, (content, source) := PlanFor(cfg, req, cluster, catalog, now).value, Loader.LoadScript(cluster, cfg.ns, req.params).value;
            && (req.executionID != "" ==> plan.executionID == req.executionID)
            && (req.executionID == "" ==> plan.executionID == "exec-" + Decimal(now))
            && (forall name :: Loader.HasText(req.params, "step_name", name) ==> plan.stepName == name)
            && (Loader.LacksText(req.params, "step_name") ==> plan.stepName == "default")
            && plan.runbookID == req.runbookID && plan.user == req.user
            && plan.script == content
            && plan.scriptHash == (if content == "" then "" else cfg.hash(content))
            && AsksForApprovers(cfg, req.params, plan.approvers)
            && (plan.gated <==> Demanded(cfg, req))
            && plan.jobName == "script-exec-" + plan.executionID
            && (plan.context.Some? <==> cfg.decode(req.params).Some?)
            && (plan.context.Some? ==>
                  var ctx, decoded := plan.context.value, cfg.decode(req.params).value.0;
                  && AsksForImage(cfg, catalog, req.params, ctx.image)
                  && ctx == decoded.(executionID := plan.executionID, script := content, scriptSource := source, scriptHash := plan.scriptHash, image := ctx.image))
  {
    Loader.ListAsWritten(req.params, "approvers");
    if "approvers" in req.params && req.params["approvers"].ListValue? {
      var values := req.params["approvers"].values;
      forall i | 0 <= i < |values|
        ensures Loader.GetStringSlice(req.params, "approvers")[i] == if values[i].StringValue? then values[i].text else ""
      {
        assert values[i].StringValue? ==> values[i] == Loader.StringValue(values[i].text);
      }
    }
  }

  /** Which requests steps 1 to 5 let through: those whose script loads and, if it has a text that does not
      come from a path, is accepted, and that ask for an image there is, which is approved and not blocked. */
  lemma {:induction false} LetThroughExactly(cfg: Config, req: ExecuteRequest, cluster: Loader.Cluster, catalog: Option<map<string, string>>, now: nat)
    ensures PlanFor(cfg, req, cluster, catalog, now).Some? <==>
            && Loader.LoadScript(cluster, cfg.ns, req.params).Ok?
            && var (content, source) := Loader.LoadScript(cluster, cfg.ns, req.params).value;
            && (source.kind == Loader.FromPath || content == "" || Scripts.Accepts(ScriptRules(cfg), content))
            && exists image :: AsksForImage(cfg, catalog, req.params, image)
                 && (cfg.approvedImages == [] || Images.Described(image, cfg.approvedImages)) && !Images.Described(image, cfg.blockedImages)
  {
    var image := ResolveImage(cfg, catalog, req.params);
    assert forall i :: AsksForImage(cfg, catalog, req.params, i) <==> image == Some(i);
    if image.Some? {
      Images.AcceptsExactly(cfg.approvedImages, cfg.blockedImages, image.value);
      assert AsksForImage(cfg, catalog, req.params, image.value);
    }
  }

  /** The rules that scripts are held to are the configured ones. */
  lemma {:induction false} RulesAsConfigured(cfg: Config)
    ensures ScriptRules(cfg).blocked == cfg.blockedCommands && ScriptRules(cfg).allowed == []
    ensures ScriptRules(cfg).maxSize == (if cfg.maxScriptSize > 0 then cfg.maxScriptSize else 512 * 1024)
    ensures ScriptRules(cfg).maxLines == (if cfg.maxScriptLines > 0 then cfg.maxScriptLines else 1000)
  {
    Scripts.Defaults(cfg.blockedCommands, [], cfg.maxScriptSize, cfg.maxScriptLines);
  }

  /** What one `Execute` call is given and finds: its request, the objects it reads, the clock. */
  datatype Inputs = Inputs(req: ExecuteRequest, cluster: Loader.Cluster, catalog: Option<map<string, string>>, now: nat)

  ghost function PlanFrom(cfg: Config, found: Inputs): Option<Plan> {
    PlanFor(cfg, found.req, found.cluster, found.catalog, found.now)
  }

  /** Every execution that arrives at the gate does so with the plan that steps 1 to 5 make of what it
      was given and found. */
  ghost predicate ArriveWith(cfg: Config, labels: seq<Label>, found: seq<Inputs>) {
    && |found| == |labels|
    && forall n :: 0 <= n < |labels| && labels[n].Arrive? && labels[n].op.Execute? ==> PlanFrom(cfg, found[n]) == Some(labels[n].op.plan)
  }

  ghost predicate ArrivedAs(labels: seq<Label>, n: nat, plan: Plan) {
    n < |labels| && labels[n] == Arrive(Op.Execute(plan))
  }

  /** The source that the n-th arrival's script was loaded from. */
  function SourceOf(cfg: Config, found: Inputs): Loader.Source {
    match Loader.LoadScript(found.cluster, cfg.ns, found.req.params)
    case Ok((_, source)) => source
    case Err(_) => Loader.Source(Loader.Inline, "", "", "", "", "")
  }

  lemma {:induction false} ArrivalPassesGates(cfg: Config, labels: seq<Label>, found: seq<Inputs>, n: nat, plan: Plan)
    requires ArriveWith(cfg, labels, found) && ArrivedAs(labels, n, plan)
    ensures PassedGates(cfg, found[n].req, found[n].cluster, SourceOf(cfg, found[n]), plan)
  {
    PlanPassesGates(cfg, found[n].req, found[n].cluster, found[n].catalog, found[n].now);
  }

  lemma {:induction false} JobsArrived(fold: char -> char, w0: World, labels: seq<Label>, j: nat) returns (n: nat)
    requires Initial(w0)
    requires j < |Run(fold, w0, labels).sh.log| && Run(fold, w0, labels).sh.log[j].JobMade?
    ensures ArrivedAs(labels, n, Run(fold, w0, labels).sh.log[j].plan)
  {
    var arrived := (p: Plan) => exists n: nat :: ArrivedAs(labels, n, p);
    forall n | 0 <= n < |labels| && labels[n].Arrive? && labels[n].op.Execute? ensures arrived(labels[n].op.plan) {
      assert ArrivedAs(labels, n, labels[n].op.plan);
    }
    Safety.JobsComeFromArrivals(fold, w0, labels, arrived);
    assert arrived(Run(fold, w0, labels).sh.log[j].plan);
    n :| ArrivedAs(labels, n, Run(fold, w0, labels).sh.log[j].plan);
  }

  ghost predicate ApprovedBefore(fold: char -> char, log: seq<Entry>, j: nat, key: string)
    requires j <= |log|
  {
    exists h :: 0 <= h < j && Safety.AuthorizedApproval(fold, log[h]) && log[h].key == key
  }

  /** The pipeline, over every run and every interleaving: whatever Job is ever made, its execution
      arrived, and passed every gate for the request it was given and the objects it found. If that
      request demanded approval, an authorized approval came before the Job. */
  lemma {:induction false} EveryJobPassedEveryGate(fold: char -> char, cfg: Config, w0: World, labels: seq<Label>, found: seq<Inputs>, j: nat)
    returns (n: nat)
    requires Initial(w0) && ArriveWith(cfg, labels, found)
    requires j < |Run(fold, w0, labels).sh.log| && Run(fold, w0, labels).sh.log[j].JobMade?
    ensures ArrivedAs(labels, n, Run(fold, w0, labels).sh.log[j].plan)
    ensures Run(fold, w0, labels).sh.log[j].plan.context.Some?
    ensures forall m: nat :: ArrivedAs(labels, m, Run(fold, w0, labels).sh.log[j].plan) ==>
              var log := Run(fold, w0, labels).sh.log;
              && PassedGates(cfg, found[m].req, found[m].cluster, SourceOf(cfg, found[m]), log[j].plan)
              && (Demanded(cfg, found[m].req) ==> ApprovedBefore(fold, log, j, Key(log[j].plan.executionID, log[j].plan.stepName)))
  {
    n := JobsArrived(fold, w0, labels, j);
    InitialOk(fold, w0);
    Origins.RunHasOrigins(fold, w0, labels, p => true);
    var plan := Run(fold, w0, labels).sh.log[j].plan;
    if plan.gated {
      Safety.GateSoundness(fold, w0, labels, j);
    }
    forall m: nat | ArrivedAs(labels, m, plan)
      ensures PassedGates(cfg, found[m].req, found[m].cluster, SourceOf(cfg, found[m]), plan)
    {
      ArrivalPassesGates(cfg, labels, found, m, plan);
    }
  }

  /** However many executions of however many replicas race, at no time are there two Jobs for one
      execution ID. */
  lemma {:induction false} AtMostOneJobPerExecution(fold: char -> char, cfg: Config, w0: World, labels: seq<Label>, found: seq<Inputs>, name: string, name': string)
    requires Initial(w0) && ArriveWith(cfg, labels, found)
    requires name in Run(fold, w0, labels).sh.jobs && name' in Run(fold, w0, labels).sh.jobs
    requires Run(fold, w0, labels).sh.jobs[name].executionID == Run(fold, w0, labels).sh.jobs[name'].executionID
    ensures name == name'
  {
    forall n | 0 <= n < |labels| && labels[n].Arrive? && labels[n].op.Execute? ensures Safety.NamedAfterExecution(labels[n].op.plan) {
      ArrivalPassesGates(cfg, labels, found, n, labels[n].op.plan);
    }
    Safety.LiveJobsDistinct(fold, w0, labels, name, name');
  }

  // ---------------------------------------------------------------- Execute

  lemma {:induction false} StepPassesBy(fold: char -> char, m: Machine)
    requires m.c == NewClient(m.c.op) && !Gated(m.c.op)
    ensures SoloStep(fold, m) == Machine(Delayed(m.sh, m.turns), m.c.(pc := CreateJob), LaterTurns(m.turns))
  {}

  /** What `Execute` makes of an answer of `Check` other than pending. */
  lemma {:induction false} StepChecks(fold: char -> char, m: Machine)
    requires m.c.op.Execute? && m.c.pc == Decide && Terminal(CheckStatus(Returned(m.c)))
    ensures SoloStep(fold, m) == Machine(Delayed(m.sh, m.turns),
              m.c.(pc := if CheckStatus(Returned(m.c)) == Approved then CreateJob else Done(Rejected)), LaterTurns(m.turns))
  {}

  lemma {:induction false} StepMakesJob(fold: char -> char, m: Machine)
    requires m.c.op.Execute? && m.c.pc == CreateJob
    ensures var sh, fault, plan := Delayed(m.sh, m.turns), NextTurn(m.turns).fault, m.c.op.plan;
            SoloStep(fold, m) == (if plan.context.None? || plan.jobName in sh.jobs || fault == Dropped
              then Machine(sh, m.c.(pc := Done(Failed)), LaterTurns(m.turns))
              else Machine(sh.(jobs := sh.jobs[plan.jobName := plan], log := sh.log + [JobMade(plan)]),
                           m.c.(pc := Done(if fault == NoFault then Started else Failed)), LaterTurns(m.turns)))
  {}

  /** The response of an execution that started no Job. */
  predicate Reports(s: ResponseStatus, pc: PC) {
    (pc == Done(AwaitingApproval) && s == PendingStatus) || (pc in {Done(Rejected), Done(Failed)} && s == FailedStatus)
  }

  /** How long an execution waits, before the grace period: the timeout of the call comes before the
      one among the parameters. */
  function TimeoutOf(cfg: Config, req: ExecuteRequest): nat {
    if req.timeout.Some? && req.timeout.value > 0 then req.timeout.value
    else match cfg.decode(req.params)
         case Some((_, timeout)) => timeout
         case None => 0
  }

  /** A positive timeout of the call comes before the one among its parameters. */
  lemma {:induction false} TimeoutAsRequested(cfg: Config, req: ExecuteRequest)
    ensures forall t: nat :: req.timeout == Some(t) && t > 0 ==> TimeoutOf(cfg, req) == t
    ensures forall ctx, t: nat :: (req.timeout == None || req.timeout == Some(0)) && cfg.decode(req.params) == Some((ctx, t)) ==> TimeoutOf(cfg, req) == t
  {}

  /** `Succeeded` is reported for a Job that can be seen to have succeeded early enough before the
      deadline: with no deletion, closing, cancellation or failed fetch by then. */
  lemma {:induction false} SuccessIsReported(life: Monitor.Environment, name: string, start: nat, timeout: nat, seen: seq<Monitor.Observation>,
                                             s: ResponseStatus, t: nat, lag: nat)
    requires Monitor.Account(life, name, start, timeout, seen) && Reported(name, seen, s)
    requires Monitor.Untroubled(life, start, start + timeout + Monitor.POLL_INTERVAL)
    requires Monitor.SeenInTime(life, name, start, timeout, t, lag)
    requires Monitor.OnlySucceeds(life, name, start, start + timeout + Monitor.POLL_INTERVAL)
    ensures s == Succeeded
  {
    Monitor.SuccessIsReported(life, name, start, timeout, seen, t, lag);
  }

  /** The response of an execution whose Job was started: success exactly when the Job was last seen with
      a succeeded Pod. */
  predicate Reported(name: string, seen: seq<Monitor.Observation>, s: ResponseStatus) {
    s == if Monitor.LastSeenSucceeded(name, seen) then Succeeded else FailedStatus
  }

  class Manager {
    const cfg: Config
    const checker: Checker
    const api: ApiServer

    constructor (cfg: Config, checker: Checker)
      requires checker.defaultApprovers == cfg.defaultApprovers
      ensures this.cfg == cfg && this.checker == checker && api == checker.store.api && Valid()
    {
      this.cfg, this.checker, this.api := cfg, checker, checker.store.api;
    }

    predicate Valid() {
      api == checker.store.api && checker.defaultApprovers == cfg.defaultApprovers
    }

    /** Steps 1 to 5: load and validate the script, resolve and validate the image. */
    method Prepare(req: ExecuteRequest, cluster: Loader.Cluster, catalog: Option<map<string, string>>, now: nat)
      returns (plan: Result<Plan, Problem>, ghost source: Loader.Source)
      ensures PlanFor(cfg, req, cluster, catalog, now) == if plan.Ok? then Some(plan.value) else None
      ensures plan.Ok? ==> PassedGates(cfg, req, cluster, source, plan.value)
    {
      var executionID := req.executionID;
      if executionID == "" {
        executionID := "exec-" + Decimal(now);
      }
      assert executionID != "";
      source := Loader.Source(Loader.Inline, "", "", "", "", "");
      var loaded := Loader.LoadScript(cluster, cfg.ns, req.params);
      if loaded.Err? {
        return Err(LoadProblem(loaded.error)), source;
      }
      var (content, src) := loaded.value;
      source := src;
      if src.kind != Loader.FromPath && content != "" {
        var problem := Scripts.Validate(ScriptRules(cfg), content);
        if problem.Some? {
          return Err(ScriptProblem(problem.value)), source;
        }
      }
      var image := ResolveImage(cfg, catalog, req.params);
      if image.None? {
        return Err(ImageNotResolved), source;
      }
      var verdict := Images.Validate(cfg.approvedImages, cfg.blockedImages, image.value);
      if verdict != Images.Accepted {
        return Err(ImageProblem(verdict)), source;
      }
      PlanPassesGates(cfg, req, cluster, catalog, now);
      plan := Ok(PlanOf(cfg, req, executionID, content, src, image.value));
    }

    /** Step 6: the approval gate. `None` lets the execution pass. */
    method Gate(plan: Plan, ghost m: Machine) returns (stopped: Option<ResponseStatus>, ghost m': Machine)
      requires Valid() && checker.store.At(m) && MachineOk(checker.fold, m) && m.c == NewClient(Op.Execute(plan))
      requires plan.gated ==> plan.approvers == checker.Approvers(plan.approvers)
      modifies api`now, api`turns, api`cm, api`log
      ensures checker.store.At(m') && Leads(checker.fold, m, m') && m'.c.op == m.c.op
      ensures stopped.None? ==> m'.c.pc == CreateJob && (plan.gated ==> m'.c.saw.Found? && m'.c.saw.rec.status == Approved)
      ensures stopped.Some? ==> plan.gated && Reports(stopped.value, m'.c.pc)
    {
      var fold := checker.fold;
      if !plan.gated {
        StepPassesBy(fold, m);
        StepLeads(fold, m);
        var _ := api.Advance();
        return None, SoloStep(fold, m);
      }
      var status;
      status, m' := checker.Check(plan.executionID, plan.stepName, m);
      if status == Pending {
        var ok;
        ghost var m2;
        ok, m2 := checker.CreateRequest(plan.executionID, plan.stepName, plan.runbookID, plan.user, plan.script, plan.scriptHash, plan.approvers, m');
        LeadsOn(fold, m, m', m2);
        m' := m2;
        if !ok {
          return Some(FailedStatus), m';
        }
        return Some(PendingStatus), m';
      }
      StepChecks(fold, m');
      StepLeadsOn(fold, m, m');
      m' := SoloStep(fold, m');
      var _ := api.Advance();
      if status == Denied {
        return Some(FailedStatus), m';
      }
      stopped := None;
    }

    /** Steps 7 and 8: build the context and the Job, and create it. */
    method Launch(plan: Plan, unixSeconds: nat, ghost m: Machine) returns (created: bool, ghost m': Machine)
      requires Valid() && checker.store.At(m) && m.c.op == Op.Execute(plan) && m.c.pc == CreateJob
      requires plan.jobName == JB.JOB_PREFIX + plan.executionID && plan.executionID != ""
      requires plan.context.Some? ==> plan.context.value.executionID == plan.executionID
      modifies api`now, api`turns, api`jobs, api`objects, api`log
      ensures checker.store.At(m') && Leads(checker.fold, m, m') && m'.c.op == m.c.op
      ensures m'.c.pc == Done(if created then Started else Failed)
      ensures created ==> && plan.context.Some? && plan.jobName !in old(api.jobs)
                          && plan.jobName in api.objects && JB.BuiltFrom(api.objects[plan.jobName], plan.context.value)
      ensures forall n :: n in old(api.objects) && n != plan.jobName ==> n in api.objects && api.objects[n] == old(api.objects)[n]
    {
      var fold := checker.fold;
      StepMakesJob(fold, m);
      StepLeads(fold, m);
      m' := SoloStep(fold, m);
      if plan.context.None? {
        var _ := api.Advance();
        return false, m';
      }
      var job := JB.Build(plan.context.value, unixSeconds);
      created := api.CreateJob(plan, job);
    }

    /** Steps 6 to 8 together. `None` is a started Job. */
    method Start(plan: Plan, unixSeconds: nat, ghost m: Machine) returns (stopped: Option<ResponseStatus>, ghost m': Machine)
      requires Valid() && checker.store.At(m) && MachineOk(checker.fold, m) && m.c == NewClient(Op.Execute(plan))
      requires plan.gated ==> plan.approvers == checker.Approvers(plan.approvers)
      requires plan.jobName == JB.JOB_PREFIX + plan.executionID && plan.executionID != ""
      requires plan.context.Some? ==> plan.context.value.executionID == plan.executionID
      modifies api
      ensures checker.store.At(m') && Leads(checker.fold, m, m') && m'.c.op == m.c.op
      ensures stopped.Some? ==> Reports(stopped.value, m'.c.pc)
      ensures stopped.None? ==> && m'.c.pc == Done(Started) && plan.context.Some? && plan.jobName !in old(api.jobs)
                                && plan.jobName in api.objects && JB.BuiltFrom(api.objects[plan.jobName], plan.context.value)
    {
      stopped, m' := Gate(plan, m);
      if stopped.Some? {
        return;
      }
      var created;
      ghost var m2;
      created, m2 := Launch(plan, unixSeconds, m');
      LeadsOn(checker.fold, m, m', m2);
      m' := m2;
      if !created {
        return Some(FailedStatus), m';
      }
    }

    /** Steps 9 to 11: wait for the Job and report how it ended. `seen` is all that the wait saw. */
    method Await(req: ExecuteRequest, jobName: string, now: nat, life: Monitor.Environment)
      returns (status: ResponseStatus, ghost seen: seq<Monitor.Observation>)
      ensures Monitor.Account(life, jobName, now, TimeoutOf(cfg, req) + 30_000_000_000, seen)
      ensures Reported(jobName, seen, status)
      ensures exists r :: Monitor.Answers(life, jobName, now, TimeoutOf(cfg, req) + GRACE, r) && (status == Succeeded <==> r.Ok? && r.value.succeeded)
    {
      var timeout := match cfg.decode(req.params)
                     case Some((_, t)) => t
                     case None => 0;
      if req.timeout.Some? && req.timeout.value > 0 {
        timeout := req.timeout.value;
      }
      var result;
      result, seen := Monitor.Wait(life, jobName, now, timeout + GRACE);
      Monitor.ResultOfTheJob(life, jobName, now, timeout + GRACE, seen);
      if result.Err? {
        return FailedStatus, seen;
      }
      status := Succeeded;
      if !result.value.succeeded {
        status := FailedStatus;
      }
    }

    /** The whole of `Execute`. Reads of other objects and the life of the Job come in as `cluster`,
        `catalog` and `life`. An execution stopped before the gate changes nothing; any other is the
        client of a plan that had passed every gate before, its response tells how that client ended,
        and a started one runs the Job built from its plan. */
    method Execute(req: ExecuteRequest, cluster: Loader.Cluster, catalog: Option<map<string, string>>, unixSeconds: nat,
                   life: Monitor.Environment)
      returns (status: ResponseStatus, ghost plan: Option<Plan>, ghost source: Loader.Source, ghost m: Machine,
               ghost seen: seq<Monitor.Observation>)
      requires Valid() && SharedOk(checker.fold, api.State())
      modifies api
      ensures SharedOk(checker.fold, api.State()) && old(api.log) <= api.log
      ensures plan.None? ==> status == FailedStatus && api.State() == old(api.State()) && api.objects == old(api.objects)
      ensures plan == PlanFor(cfg, req, cluster, catalog, old(api.now))
      ensures plan.Some? ==>
                && PassedGates(cfg, req, cluster, source, plan.value)
                && checker.store.At(m) && m.c.op == Op.Execute(plan.value)
                && Leads(checker.fold, Machine(old(api.State()), NewClient(Op.Execute(plan.value)), old(api.turns)), m)
                && (m.c.pc != Done(Started) ==> Reports(status, m.c.pc))
      ensures plan.Some? && m.c.pc == Done(Started) ==>
                && plan.value.context.Some? && plan.value.jobName !in old(api.jobs) && plan.value.jobName in api.objects
                && JB.BuiltFrom(api.objects[plan.value.jobName], plan.value.context.value)
                && Monitor.Account(life, plan.value.jobName, api.now, TimeoutOf(cfg, req) + 30_000_000_000, seen)
                && Reported(plan.value.jobName, seen, status)
    {
      plan, seen := None, [];
      var prepared;
      prepared, source := Prepare(req, cluster, catalog, api.now);
      if prepared.Err? {
        status := FailedStatus;
        m := Machine(api.State(), NewClient(Op.Approve("", "", "")), api.turns);
        return;
      }
      plan := Some(prepared.value);
      ghost var m0 := Machine(api.State(), NewClient(Op.Execute(prepared.value)), api.turns);
      var stopped;
      stopped, m := Start(prepared.value, unixSeconds, m0);
      LeadsOk(checker.fold, m0, m);
      LeadsGrow(checker.fold, m0, m);
      if stopped.Some? {
        status := stopped.value;
        return;
      }
      status, seen := Await(req, prepared.value.jobName, api.now, life);
    }
  }

  lemma {:induction false} SoloGrows(fold: char -> char, m: Machine, n: nat)
    requires MachineOk(fold, m)
    ensures Grows(m.sh, Solo(fold, m, n).sh)
    decreases n
  {
    SoloIsRun(fold, m, n);
    RunOk(fold, World(m.sh, [m.c]), SoloLabels(m.turns, n));
  }

  lemma {:induction false} LeadsGrow(fold: char -> char, m: Machine, m': Machine)
    requires MachineOk(fold, m) && Leads(fold, m, m')
    ensures Grows(m.sh, m'.sh)
  {
    var n: nat :| m' == Solo(fold, m, n);
    SoloGrows(fold, m, n);
  }
}
