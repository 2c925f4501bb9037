/** From an execution context to a Job (`internal/execution/job_builder.go`): volumes and their
    mounts, the environment, the command and the name. */
module JobBuilder {
  import opened Common
  import opened ScriptLoader

  datatype KeyRef = KeyRef(name: string, key: string, optional: bool)

  datatype EnvSource = Literal(value: string) | SecretKey(ref: KeyRef) | ConfigMapKey(ref: KeyRef)

  datatype EnvVar = EnvVar(name: string, source: EnvSource)

  datatype KeyToPath = KeyToPath(key: string, path: string, mode: Option<int>)

  /** A Secret or a ConfigMap to be mounted as files. */
  datatype FileVolume = FileVolume(name: string, mountPath: string, optional: bool, items: seq<KeyToPath>)

  datatype VolumeSource =
    | EmptyDir(sizeLimit: string)
    | ConfigMapFiles(name: string, optional: Option<bool>, items: seq<KeyToPath>)
    | SecretFiles(name: string, optional: Option<bool>, items: seq<KeyToPath>)

  datatype Volume = Volume(name: string, source: VolumeSource)

  datatype VolumeMount = VolumeMount(name: string, mountPath: string, readOnly: bool)

  datatype Context = Context(
    executionID: string,
    script: string,
    scriptSource: Source,
    scriptHash: string,
    image: string,
    interpreter: string,
    args: seq<string>,
    env: map<string, string>,
    envFromSecret: map<string, KeyRef>,
    envFromConfigMap: map<string, KeyRef>,
    volumesFromSecret: seq<FileVolume>,
    volumesFromConfigMap: seq<FileVolume>,
    ephemeralLimit: Option<string>)

  datatype Container = Container(image: string, command: seq<string>, args: seq<string>, env: seq<EnvVar>, mounts: seq<VolumeMount>)

  datatype Job = Job(name: string, container: Container, volumes: seq<Volume>)

  const JOB_PREFIX := "script-exec-"

  /** The Job name; the clock stands in for an empty execution ID. */
  function JobName(executionID: string, unixSeconds: nat): string {
    JOB_PREFIX + if executionID == "" then Decimal(unixSeconds) else executionID
  }

  lemma {:induction false} JobNameAsWritten(executionID: string, unixSeconds: nat)
    ensures executionID != "" ==> JobName(executionID, unixSeconds) == "script-exec-" + executionID
    ensures JobName("", unixSeconds) == "script-exec-" + Decimal(unixSeconds)
  {}

  lemma {:induction false} JobNameInjective(e: string, e': string, now: nat, now': nat)
    requires e != "" && e' != ""
    requires JobName(e, now) == JobName(e', now')
    ensures e == e'
  {
    assert JobName(e, now)[|JOB_PREFIX|..] == e;
    assert JobName(e', now')[|JOB_PREFIX|..] == e';
  }

  // ---------------------------------------------------------------- volumes

  predicate RunsFromPath(ctx: Context) {
    ctx.scriptSource.kind == FromPath
  }

  function SecretVolumeName(i: nat): string {
    "secret-" + Decimal(i)
  }

  function ConfigMapVolumeName(i: nat): string {
    "configmap-" + Decimal(i)
  }

  function FixedVolumes(ctx: Context): seq<Volume> {
    [ Volume("workspace", EmptyDir(if ctx.ephemeralLimit.Some? then ctx.ephemeralLimit.value else "1Gi")),
      Volume("tmp", EmptyDir("100Mi")) ]
    + if RunsFromPath(ctx) then [Volume("scripts", ConfigMapFiles(APPROVED_SCRIPTS, None, []))] else []
  }

  function FixedMounts(ctx: Context): seq<VolumeMount> {
    [ VolumeMount("workspace", "/workspace", false), VolumeMount("tmp", "/tmp", false) ]
    + if RunsFromPath(ctx) then [VolumeMount("scripts", "/scripts", true)] else []
  }

  function SecretVolumeAt(i: nat, v: FileVolume): Volume {
    Volume(SecretVolumeName(i), SecretFiles(v.name, Some(v.optional), v.items))
  }

  function ConfigMapVolumeAt(i: nat, v: FileVolume): Volume {
    Volume(ConfigMapVolumeName(i), ConfigMapFiles(v.name, Some(v.optional), v.items))
  }

  function SecretVolumes(vs: seq<FileVolume>): seq<Volume> {
    seq(|vs|, i requires 0 <= i < |vs| => SecretVolumeAt(i, vs[i]))
  }

  function ConfigMapVolumes(vs: seq<FileVolume>): seq<Volume> {
    seq(|vs|, i requires 0 <= i < |vs| => ConfigMapVolumeAt(i, vs[i]))
  }

  lemma {:induction false} VolumesStep(vs: seq<FileVolume>, i: nat)
    requires i < |vs|
    ensures SecretVolumes(vs[..i + 1]) == SecretVolumes(vs[..i]) + [SecretVolumeAt(i, vs[i])]
    ensures ConfigMapVolumes(vs[..i + 1]) == ConfigMapVolumes(vs[..i]) + [ConfigMapVolumeAt(i, vs[i])]
  {}

  function VolumesOf(ctx: Context): seq<Volume> {
    FixedVolumes(ctx) + SecretVolumes(ctx.volumesFromSecret) + ConfigMapVolumes(ctx.volumesFromConfigMap)
  }

  function MountsOf(ctx: Context): seq<VolumeMount> {
    FixedMounts(ctx)
    + seq(|ctx.volumesFromSecret|, i requires 0 <= i < |ctx.volumesFromSecret|
          => VolumeMount(SecretVolumeName(i), ctx.volumesFromSecret[i].mountPath, true))
    + seq(|ctx.volumesFromConfigMap|, i requires 0 <= i < |ctx.volumesFromConfigMap|
          => VolumeMount(ConfigMapVolumeName(i), ctx.volumesFromConfigMap[i].mountPath, true))
  }

  method BuildVolumes(ctx: Context) returns (volumes: seq<Volume>)
    ensures volumes == VolumesOf(ctx)
  {
    var ephemeralLimit := "1Gi";
    if ctx.ephemeralLimit.Some? {
      ephemeralLimit := ctx.ephemeralLimit.value;
    }
    volumes := [Volume("workspace", EmptyDir(ephemeralLimit)), Volume("tmp", EmptyDir("100Mi"))];
    if ctx.scriptSource.kind == FromPath {
      volumes := volumes + [Volume("scripts", ConfigMapFiles(APPROVED_SCRIPTS, None, []))];
    }
    assert volumes == FixedVolumes(ctx);
    var secrets := ctx.volumesFromSecret;
    for i := 0 to |secrets|
      invariant volumes == FixedVolumes(ctx) + SecretVolumes(secrets[..i])
    {
      var items := CopyItems(secrets[i].items);
      VolumesStep(secrets, i);
      volumes := volumes + [Volume("secret-" + Decimal(i), SecretFiles(secrets[i].name, Some(secrets[i].optional), items))];
    }
    assert secrets[..|secrets|] == secrets;
    ghost var withSecrets := volumes;
    var configMaps := ctx.volumesFromConfigMap;
    for i := 0 to |configMaps|
      invariant volumes == withSecrets + ConfigMapVolumes(configMaps[..i])
    {
      var items := CopyItems(configMaps[i].items);
      VolumesStep(configMaps, i);
      volumes := volumes + [Volume("configmap-" + Decimal(i), ConfigMapFiles(configMaps[i].name, Some(configMaps[i].optional), items))];
    }
    assert configMaps[..|configMaps|] == configMaps;
  }

  method CopyItems(items: seq<KeyToPath>) returns (copy: seq<KeyToPath>)
    ensures copy == items
  {
    copy := [];
    for i := 0 to |items|
      invariant copy == items[..i]
    {
      copy := copy + [KeyToPath(items[i].key, items[i].path, items[i].mode)];
    }
  }

  method BuildVolumeMounts(ctx: Context) returns (mounts: seq<VolumeMount>)
    ensures mounts == MountsOf(ctx)
  {
    mounts := [VolumeMount("workspace", "/workspace", false), VolumeMount("tmp", "/tmp", false)];
    if ctx.scriptSource.kind == FromPath {
      mounts := mounts + [VolumeMount("scripts", "/scripts", true)];
    }
    ghost var fixed := mounts;
    for i := 0 to |ctx.volumesFromSecret|
      invariant mounts == fixed + seq(i, j requires 0 <= j < i => VolumeMount(SecretVolumeName(j), ctx.volumesFromSecret[j].mountPath, true))
    {
      mounts := mounts + [VolumeMount("secret-" + Decimal(i), ctx.volumesFromSecret[i].mountPath, true)];
    }
    ghost var withSecrets := mounts;
    for i := 0 to |ctx.volumesFromConfigMap|
      invariant mounts == withSecrets + seq(i, j requires 0 <= j < i => VolumeMount(ConfigMapVolumeName(j), ctx.volumesFromConfigMap[j].mountPath, true))
    {
      mounts := mounts + [VolumeMount("configmap-" + Decimal(i), ctx.volumesFromConfigMap[i].mountPath, true)];
    }
  }

  /** How the kubelet resolves a mount: the volume of that name. */
  function FindVolume(volumes: seq<Volume>, name: string): Option<VolumeSource> {
    if volumes == [] then None
    else if volumes[0].name == name then Some(volumes[0].source)
    else FindVolume(volumes[1..], name)
  }

  lemma {:induction false} FindVolumeDistinct(volumes: seq<Volume>, j: nat)
    requires j < |volumes|
    requires forall a, b :: 0 <= a < b < |volumes| ==> volumes[a].name != volumes[b].name
    ensures FindVolume(volumes, volumes[j].name) == Some(volumes[j].source)
  {
    if j > 0 {
      FindVolumeDistinct(volumes[1..], j - 1);
    }
  }

  /** The kind of a generated volume name and its index. */
  datatype NameForm = FixedName(text: string) | SecretName(index: nat) | ConfigMapName(index: nat)

  function Render(f: NameForm): string {
    match f
    case FixedName(text) => text
    case SecretName(i) => SecretVolumeName(i)
    case ConfigMapName(i) => ConfigMapVolumeName(i)
  }

  const FIXED_NAMES := {"workspace", "tmp", "scripts"}

  lemma {:induction false} RenderInjective(f: NameForm, g: NameForm)
    requires f.FixedName? ==> f.text in FIXED_NAMES
    requires g.FixedName? ==> g.text in FIXED_NAMES
    requires Render(f) == Render(g)
    ensures f == g
  {
    FormOfRender(f);
    FormOfRender(g);
    match (f, g)
    case (SecretName(i), SecretName(j)) =>
      assert SecretVolumeName(i)[7..] == Decimal(i) && SecretVolumeName(j)[7..] == Decimal(j);
      DecimalInjective(i, j);
    case (ConfigMapName(i), ConfigMapName(j)) =>
      assert ConfigMapVolumeName(i)[10..] == Decimal(i) && ConfigMapVolumeName(j)[10..] == Decimal(j);
      DecimalInjective(i, j);
    case _ =>
  }

  /** The first two characters tell the families apart. */
  lemma {:induction false} FormOfRender(f: NameForm)
    requires f.FixedName? ==> f.text in FIXED_NAMES
    ensures |Render(f)| > 1
    ensures Render(f)[0] == 'c' <==> f.ConfigMapName?
    ensures Render(f)[1] == 'e' <==> f.SecretName?
  {
  }

  function NameAt(ctx: Context, j: nat): NameForm
    requires j < |VolumesOf(ctx)|
  {
    var n := |FixedVolumes(ctx)|;
    if j < n then FixedName(FixedVolumes(ctx)[j].name)
    else if j < n + |ctx.volumesFromSecret| then SecretName(j - n)
    else ConfigMapName(j - n - |ctx.volumesFromSecret|)
  }

  lemma {:induction false} NameIsRendered(ctx: Context, j: nat)
    requires j < |VolumesOf(ctx)|
    ensures VolumesOf(ctx)[j].name == Render(NameAt(ctx, j))
    ensures NameAt(ctx, j).FixedName? ==> NameAt(ctx, j).text in FIXED_NAMES
  {}

  lemma {:induction false} VolumeNamesDistinct(ctx: Context, a: nat, b: nat)
    requires a < b < |VolumesOf(ctx)|
    ensures VolumesOf(ctx)[a].name != VolumesOf(ctx)[b].name
  {
    NameIsRendered(ctx, a);
    NameIsRendered(ctx, b);
    if Render(NameAt(ctx, a)) == Render(NameAt(ctx, b)) {
      RenderInjective(NameAt(ctx, a), NameAt(ctx, b));
    }
  }

  /** The two separately written lists agree: position by position the mount names the volume,
      no two volumes share a name, so every mount resolves to exactly the volume built from the
      same entry of the context. */
  lemma {:induction false} MountsMatchVolumes(ctx: Context)
    ensures |MountsOf(ctx)| == |VolumesOf(ctx)|
    ensures forall j :: 0 <= j < |MountsOf(ctx)| ==>
              && MountsOf(ctx)[j].name == VolumesOf(ctx)[j].name
              && FindVolume(VolumesOf(ctx), MountsOf(ctx)[j].name) == Some(VolumesOf(ctx)[j].source)
    ensures forall a, b :: 0 <= a < b < |VolumesOf(ctx)| ==> VolumesOf(ctx)[a].name != VolumesOf(ctx)[b].name
  {
    forall a, b | 0 <= a < b < |VolumesOf(ctx)|
      ensures VolumesOf(ctx)[a].name != VolumesOf(ctx)[b].name
    {
      VolumeNamesDistinct(ctx, a, b);
    }
    forall j | 0 <= j < |MountsOf(ctx)|
      ensures MountsOf(ctx)[j].name == VolumesOf(ctx)[j].name
      ensures FindVolume(VolumesOf(ctx), MountsOf(ctx)[j].name) == Some(VolumesOf(ctx)[j].source)
    {
      FindVolumeDistinct(VolumesOf(ctx), j);
    }
  }

  /** Every path at which something is to be mounted: the fixed ones, then the requested ones. */
  function Paths(ctx: Context): seq<string> {
    ["/workspace", "/tmp"] + (if RunsFromPath(ctx) then ["/scripts"] else [])
    + seq(|ctx.volumesFromSecret|, i requires 0 <= i < |ctx.volumesFromSecret| => ctx.volumesFromSecret[i].mountPath)
    + seq(|ctx.volumesFromConfigMap|, i requires 0 <= i < |ctx.volumesFromConfigMap| => ctx.volumesFromConfigMap[i].mountPath)
  }

  /** The path is asked for once. */
  ghost predicate AskedOnce(paths: seq<string>, j: nat)
    requires j < |paths|
  {
    forall m :: 0 <= m < |paths| && m != j ==> paths[m] != paths[j]
  }

  /** A read-only mount at `path` that resolves to `source`. */
  predicate Shows(ctx: Context, m: VolumeMount, path: string, source: VolumeSource) {
    m.mountPath == path && m.readOnly && FindVolume(VolumesOf(ctx), m.name) == Some(source)
  }

  /** What a container sees at `path`, and nothing else: Kubernetes refuses two mounts at one path. */
  ghost predicate SoleMountAt(ctx: Context, path: string, source: VolumeSource) {
    exists j :: 0 <= j < |MountsOf(ctx)| && Shows(ctx, MountsOf(ctx)[j], path, source)
      && forall m :: 0 <= m < |MountsOf(ctx)| && m != j ==> MountsOf(ctx)[m].mountPath != path
  }

  lemma {:induction false} PathsOfMounts(ctx: Context)
    ensures |Paths(ctx)| == |MountsOf(ctx)|
    ensures forall j :: 0 <= j < |MountsOf(ctx)| ==> MountsOf(ctx)[j].mountPath == Paths(ctx)[j]
  {}

  lemma {:induction false} EntryMounted(ctx: Context, j: nat)
    requires |FixedVolumes(ctx)| <= j < |VolumesOf(ctx)|
    ensures |Paths(ctx)| == |MountsOf(ctx)| == |VolumesOf(ctx)|
    ensures Shows(ctx, MountsOf(ctx)[j], Paths(ctx)[j], VolumesOf(ctx)[j].source)
    ensures SoleMountAt(ctx, Paths(ctx)[j], VolumesOf(ctx)[j].source) <==> AskedOnce(Paths(ctx), j)
  {
    MountsMatchVolumes(ctx);
    PathsOfMounts(ctx);
  }

  /** The mount and the volume at the j-th place, when it is not requested. */
  predicate Offers(ctx: Context, m: VolumeMount, path: string, readOnly: bool, source: VolumeSource) {
    m.mountPath == path && m.readOnly == readOnly && FindVolume(VolumesOf(ctx), m.name) == Some(source)
  }

  /** Every container has a writable workspace, by default of 1Gi, and a writable `/tmp`. One that runs from
      a path also has the files of the ConfigMap `approved-scripts` at `/scripts`, read-only; no other has. */
  lemma {:induction false} FixedFilesAppear(ctx: Context)
    ensures var mounts, n := MountsOf(ctx), if ctx.scriptSource.kind == FromPath then 3 else 2;
            && |mounts| == n + |ctx.volumesFromSecret| + |ctx.volumesFromConfigMap|
            && (ctx.ephemeralLimit.Some? ==> Offers(ctx, mounts[0], "/workspace", false, EmptyDir(ctx.ephemeralLimit.value)))
            && (ctx.ephemeralLimit.None? ==> Offers(ctx, mounts[0], "/workspace", false, EmptyDir("1Gi")))
            && Offers(ctx, mounts[1], "/tmp", false, EmptyDir("100Mi"))
            && (ctx.scriptSource.kind == FromPath ==> Offers(ctx, mounts[2], "/scripts", true, ConfigMapFiles("approved-scripts", None, [])))
  {
    MountsMatchVolumes(ctx);
    assert VolumesOf(ctx)[0] == FixedVolumes(ctx)[0] && VolumesOf(ctx)[1] == FixedVolumes(ctx)[1];
    assert RunsFromPath(ctx) ==> VolumesOf(ctx)[2] == FixedVolumes(ctx)[2];
  }

  /** The files of the i-th requested Secret are mounted read-only at the i-th requested path. They are
      all that is mounted there if and only if no other entry asks for that path and no fixed mount has
      it; the code does not check that. */
  lemma {:induction false} SecretFilesAppear(ctx: Context, i: nat)
    requires i < |ctx.volumesFromSecret|
    ensures var v, j := ctx.volumesFromSecret[i], |FixedMounts(ctx)| + i;
            && j < |MountsOf(ctx)| == |Paths(ctx)| && Paths(ctx)[j] == v.mountPath
            && Shows(ctx, MountsOf(ctx)[j], v.mountPath, SecretFiles(v.name, Some(v.optional), v.items))
            && (SoleMountAt(ctx, v.mountPath, SecretFiles(v.name, Some(v.optional), v.items)) <==> AskedOnce(Paths(ctx), j))
  {
    var j := |FixedVolumes(ctx)| + i;
    assert VolumesOf(ctx)[j] == SecretVolumeAt(i, ctx.volumesFromSecret[i]);
    assert Paths(ctx)[j] == ctx.volumesFromSecret[i].mountPath;
    EntryMounted(ctx, j);
  }

  /** Likewise for the i-th requested ConfigMap. */
  lemma {:induction false} ConfigMapFilesAppear(ctx: Context, i: nat)
    requires i < |ctx.volumesFromConfigMap|
    ensures var v, j := ctx.volumesFromConfigMap[i], |FixedMounts(ctx)| + |ctx.volumesFromSecret| + i;
            && j < |MountsOf(ctx)| == |Paths(ctx)| && Paths(ctx)[j] == v.mountPath
            && Shows(ctx, MountsOf(ctx)[j], v.mountPath, ConfigMapFiles(v.name, Some(v.optional), v.items))
            && (SoleMountAt(ctx, v.mountPath, ConfigMapFiles(v.name, Some(v.optional), v.items)) <==> AskedOnce(Paths(ctx), j))
  {
    var j := |FixedVolumes(ctx)| + |ctx.volumesFromSecret| + i;
    assert VolumesOf(ctx)[j] == ConfigMapVolumeAt(i, ctx.volumesFromConfigMap[i]);
    assert Paths(ctx)[j] == ctx.volumesFromConfigMap[i].mountPath;
    EntryMounted(ctx, j);
  }

  // ------------------------------------------------------------ environment

  predicate ValidRef(ref: KeyRef) {
    ref.name != "" && ref.key != ""
  }

  /** Kubernetes reads the list in order; a later entry replaces an earlier one of the same name. */
  function Environment(env: seq<EnvVar>): map<string, EnvSource> {
    if env == [] then map[]
    else Environment(env[..|env| - 1])[env[|env| - 1].name := env[|env| - 1].source]
  }

  lemma {:induction false} EnvironmentSnoc(env: seq<EnvVar>, v: EnvVar)
    ensures Environment(env + [v]) == Environment(env)[v.name := v.source]
  {
    assert (env + [v])[..|env|] == env;
  }

  lemma {:induction false} AppendOverrides(base: map<string, EnvSource>, env: seq<EnvVar>, over: map<string, EnvSource>, v: EnvVar)
    requires Environment(env) == base + over
    ensures Environment(env + [v]) == base + over[v.name := v.source]
  {
    EnvironmentSnoc(env, v);
    assert (base + over)[v.name := v.source] == base + over[v.name := v.source];
  }

  function Literals(env: map<string, string>, names: set<string>): map<string, EnvSource> {
    map k | k in names && k in env :: Literal(env[k])
  }

  function RefSource(ref: KeyRef, secret: bool): EnvSource {
    if secret then SecretKey(ref) else ConfigMapKey(ref)
  }

  /** The valid references among the given names. */
  function Refs(refs: map<string, KeyRef>, secret: bool, names: set<string>): map<string, EnvSource> {
    map k | k in names && k in refs && ValidRef(refs[k]) :: RefSource(refs[k], secret)
  }

  lemma {:induction false} LiteralsStep(env: map<string, string>, names: set<string>, k: string)
    requires k in env
    ensures Literals(env, names + {k}) == Literals(env, names)[k := Literal(env[k])]
  {}

  lemma {:induction false} RefsStep(refs: map<string, KeyRef>, secret: bool, names: set<string>, k: string)
    requires k in refs && k !in names
    ensures Refs(refs, secret, names + {k}) ==
            if ValidRef(refs[k]) then Refs(refs, secret, names)[k := RefSource(refs[k], secret)] else Refs(refs, secret, names)
  {}

  /** The environment the context asks for: valid ConfigMap references over valid Secret
      references over literals. */
  function EnvironmentOf(ctx: Context): map<string, EnvSource> {
    Literals(ctx.env, ctx.env.Keys)
    + Refs(ctx.envFromSecret, true, ctx.envFromSecret.Keys)
    + Refs(ctx.envFromConfigMap, false, ctx.envFromConfigMap.Keys)
  }

  /** The reference can be resolved: it names an object and a key. */
  predicate Usable(refs: map<string, KeyRef>, n: string) {
    n in refs && refs[n].name != "" && refs[n].key != ""
  }

  /** Name by name: a usable ConfigMap reference, otherwise a usable Secret reference, otherwise the
      literal; and nothing else. */
  ghost predicate AsAsked(ctx: Context, env: map<string, EnvSource>) {
    && (forall n :: Usable(ctx.envFromConfigMap, n) ==> n in env && env[n] == ConfigMapKey(ctx.envFromConfigMap[n]))
    && (forall n :: !Usable(ctx.envFromConfigMap, n) && Usable(ctx.envFromSecret, n) ==> n in env && env[n] == SecretKey(ctx.envFromSecret[n]))
    && (forall n :: !Usable(ctx.envFromConfigMap, n) && !Usable(ctx.envFromSecret, n) && n in ctx.env ==> n in env && env[n] == Literal(ctx.env[n]))
    && (forall n :: n in env ==> Usable(ctx.envFromConfigMap, n) || Usable(ctx.envFromSecret, n) || n in ctx.env)
  }

  lemma {:induction false} EnvironmentAsAsked(ctx: Context)
    ensures AsAsked(ctx, EnvironmentOf(ctx))
  {
    var literals := Literals(ctx.env, ctx.env.Keys);
    var secrets := Refs(ctx.envFromSecret, true, ctx.envFromSecret.Keys);
    var configMaps := Refs(ctx.envFromConfigMap, false, ctx.envFromConfigMap.Keys);
    assert forall n :: n in configMaps <==> Usable(ctx.envFromConfigMap, n);
    assert forall n :: n in secrets <==> Usable(ctx.envFromSecret, n);
    assert forall n :: n in literals <==> n in ctx.env;
  }

  /** The loops may visit their maps in any order: the choice of `k` is left open. */
  method BuildEnvVars(ctx: Context) returns (env: seq<EnvVar>)
    ensures Environment(env) == EnvironmentOf(ctx) && AsAsked(ctx, Environment(env))
  {
    EnvironmentAsAsked(ctx);
    env := AppendLiterals(ctx.env, []);
    assert Environment(env) == Literals(ctx.env, ctx.env.Keys);
    env := AppendRefs(ctx.envFromSecret, true, env);
    env := AppendRefs(ctx.envFromConfigMap, false, env);
  }

  method AppendLiterals(literals: map<string, string>, before: seq<EnvVar>) returns (env: seq<EnvVar>)
    ensures Environment(env) == Environment(before) + Literals(literals, literals.Keys)
  {
    env := before;
    var todo := literals.Keys;
    ghost var done, over, base := {}, Literals(literals, {}), Environment(before);
    assert base == base + over;
    while todo != {}
      invariant done !! todo && done + todo == literals.Keys
      invariant over == Literals(literals, done)
      invariant Environment(env) == base + over
    {
      var k :| k in todo;
      LiteralsStep(literals, done, k);
      AppendOverrides(base, env, over, EnvVar(k, Literal(literals[k])));
      env := env + [EnvVar(k, Literal(literals[k]))];
      over := over[k := Literal(literals[k])];
      todo, done := todo - {k}, done + {k};
    }
    assert done == literals.Keys;
  }

  method AppendRefs(refs: map<string, KeyRef>, secret: bool, before: seq<EnvVar>) returns (env: seq<EnvVar>)
    ensures Environment(env) == Environment(before) + Refs(refs, secret, refs.Keys)
  {
    env := before;
    var todo := refs.Keys;
    ghost var done, over, base := {}, Refs(refs, secret, {}), Environment(before);
    assert base == base + over;
    while todo != {}
      invariant done !! todo && done + todo == refs.Keys
      invariant over == Refs(refs, secret, done)
      invariant Environment(env) == base + over
    {
      var k :| k in todo;
      var ref := refs[k];
      RefsStep(refs, secret, done, k);
      todo, done := todo - {k}, done + {k};
      if ref.name == "" || ref.key == "" {
        continue;
      }
      AppendOverrides(base, env, over, EnvVar(k, RefSource(ref, secret)));
      env := env + [EnvVar(k, RefSource(ref, secret))];
      over := over[k := RefSource(ref, secret)];
    }
    assert done == refs.Keys;
  }

  // ------------------------------------------------------ container and Job

  /** What the container runs: the mounted file for a path source, otherwise the text itself. */
  function CommandOf(ctx: Context): seq<string> {
    if RunsFromPath(ctx) then [ctx.interpreter, ctx.scriptSource.path] else [ctx.interpreter, "-c", ctx.script]
  }

  /** Everything a Job promises about the context it was built from. The order of the environment
      list is the only thing left open. */
  ghost predicate BuiltFrom(job: Job, ctx: Context) {
    && (ctx.executionID != "" ==> job.name == JOB_PREFIX + ctx.executionID)
    && job.container.image == ctx.image
    && job.container.command == CommandOf(ctx)
    && job.container.args == ctx.args
    && Environment(job.container.env) == EnvironmentOf(ctx) && AsAsked(ctx, Environment(job.container.env))
    && job.container.mounts == MountsOf(ctx)
    && job.volumes == VolumesOf(ctx)
  }

  method BuildContainer(ctx: Context) returns (container: Container)
    ensures container.image == ctx.image && container.command == CommandOf(ctx) && container.args == ctx.args
    ensures Environment(container.env) == EnvironmentOf(ctx) && AsAsked(ctx, Environment(container.env))
    ensures container.mounts == MountsOf(ctx)
  {
    var env := BuildEnvVars(ctx);
    var mounts := BuildVolumeMounts(ctx);
    container := Container(ctx.image, [], [], env, mounts);
    if ctx.scriptSource.kind == FromPath {
      container := container.(command := [ctx.interpreter, ctx.scriptSource.path], args := ctx.args);
    } else {
      container := container.(command := [ctx.interpreter, "-c", ctx.script], args := ctx.args);
    }
  }

  method Build(ctx: Context, unixSeconds: nat) returns (job: Job)
    ensures BuiltFrom(job, ctx)
    ensures job.name == JobName(ctx.executionID, unixSeconds)
  {
    var name := JOB_PREFIX + ctx.executionID;
    if name == JOB_PREFIX {
      name := JOB_PREFIX + Decimal(unixSeconds);
    }
    assert ctx.executionID != "" ==> |JOB_PREFIX + ctx.executionID| > |JOB_PREFIX|;
    var container := BuildContainer(ctx);
    var volumes := BuildVolumes(ctx);
    job := Job(name, container, volumes);
  }
}
