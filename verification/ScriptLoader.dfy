/** Where the script text of an execution comes from (`internal/script`).
    A read that fails and an object that does not exist are one case: both return the
    API error to the caller. */
module ScriptLoader {
  import opened Common

  const APPROVED_SCRIPTS := "approved-scripts"
  const SCRIPTS_DIR := "/scripts/"

  /** Request parameters, a protobuf `Struct`. */
  datatype Value =
    | NullValue
    | NumberValue(number: real)
    | StringValue(text: string)
    | BoolValue(flag: bool)
    | StructValue(fields: map<string, Value>)
    | ListValue(values: seq<Value>)

  type Params = map<string, Value>

  function GetString(m: Params, key: string, default: string): string {
    if key in m && m[key].StringValue? && m[key].text != "" then m[key].text else default
  }

  function GetMap(m: Params, key: string): Option<Params> {
    if key in m && m[key].StructValue? then Some(m[key].fields) else None
  }

  function GetBool(m: Params, key: string): bool {
    key in m && m[key].BoolValue? && m[key].flag
  }

  function TextOf(v: Value): string {
    if v.StringValue? then v.text else ""
  }

  function GetStringSlice(m: Params, key: string): seq<string> {
    if key in m && m[key].ListValue?
    then seq(|m[key].values|, i requires 0 <= i < |m[key].values| => TextOf(m[key].values[i]))
    else []
  }

  datatype SourceType = Inline | FromConfigMap | FromSecret | FromPath | FromRegistry

  datatype Source = Source(kind: SourceType, content: string, path: string, name: string, key: string, ns: string)

  /** Namespace and name. */
  type ObjectName = (string, string)

  datatype RegistryEntry = RegistryEntry(configMap: string, secret: string, key: string)

  /** The readable objects at one moment. `registry` is the parsed `registry.yaml`, absent
      when the object, the key or the syntax is missing. */
  datatype Cluster = Cluster(
    configMaps: map<ObjectName, map<string, string>>,
    secrets: map<ObjectName, map<string, string>>,
    registry: Option<map<string, RegistryEntry>>)

  datatype LoadError = IncompleteReference | NotFound | BadPath | NotApprovedPath | BadRegistryEntry | NoSource

  type Loaded = Result<(string, Source), LoadError>

  function ReadKey(objects: map<ObjectName, map<string, string>>, ns: string, name: string, key: string): Option<string> {
    if (ns, name) in objects && key in objects[(ns, name)] then Some(objects[(ns, name)][key]) else None
  }

  function LoadReference(objects: map<ObjectName, map<string, string>>, kind: SourceType,
                         ns: string, name: string, key: string): Loaded {
    match ReadKey(objects, ns, name, key)
    case Some(content) => Ok((content, Source(kind, content, "", name, key, ns)))
    case None => Err(NotFound)
  }

  /** The key a `script_path` names inside the approved-scripts ConfigMap. */
  function PathKey(path: string): Option<string> {
    if HasPrefix(path, SCRIPTS_DIR) && |path| > |SCRIPTS_DIR| then Some(path[|SCRIPTS_DIR|..]) else None
  }

  function LoadPath(cluster: Cluster, ns: string, path: string): Loaded {
    match PathKey(path)
    case None => Err(BadPath)
    case Some(key) =>
      if (ns, APPROVED_SCRIPTS) !in cluster.configMaps then Err(NotFound)
      else if key !in cluster.configMaps[(ns, APPROVED_SCRIPTS)] then Err(NotApprovedPath)
      else Ok(("", Source(FromPath, "", path, "", "", "")))
  }

  function LoadById(cluster: Cluster, ns: string, id: string): Loaded {
    if cluster.registry.None? || id !in cluster.registry.value then Err(NotFound)
    else
      var entry := cluster.registry.value[id];
      if (entry.configMap == "" && entry.secret == "") || entry.key == "" then Err(BadRegistryEntry)
      else if entry.configMap != "" && entry.secret != "" then Err(BadRegistryEntry)
      else if entry.configMap != "" then LoadReference(cluster.configMaps, FromRegistry, ns, entry.configMap, entry.key)
      else LoadReference(cluster.secrets, FromRegistry, ns, entry.secret, entry.key)
  }

  function LoadScript(cluster: Cluster, ns: string, params: Params): Loaded {
    var inline := GetString(params, "inline_script", "");
    var cmRef := GetMap(params, "script_from_configmap");
    var secretRef := GetMap(params, "script_from_secret");
    var path := GetString(params, "script_path", "");
    var id := GetString(params, "script_id", "");
    if inline != "" then
      Ok((inline, Source(Inline, inline, "", "", "", "")))
    else if cmRef.Some? && |cmRef.value| > 0 then
      var name, key := GetString(cmRef.value, "configmap_name", ""), GetString(cmRef.value, "key", "");
      if name == "" || key == "" then Err(IncompleteReference)
      else LoadReference(cluster.configMaps, FromConfigMap, GetString(cmRef.value, "namespace", ns), name, key)
    else if secretRef.Some? && |secretRef.value| > 0 then
      var name, key := GetString(secretRef.value, "secret_name", ""), GetString(secretRef.value, "key", "");
      if name == "" || key == "" then Err(IncompleteReference)
      else LoadReference(cluster.secrets, FromSecret, GetString(secretRef.value, "namespace", ns), name, key)
    else if path != "" then LoadPath(cluster, ns, path)
    else if id != "" then LoadById(cluster, ns, id)
    else Err(NoSource)
  }

  /** The object of this name and key, in this namespace, is the one that `ref` refers to. */
  ghost predicate RefersTo(ref: Option<Params>, nameField: string, ns: string, source: Source) {
    && ref.Some? && source.name != "" && source.key != ""
    && source.name == GetString(ref.value, nameField, "") && source.key == GetString(ref.value, "key", "")
    && source.ns == GetString(ref.value, "namespace", ns)
  }

  /** The text and the source description tell the truth about the request and the cluster that was
      read: a path execution carries no text and names an approved key, any other execution carries
      exactly the text it was given, or the text stored at the place its request, or the registry
      entry its request names, refers to. */
  ghost predicate Truthful(cluster: Cluster, ns: string, params: Params, content: string, source: Source) {
    match source.kind
    case Inline => content == source.content == GetString(params, "inline_script", "") != ""
    case FromConfigMap =>
      && content == source.content && RefersTo(GetMap(params, "script_from_configmap"), "configmap_name", ns, source)
      && ReadKey(cluster.configMaps, source.ns, source.name, source.key) == Some(content)
    case FromSecret =>
      && content == source.content && RefersTo(GetMap(params, "script_from_secret"), "secret_name", ns, source)
      && ReadKey(cluster.secrets, source.ns, source.name, source.key) == Some(content)
    case FromRegistry =>
      var id := GetString(params, "script_id", "");
      && content == source.content && source.ns == ns && id != ""
      && cluster.registry.Some? && id in cluster.registry.value
      && var entry := cluster.registry.value[id];
      && source.key == entry.key != "" && source.name != ""
      && (|| (entry == RegistryEntry(source.name, "", entry.key) && ReadKey(cluster.configMaps, ns, source.name, entry.key) == Some(content))
          || (entry == RegistryEntry("", source.name, entry.key) && ReadKey(cluster.secrets, ns, source.name, entry.key) == Some(content)))
    case FromPath =>
      && content == source.content == "" && source.path == GetString(params, "script_path", "")
      && exists key :: source.path == SCRIPTS_DIR + key && key != "" && ReadKey(cluster.configMaps, ns, APPROVED_SCRIPTS, key).Some?
  }

  lemma {:induction false} LoadedIsTruthful(cluster: Cluster, ns: string, params: Params)
    ensures match LoadScript(cluster, ns, params)
            case Ok((content, source)) => Truthful(cluster, ns, params, content, source)
            case Err(_) => true
  {
    var loaded := LoadScript(cluster, ns, params);
    if loaded.Ok? && loaded.value.1.kind == FromPath {
      var path := loaded.value.1.path;
      assert path == SCRIPTS_DIR + path[|SCRIPTS_DIR|..];
      assert ReadKey(cluster.configMaps, ns, APPROVED_SCRIPTS, path[|SCRIPTS_DIR|..]).Some?;
    }
  }

  const SOURCE_KEYS := ["inline_script", "script_from_configmap", "script_from_secret", "script_path", "script_id"]
  const SOURCE_KINDS := [Inline, FromConfigMap, FromSecret, FromPath, FromRegistry]

  /** The request gives the n-th kind of source: a text or reference that is not empty. */
  predicate Given(params: Params, n: nat)
    requires n < |SOURCE_KEYS|
  {
    && SOURCE_KEYS[n] in params
    && match params[SOURCE_KEYS[n]]
       case StringValue(text) => n in {0, 3, 4} && text != ""
       case StructValue(fields) => n in {1, 2} && fields != map[]
       case _ => false
  }

  /** A request that gives no source at all is refused, and only such a request is refused for that. */
  lemma {:induction false} NoSourceGiven(cluster: Cluster, ns: string, params: Params)
    ensures LoadScript(cluster, ns, params) == Err(NoSource) <==> forall n: nat :: n < |SOURCE_KEYS| ==> !Given(params, n)
  {
    if LoadScript(cluster, ns, params) == Err(NoSource) {
      assert |SOURCE_KEYS| == 5;
    } else {
      assert Given(params, 0) || Given(params, 1) || Given(params, 2) || Given(params, 3) || Given(params, 4);
    }
  }

  /** The first source given is the one used: parameters after it in the list are never looked at. */
  lemma {:induction false} FirstSourceWins(cluster: Cluster, ns: string, params: Params, params': Params, n: nat)
    requires n < |SOURCE_KEYS| && Given(params, n) && forall m: nat :: m < n ==> !Given(params, m)
    requires forall m: nat :: m <= n ==> (SOURCE_KEYS[m] in params <==> SOURCE_KEYS[m] in params')
    requires forall m: nat :: m <= n && SOURCE_KEYS[m] in params ==> params'[SOURCE_KEYS[m]] == params[SOURCE_KEYS[m]]
    ensures LoadScript(cluster, ns, params') == LoadScript(cluster, ns, params)
    ensures LoadScript(cluster, ns, params) != Err(NoSource)
    ensures LoadScript(cluster, ns, params).Ok? ==> LoadScript(cluster, ns, params).value.1.kind == SOURCE_KINDS[n]
  {
    assert |SOURCE_KEYS| == 5;
    assert !Given(params, 0) || n == 0;
    assert n > 1 ==> !Given(params, 1);
    assert n > 2 ==> !Given(params, 2);
    assert n > 3 ==> !Given(params, 3);
  }

  /** A script path is accepted exactly when it names a non-empty key under `/scripts/` that the
      approved-scripts ConfigMap holds. */
  lemma {:induction false} PathAccepted(cluster: Cluster, ns: string, path: string)
    ensures LoadPath(cluster, ns, path).Ok? <==>
            exists key :: path == SCRIPTS_DIR + key && key != "" && ReadKey(cluster.configMaps, ns, APPROVED_SCRIPTS, key).Some?
  {
    if LoadPath(cluster, ns, path).Ok? {
      var key := path[|SCRIPTS_DIR|..];
      assert path == SCRIPTS_DIR + key;
      assert ReadKey(cluster.configMaps, ns, APPROVED_SCRIPTS, key).Some?;
    }
    forall key | path == SCRIPTS_DIR + key
      ensures path[|SCRIPTS_DIR|..] == key && HasPrefix(path, SCRIPTS_DIR)
    {}
  }

  // ------------------------------------------- what a request gets, as written

  /** The request holds this text, which is not empty, under `k`. */
  predicate HasText(m: Params, k: string, text: string) {
    k in m && m[k] == StringValue(text) && text != ""
  }

  predicate LacksText(m: Params, k: string) {
    k !in m || !m[k].StringValue? || m[k] == StringValue("")
  }

  predicate HasReference(m: Params, k: string, ref: Params) {
    k in m && m[k] == StructValue(ref) && ref != map[]
  }

  predicate LacksReference(m: Params, k: string) {
    k !in m || !m[k].StructValue? || m[k] == StructValue(map[])
  }

  lemma {:induction false} EmptyMapIsNothing(m: Params)
    ensures |m| > 0 <==> m != map[]
  {
    if m != map[] {
      var k :| k in m;
      assert k in m.Keys;
    }
  }

  lemma {:induction false} LoadsInline(cluster: Cluster, ns: string, params: Params, text: string)
    requires HasText(params, "inline_script", text)
    ensures LoadScript(cluster, ns, params) == Ok((text, Source(Inline, text, "", "", "", "")))
  {}

  /** What `objects` hold for a name and a key. */
  predicate Holds(objects: map<ObjectName, map<string, string>>, ns: string, name: string, key: string, content: string) {
    (ns, name) in objects && key in objects[(ns, name)] && objects[(ns, name)][key] == content
  }

  /** Where a reference points: at the namespace it names, otherwise at the executor's own. */
  predicate PointsAt(ref: Params, nameField: string, ns: string, place: string, name: string, key: string) {
    && HasText(ref, nameField, name) && HasText(ref, "key", key)
    && (HasText(ref, "namespace", place) || (LacksText(ref, "namespace") && place == ns))
  }

  /** A ConfigMap reference without an inline script: it loads the text stored where it points, and fails
      if it names no object or key, or points at nothing. */
  lemma {:induction false} LoadsConfigMap(cluster: Cluster, ns: string, params: Params, ref: Params)
    requires LacksText(params, "inline_script") && HasReference(params, "script_from_configmap", ref)
    ensures forall place, name, key, content :: PointsAt(ref, "configmap_name", ns, place, name, key) && Holds(cluster.configMaps, place, name, key, content)
              ==> LoadScript(cluster, ns, params) == Ok((content, Source(FromConfigMap, content, "", name, key, place)))
    ensures LoadScript(cluster, ns, params).Ok? ==>
              exists place, name, key, content :: PointsAt(ref, "configmap_name", ns, place, name, key) && Holds(cluster.configMaps, place, name, key, content)
    ensures LacksText(ref, "configmap_name") || LacksText(ref, "key") ==> LoadScript(cluster, ns, params) == Err(IncompleteReference)
  {
    EmptyMapIsNothing(ref);
    var r := LoadScript(cluster, ns, params);
    if r.Ok? {
      var source := r.value.1;
      assert PointsAt(ref, "configmap_name", ns, source.ns, source.name, source.key);
      assert Holds(cluster.configMaps, source.ns, source.name, source.key, r.value.0);
    }
  }

  /** Likewise a Secret reference, without an inline script or a ConfigMap reference. */
  lemma {:induction false} LoadsSecret(cluster: Cluster, ns: string, params: Params, ref: Params)
    requires LacksText(params, "inline_script") && LacksReference(params, "script_from_configmap")
    requires HasReference(params, "script_from_secret", ref)
    ensures forall place, name, key, content :: PointsAt(ref, "secret_name", ns, place, name, key) && Holds(cluster.secrets, place, name, key, content)
              ==> LoadScript(cluster, ns, params) == Ok((content, Source(FromSecret, content, "", name, key, place)))
    ensures LoadScript(cluster, ns, params).Ok? ==>
              exists place, name, key, content :: PointsAt(ref, "secret_name", ns, place, name, key) && Holds(cluster.secrets, place, name, key, content)
    ensures LacksText(ref, "secret_name") || LacksText(ref, "key") ==> LoadScript(cluster, ns, params) == Err(IncompleteReference)
  {
    EmptyMapIsNothing(ref);
    var r := LoadScript(cluster, ns, params);
    if r.Ok? {
      var source := r.value.1;
      assert PointsAt(ref, "secret_name", ns, source.ns, source.name, source.key);
      assert Holds(cluster.secrets, source.ns, source.name, source.key, r.value.0);
    }
  }

  predicate NoEarlierSource(params: Params) {
    LacksText(params, "inline_script") && LacksReference(params, "script_from_configmap") && LacksReference(params, "script_from_secret")
  }

  /** A path, without any of these: it loads no text, and succeeds if and only if it is `/scripts/` and a
      key of the ConfigMap `approved-scripts`. */
  lemma {:induction false} LoadsPath(cluster: Cluster, ns: string, params: Params, path: string)
    requires NoEarlierSource(params) && HasText(params, "script_path", path)
    ensures LoadScript(cluster, ns, params).Ok? <==>
            exists key, content :: path == "/scripts/" + key && key != "" && Holds(cluster.configMaps, ns, "approved-scripts", key, content)
    ensures LoadScript(cluster, ns, params).Ok? ==> LoadScript(cluster, ns, params) == Ok(("", Source(FromPath, "", path, "", "", "")))
  {
    PathAccepted(cluster, ns, path);
    if LoadScript(cluster, ns, params).Ok? {
      var key :| path == "/scripts/" + key && key != "" && ReadKey(cluster.configMaps, ns, APPROVED_SCRIPTS, key).Some?;
      assert Holds(cluster.configMaps, ns, "approved-scripts", key, cluster.configMaps[(ns, "approved-scripts")][key]);
    }
    if exists key, content :: path == "/scripts/" + key && key != "" && Holds(cluster.configMaps, ns, "approved-scripts", key, content) {
      var key, content :| path == "/scripts/" + key && key != "" && Holds(cluster.configMaps, ns, "approved-scripts", key, content);
      assert ReadKey(cluster.configMaps, ns, APPROVED_SCRIPTS, key).Some?;
    }
  }

  /** The text a registry entry stands for, if it names exactly one object and a key that it holds. */
  predicate EntryHolds(cluster: Cluster, ns: string, entry: RegistryEntry, name: string, content: string) {
    && entry.key != "" && name != ""
    && ((entry.configMap == name && entry.secret == "" && Holds(cluster.configMaps, ns, name, entry.key, content))
        || (entry.secret == name && entry.configMap == "" && Holds(cluster.secrets, ns, name, entry.key, content)))
  }

  /** A script ID, without any of these: it loads what its registry entry stands for. */
  lemma {:induction false} LoadsById(cluster: Cluster, ns: string, params: Params, id: string)
    requires NoEarlierSource(params) && LacksText(params, "script_path") && HasText(params, "script_id", id)
    ensures forall name, content :: cluster.registry.Some? && id in cluster.registry.value && EntryHolds(cluster, ns, cluster.registry.value[id], name, content)
              ==> LoadScript(cluster, ns, params) == Ok((content, Source(FromRegistry, content, "", name, cluster.registry.value[id].key, ns)))
    ensures LoadScript(cluster, ns, params).Ok? ==>
              && cluster.registry.Some? && id in cluster.registry.value
              && exists name, content :: EntryHolds(cluster, ns, cluster.registry.value[id], name, content)
  {
    var r := LoadScript(cluster, ns, params);
    if r.Ok? {
      assert EntryHolds(cluster, ns, cluster.registry.value[id], r.value.1.name, r.value.0);
    }
  }

  /** The names a request lists, an entry that is not a text counting as an empty one. */
  lemma {:induction false} ListAsWritten(m: Params, k: string)
    ensures k in m && m[k].ListValue? ==>
              && |GetStringSlice(m, k)| == |m[k].values|
              && forall i, text :: 0 <= i < |m[k].values| && m[k].values[i] == StringValue(text) ==> GetStringSlice(m, k)[i] == text
    ensures k in m && m[k].ListValue? ==>
              forall i :: 0 <= i < |m[k].values| && !m[k].values[i].StringValue? ==> GetStringSlice(m, k)[i] == ""
    ensures k !in m || !m[k].ListValue? ==> GetStringSlice(m, k) == []
  {}
}
