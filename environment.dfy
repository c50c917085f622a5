/** The resolution rules of the test configuration: how each setting is
    read from the process environment, with its default. The environment
    is an explicit map; a variable that is unset reads as the empty
    string, as os.Getenv does. Durations are integers counting
    nanoseconds, and the duration parser is a parameter. */
module Environment {
  import opened Wrappers

  type Env = map<string, string>

  /** A duration in nanoseconds, as Go's time.Duration counts it. */
  type Duration = int

  /** Go's time.ParseDuration, reduced to "a value or a failure". */
  type Parser = string -> Option<Duration>

  const Minute: Duration := 60_000_000_000

  const DefaultDeploymentTimeout: Duration := 60 * Minute
  const DefaultASOControllerTimeout: Duration := 10 * Minute
  const DefaultMCEEnablementTimeout: Duration := 15 * Minute
  const DefaultHelmInstallTimeout: Duration := 10 * Minute

  /** The namespace every controller lives in when USE_K8S is "true". */
  const MCENamespace := "multicluster-engine"

  /** The value of `key`, or "" when it is unset. */
  function Getenv(env: Env, key: string): (v: string)
    ensures key !in env ==> v == ""
    ensures key in env ==> v == env[key]
  {
    if key in env then env[key] else ""
  }

  /** The value of `key` when it is non-empty, `default` otherwise. */
  function GetEnvOrDefault(env: Env, key: string, default: string): (v: string)
    ensures v == default || (key in env && v == env[key] != "")
    ensures Getenv(env, key) != "" ==> v == env[key]
    ensures Getenv(env, key) == "" ==> v == default
  {
    var value := Getenv(env, key);
    if value != "" then value else default
  }

  /** The write NewTestConfig makes before anything else: with an external
      kubeconfig and no USE_K8S setting, USE_K8S becomes "true". */
  function WithImplicitUseK8s(env: Env): (env': Env)
    ensures Getenv(env, "USE_KUBECONFIG") != "" && Getenv(env, "USE_K8S") == "" ==>
              env' == env["USE_K8S" := "true"]
    ensures !(Getenv(env, "USE_KUBECONFIG") != "" && Getenv(env, "USE_K8S") == "") ==>
              env' == env
  {
    if Getenv(env, "USE_KUBECONFIG") != "" && Getenv(env, "USE_K8S") == "" then
      env["USE_K8S" := "true"]
    else
      env
  }

  /** Only USE_K8S may change, it changes only from empty to "true", and
      applying the rule twice is applying it once. */
  lemma ImplicitUseK8sFrame(env: Env, key: string)
    ensures key != "USE_K8S" ==> Getenv(WithImplicitUseK8s(env), key) == Getenv(env, key)
    ensures Getenv(env, "USE_K8S") != "" ==> WithImplicitUseK8s(env) == env
    ensures Getenv(WithImplicitUseK8s(env), "USE_K8S") == "true" <==>
              Getenv(env, "USE_K8S") == "true" ||
              (Getenv(env, "USE_KUBECONFIG") != "" && Getenv(env, "USE_K8S") == "")
    ensures WithImplicitUseK8s(WithImplicitUseK8s(env)) == WithImplicitUseK8s(env)
  {
  }

  /** getControllerNamespace: "multicluster-engine" in USE_K8S mode, else a
      non-empty override from `envVar`, else `defaultNS`. */
  function ControllerNamespace(env: Env, envVar: string, defaultNS: string): (ns: string)
    ensures Getenv(env, "USE_K8S") == "true" ==> ns == MCENamespace
    ensures Getenv(env, "USE_K8S") != "true" && Getenv(env, envVar) != "" ==> ns == env[envVar]
    ensures Getenv(env, "USE_K8S") != "true" && Getenv(env, envVar) == "" ==> ns == defaultNS
  {
    if Getenv(env, "USE_K8S") == "true" then MCENamespace
    else if Getenv(env, envVar) != "" then Getenv(env, envVar)
    else defaultNS
  }

  /** With an external kubeconfig, every controller namespace is the MCE
      namespace once the implicit USE_K8S write has been made, whatever the
      per-provider overrides say. */
  lemma ExternalClusterUsesMCENamespace(env: Env, envVar: string, defaultNS: string)
    requires Getenv(env, "USE_KUBECONFIG") != ""
    requires Getenv(env, "USE_K8S") == "" || Getenv(env, "USE_K8S") == "true"
    ensures ControllerNamespace(WithImplicitUseK8s(env), envVar, defaultNS) == MCENamespace
  {
    ImplicitUseK8sFrame(env, "USE_K8S");
  }

  /** The shape shared by parseDeploymentTimeout, parseASOControllerTimeout,
      parseHelmInstallTimeout and parseMCEEnablementTimeout: an empty or
      unparsable value gives the default, a parsable one its parsed value. */
  function ParseTimeout(env: Env, key: string, default: Duration, parse: Parser): (t: Duration)
    ensures Getenv(env, key) == "" ==> t == default
    ensures Getenv(env, key) != "" && parse(env[key]).None? ==> t == default
    ensures Getenv(env, key) != "" && parse(env[key]).Some? ==> t == parse(env[key]).value
  {
    var s := Getenv(env, key);
    if s == "" then default
    else match parse(s)
      case None => default
      case Some(d) => d
  }

  /** A timeout is either its default or a value the parser produced from
      the variable's own text: no other value can come out. */
  lemma ParseTimeoutOrigin(env: Env, key: string, default: Duration, parse: Parser)
    ensures var t := ParseTimeout(env, key, default, parse);
            t == default || (key in env && parse(env[key]) == Some(t))
  {
  }

  function ParseDeploymentTimeout(env: Env, parse: Parser): (t: Duration)
    ensures Getenv(env, "DEPLOYMENT_TIMEOUT") == "" ==> t == DefaultDeploymentTimeout
  {
    ParseTimeout(env, "DEPLOYMENT_TIMEOUT", DefaultDeploymentTimeout, parse)
  }

  function ParseASOControllerTimeout(env: Env, parse: Parser): (t: Duration)
    ensures Getenv(env, "ASO_CONTROLLER_TIMEOUT") == "" ==> t == DefaultASOControllerTimeout
  {
    ParseTimeout(env, "ASO_CONTROLLER_TIMEOUT", DefaultASOControllerTimeout, parse)
  }

  function ParseHelmInstallTimeout(env: Env, parse: Parser): (t: Duration)
    ensures Getenv(env, "HELM_INSTALL_TIMEOUT") == "" ==> t == DefaultHelmInstallTimeout
  {
    ParseTimeout(env, "HELM_INSTALL_TIMEOUT", DefaultHelmInstallTimeout, parse)
  }

  function ParseMCEEnablementTimeout(env: Env, parse: Parser): (t: Duration)
    ensures Getenv(env, "MCE_ENABLEMENT_TIMEOUT") == "" ==> t == DefaultMCEEnablementTimeout
  {
    ParseTimeout(env, "MCE_ENABLEMENT_TIMEOUT", DefaultMCEEnablementTimeout, parse)
  }

  /** parseMCEAutoEnable: an explicit MCE_AUTO_ENABLE is honoured exactly
      ("true" enables, any other non-empty value disables); without one,
      auto-enablement is on exactly when an external kubeconfig is used. */
  function ParseMCEAutoEnable(env: Env, useKubeconfig: string): (enabled: bool)
    ensures Getenv(env, "MCE_AUTO_ENABLE") != "" ==> (enabled <==> env["MCE_AUTO_ENABLE"] == "true")
    ensures Getenv(env, "MCE_AUTO_ENABLE") == "" ==> (enabled <==> useKubeconfig != "")
  {
    var envVal := Getenv(env, "MCE_AUTO_ENABLE");
    if envVal != "" then envVal == "true" else useKubeconfig != ""
  }

  /** The directory name used under the temporary directory. */
  const RepoDirName := "cluster-api-installer-aro"

  /** What getDefaultRepoDir computes on its first call: ARO_REPO_DIR when
      set, otherwise a fixed (not randomised) path under the temporary
      directory, so that later phases run as separate processes find it. */
  function ResolveRepoDir(env: Env, tempDir: string): (dir: string)
    ensures dir != ""
    ensures Getenv(env, "ARO_REPO_DIR") != "" ==> dir == env["ARO_REPO_DIR"]
    ensures Getenv(env, "ARO_REPO_DIR") == "" ==>
              dir == tempDir + "/" + RepoDirName
  {
    var dir := Getenv(env, "ARO_REPO_DIR");
    if dir != "" then dir else tempDir + "/" + RepoDirName
  }

  /** Without an override, the path depends on the temporary directory
      alone: two processes with the same temporary directory agree. */
  lemma RepoDirStable(env1: Env, env2: Env, tempDir: string)
    requires Getenv(env1, "ARO_REPO_DIR") == "" && Getenv(env2, "ARO_REPO_DIR") == ""
    ensures ResolveRepoDir(env1, tempDir) == ResolveRepoDir(env2, tempDir)
    ensures var dir := ResolveRepoDir(env1, tempDir);
            dir[..|tempDir|] == tempDir && dir[|dir| - |RepoDirName|..] == RepoDirName
  {
    var dir := ResolveRepoDir(env1, tempDir);
    assert dir == tempDir + ("/" + RepoDirName);
  }

  /** The outcome of reading and decoding .deployment-state.json. */
  datatype StateRead =
    | Unreadable                                  // os.ReadFile failed
    | Malformed                                   // json.Unmarshal failed
    | Parsed(workloadClusterNamespace: string)    // decoded; "" when the field is absent

  /** The state file's path inside the repository directory. */
  function StateFilePath(repoDir: string): (path: string)
    ensures |path| > |repoDir| && path[..|repoDir|] == repoDir
  {
    repoDir + "/.deployment-state.json"
  }

  /** What getWorkloadClusterNamespace computes on its first call: a
      non-empty WORKLOAD_CLUSTER_NAMESPACE, else the namespace recorded by an
      earlier run when the state file decodes with a non-empty field, else
      the prefix (default "capz-test") joined to the timestamp with "-". */
  function ResolveWorkloadNamespace(env: Env, state: StateRead, timestamp: string): (ns: string)
    ensures ns != ""
    ensures Getenv(env, "WORKLOAD_CLUSTER_NAMESPACE") != "" ==>
              ns == env["WORKLOAD_CLUSTER_NAMESPACE"]
    ensures Getenv(env, "WORKLOAD_CLUSTER_NAMESPACE") == "" &&
            state.Parsed? && state.workloadClusterNamespace != "" ==>
              ns == state.workloadClusterNamespace
    ensures Getenv(env, "WORKLOAD_CLUSTER_NAMESPACE") == "" &&
            !(state.Parsed? && state.workloadClusterNamespace != "") ==>
              ns == GetEnvOrDefault(env, "WORKLOAD_CLUSTER_NAMESPACE_PREFIX", "capz-test") + "-" + timestamp
  {
    var override := Getenv(env, "WORKLOAD_CLUSTER_NAMESPACE");
    if override != "" then override
    else if state.Parsed? && state.workloadClusterNamespace != "" then state.workloadClusterNamespace
    else GetEnvOrDefault(env, "WORKLOAD_CLUSTER_NAMESPACE_PREFIX", "capz-test") + "-" + timestamp
  }

  /** Resuming: when a later phase finds in the state file the namespace an
      earlier phase resolved, it resolves the same namespace, whatever the
      clock says then. */
  lemma ResumeKeepsNamespace(env: Env, first: StateRead, t1: string, t2: string)
    ensures var ns := ResolveWorkloadNamespace(env, first, t1);
            ResolveWorkloadNamespace(env, Parsed(ns), t2) == ns
  {
  }

  /** A freshly generated namespace starts with the prefix and a dash and
      ends with the timestamp; an unreadable, malformed or empty state file
      all lead to it. */
  lemma FreshNamespaceFormat(env: Env, state: StateRead, timestamp: string)
    requires Getenv(env, "WORKLOAD_CLUSTER_NAMESPACE") == ""
    requires !state.Parsed? || state.workloadClusterNamespace == ""
    ensures var ns := ResolveWorkloadNamespace(env, state, timestamp);
            var prefix := GetEnvOrDefault(env, "WORKLOAD_CLUSTER_NAMESPACE_PREFIX", "capz-test");
            |ns| == |prefix| + 1 + |timestamp| &&
            ns[..|prefix|] == prefix && ns[|prefix|] == '-' && ns[|prefix| + 1..] == timestamp
  {
  }
}
