/** The process-wide state NewTestConfig works on: the environment, which it
    may write to, and the two values getDefaultRepoDir and
    getWorkloadClusterNamespace compute once per process (sync.Once). */
module Process {
  import opened Wrappers
  import opened Environment
  import opened Providers
  import opened Config

  class ProcessState {
    /** The process environment (os.Getenv / os.Setenv). */
    var env: Env
    /** os.TempDir(). */
    const tempDir: string
    /** What reading and decoding a state file at each path gives; a path
        that is absent reads as Unreadable. */
    const stateFiles: map<string, StateRead>
    /** The memoised results; None until the first call. */
    var defaultRepoDir: Option<string>
    var workloadClusterNamespace: Option<string>

    /** A memoised value is never empty. */
    predicate Valid()
      reads this
    {
      && (defaultRepoDir.Some? ==> defaultRepoDir.value != "")
      && (workloadClusterNamespace.Some? ==> workloadClusterNamespace.value != "")
    }

    constructor(env: Env, tempDir: string, stateFiles: map<string, StateRead>)
      ensures Valid()
      ensures this.env == env && this.tempDir == tempDir && this.stateFiles == stateFiles
      ensures defaultRepoDir == None && workloadClusterNamespace == None
    {
      this.env := env;
      this.tempDir := tempDir;
      this.stateFiles := stateFiles;
      defaultRepoDir := None;
      workloadClusterNamespace := None;
    }

    /** Reading and decoding the state file of the repository directory
        `repoDir`. */
    function ReadState(repoDir: string): StateRead
    {
      var path := StateFilePath(repoDir);
      if path in stateFiles then stateFiles[path] else Unreadable
    }

    /** What getDefaultRepoDir returns if called now. */
    function RepoDir(): string
      reads this
    {
      match defaultRepoDir
      case Some(dir) => dir
      case None => ResolveRepoDir(env, tempDir)
    }

    /** What getWorkloadClusterNamespace returns if called now at `timestamp`. */
    function WorkloadNamespace(timestamp: string): string
      reads this
    {
      match workloadClusterNamespace
      case Some(ns) => ns
      case None => ResolveWorkloadNamespace(env, ReadState(RepoDir()), timestamp)
    }

    /** os.Setenv. */
    method Setenv(key: string, value: string)
      requires Valid()
      modifies this`env
      ensures Valid()
      ensures env == old(env)[key := value]
    {
      env := env[key := value];
    }

    /** getDefaultRepoDir: the first call resolves and records the directory;
        every later call returns the recorded one, whatever the environment
        says by then. */
    method GetDefaultRepoDir() returns (dir: string)
      requires Valid()
      modifies this`defaultRepoDir
      ensures Valid()
      ensures dir != "" && dir == old(RepoDir()) && defaultRepoDir == Some(dir)
      ensures old(defaultRepoDir).Some? ==> dir == old(defaultRepoDir).value
      ensures old(defaultRepoDir).None? ==> dir == ResolveRepoDir(env, tempDir)
    {
      if defaultRepoDir.None? {
        defaultRepoDir := Some(ResolveRepoDir(env, tempDir));
      }
      dir := defaultRepoDir.value;
    }

    /** getWorkloadClusterNamespace: the first call resolves and records the
        namespace from the override, the state file in the repository
        directory (resolving that directory first if needed) or the clock;
        every later call returns the recorded one. */
    method GetWorkloadClusterNamespace(timestamp: string) returns (ns: string)
      requires Valid()
      modifies this`defaultRepoDir, this`workloadClusterNamespace
      ensures Valid()
      ensures ns != "" && ns == old(WorkloadNamespace(timestamp)) && workloadClusterNamespace == Some(ns)
      ensures old(workloadClusterNamespace).Some? ==>
                ns == old(workloadClusterNamespace).value && defaultRepoDir == old(defaultRepoDir)
      ensures RepoDir() == old(RepoDir())
      ensures old(workloadClusterNamespace).None? && Getenv(env, "WORKLOAD_CLUSTER_NAMESPACE") == "" ==>
                defaultRepoDir == Some(old(RepoDir()))
      ensures old(workloadClusterNamespace).Some? || Getenv(env, "WORKLOAD_CLUSTER_NAMESPACE") != "" ==>
                defaultRepoDir == old(defaultRepoDir)
    {
      if workloadClusterNamespace.None? {
        var override := Getenv(env, "WORKLOAD_CLUSTER_NAMESPACE");
        if override != "" {
          workloadClusterNamespace := Some(override);
        } else {
          var repoDir := GetDefaultRepoDir();
          var state := ReadState(repoDir);
          if state.Parsed? && state.workloadClusterNamespace != "" {
            workloadClusterNamespace := Some(state.workloadClusterNamespace);
          } else {
            var prefix := GetEnvOrDefault(env, "WORKLOAD_CLUSTER_NAMESPACE_PREFIX", "capz-test");
            workloadClusterNamespace := Some(prefix + "-" + timestamp);
          }
        }
      }
      ns := workloadClusterNamespace.value;
    }

    /** The first step of NewTestConfig: with an external kubeconfig and no
        USE_K8S setting, set USE_K8S to "true". The write cannot change what
        the two once-per-process getters will return. */
    method ApplyImplicitUseK8s()
      requires Valid()
      modifies this`env
      ensures Valid()
      ensures env == WithImplicitUseK8s(old(env))
      ensures RepoDir() == old(RepoDir())
      ensures forall t :: WorkloadNamespace(t) == old(WorkloadNamespace(t))
    {
      if Getenv(env, "USE_KUBECONFIG") != "" && Getenv(env, "USE_K8S") == "" {
        Setenv("USE_K8S", "true");
      }
      ImplicitUseK8sFrame(old(env), "ARO_REPO_DIR");
      ImplicitUseK8sFrame(old(env), "WORKLOAD_CLUSTER_NAMESPACE");
      ImplicitUseK8sFrame(old(env), "WORKLOAD_CLUSTER_NAMESPACE_PREFIX");
    }

    /** NewTestConfig: make the implicit USE_K8S write, resolve the
        repository directory and then the workload-cluster namespace through
        their once-per-process getters, and build everything else (the
        provider switch included) from the environment as it stands after
        the write. The switch reads nothing the getters change, so running
        it after them, not before, gives the same configuration. */
    method NewTestConfig(parse: Parser, timestamp: string) returns (c: TestConfig)
      requires Valid()
      modifies this`env, this`defaultRepoDir, this`workloadClusterNamespace
      ensures Valid() && env == WithImplicitUseK8s(old(env))
      ensures c == Assemble(old(env), old(RepoDir()), old(WorkloadNamespace(timestamp)), parse)
      ensures c.repoDir == old(RepoDir()) && defaultRepoDir == Some(c.repoDir)
      ensures c.workloadClusterNamespace == old(WorkloadNamespace(timestamp))
      ensures workloadClusterNamespace == Some(c.workloadClusterNamespace)
    {
      var env0 := env;
      var useKubeconfig := Getenv(env, "USE_KUBECONFIG");
      ApplyImplicitUseK8s();
      var repoDir := GetDefaultRepoDir();
      var workloadNamespace := GetWorkloadClusterNamespace(timestamp);
      // the arguments the postcondition names, so that one configuration is unfolded, not two
      assert env0 == old(env) && repoDir == old(RepoDir()) && workloadNamespace == old(WorkloadNamespace(timestamp));
      c := BuildConfig(env0, env, useKubeconfig, repoDir, workloadNamespace, parse);
    }
  }

  /** Once both values are recorded, a later NewTestConfig carries them,
      whatever the environment and the clock say by then. */
  method LaterConfig(p: ProcessState, parse: Parser, timestamp: string, repoDir: string, namespace: string)
    returns (c: TestConfig)
    requires p.Valid() && p.defaultRepoDir == Some(repoDir) && p.workloadClusterNamespace == Some(namespace)
    modifies p
    ensures c.repoDir == repoDir && c.workloadClusterNamespace == namespace
  {
    c := p.NewTestConfig(parse, timestamp);
  }
}
