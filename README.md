# capi-tests configuration resolver, modelled in Dafny

This project models the configuration resolver of the capi-tests end-to-end
suite (`test/config.go`). The resolver decides how a test run is set up. Its
inputs are the process environment, a deployment-state file left by an
earlier phase, and the clock. From them it picks:

- the infrastructure provider: Azure ("aro", with the CAPZ and ASO
  controllers) or AWS ("rosa", with CAPA);
- the namespaces the controllers run in;
- the timeouts;
- the repository directory;
- the workload-cluster namespace.

It also derives the lists the suite iterates over: controllers, webhooks,
namespaces, Helm chart arguments, required tools and required scripts.

## Layout

- `wrappers.dfy`: module `Wrappers`, the `Option` type.
- `lists.dfy`: module `Lists`.
  - Two list shapes, each as a specification function with its loop:
    - `Concat`, a head followed by every provider's list.
    - `AddNew`, an order-preserving union that keeps each value's first occurrence.
  - Their lemmas: lengths, blocks, membership, no duplicates, order of first occurrence.
- `environment.dfy`: module `Environment`, the resolution rules over an explicit environment map.
  - The implicit `USE_K8S` write.
  - The controller-namespace priority.
  - The timeout and MCE auto-enable parsers.
  - The repository directory.
  - The three-tier workload-namespace rule.
- `providers.dfy`: module `Providers`.
  - The provider records, `NewAzureProvider` and `NewAWSProvider`.
  - The index loop that overrides the ASO controller's timeout in place.
- `config.dfy`: module `Config`.
  - The `TestConfig` record, and `Assemble`, the function saying which configuration `NewTestConfig` builds.
  - The provider switch, both as a function and as the method that runs it.
  - The derived accessors, each a loop method proved against a specification function.
  - The name and path helpers, and the lemmas about the default Azure and AWS configurations.
- `process.dfy`: module `Process`, class `ProcessState`.
  - Its state: the mutable environment and the two values the source computes once per process under `sync.Once`.
  - `NewTestConfig` itself, which writes `USE_K8S`, runs the two once-per-process getters and builds the configuration.

## Modelling choices

- **Environment.** The environment is a `map<string, string>`. An unset variable reads as `""`, as `os.Getenv` does.
- **GetEnvOrDefault.** It is used throughout but defined outside `test/config.go`. It is modelled as "the variable's value when non-empty, else the default".
- **Durations.** A duration is an integer number of nanoseconds. The duration parser (`time.ParseDuration`) is a parameter of type `string -> Option<int>`.
- **Temporary directory and state file.** `os.TempDir()` is a constant field of `ProcessState`. Reading and decoding `.deployment-state.json` is a map from path to `Unreadable`, `Malformed` or `Parsed(namespace)`. The JSON field's absence is `Parsed("")`.
- **Clock.** The formatted clock reading is a `timestamp` parameter.
- **YAML extractors.** The extractors for the provisioned names and the kubeconfig's current context are defined outside `test/config.go`. Their results are parameters: `Option<string>` for the names, a string for the context.
- **sync.Once.** A `sync.Once` cell is an `Option` field that is `None` until its first call.
- **Order inside NewTestConfig.** The source runs the provider switch before the two getters. The model runs the getters first, then `Config.BuildConfig`, which performs the switch. The switch reads only the environment after the `USE_K8S` write. The getters change only their own cells. So the order does not change the configuration built.

## Model

| member | source | states |
|---|---|---|
| Providers.NewAzureProvider | test/config.go:108-148 | the "aro" provider puts its namespace on both controllers, both webhooks and the credential secret; it has CAPZ then ASO with timeout 0, two webhooks on port 443, four required secret fields and two gating variables, the tool "az", and the deploy script first |
| Providers.NewAWSProvider | test/config.go:153-178 | the "rosa" provider puts its namespace on its one controller (CAPA, timeout 0), its one webhook (port 443) and the credential secret; the secret requires the field "credentials" and is gated on the two AWS key variables; it needs the tool "aws" and the deploy script first |
| Providers.OverrideASOTimeout | test/config.go:343-347 | the index loop leaves every field but the controllers' timeouts alone; it keeps the number of controllers; each controller keeps all but its timeout, which becomes the new one exactly when its display name is "ASO" |
| Providers.ASOTimeoutOnAzure | test/config.go:339-348 | in the Azure provider the override reaches ASO only: CAPZ keeps timeout 0, and namespaces, webhooks and the secret are unchanged; the AWS provider is left as it is |
| Environment.WithImplicitUseK8s | test/config.go:314-320 | USE_K8S becomes "true" when USE_KUBECONFIG is non-empty and USE_K8S is empty; otherwise the environment is unchanged |
| Environment.ImplicitUseK8sFrame | test/config.go:318-320 | the write changes no variable other than USE_K8S; it is a no-op once USE_K8S is set; USE_K8S reads "true" afterwards iff it was "true" or the write happened; applying it twice equals applying it once |
| Environment.ControllerNamespace | test/config.go:400-412 | "multicluster-engine" in USE_K8S mode, else a non-empty override from the given variable, else the default |
| Environment.ExternalClusterUsesMCENamespace | test/config.go:316-320 | with an external kubeconfig and USE_K8S unset or "true", every controller namespace resolved after the write is "multicluster-engine", whatever the overrides say |
| Environment.ParseTimeout | test/config.go:417-429 | an empty variable or an unparsable value gives the default; a parsable value gives the parsed duration |
| Environment.ParseTimeoutOrigin | test/config.go:417-429 | a timeout is either the default or exactly what the parser produced from the variable's text |
| Environment.ParseDeploymentTimeout | test/config.go:417-429 | an unset DEPLOYMENT_TIMEOUT gives 60 minutes |
| Environment.ParseASOControllerTimeout | test/config.go:434-446 | an unset ASO_CONTROLLER_TIMEOUT gives 10 minutes |
| Environment.ParseHelmInstallTimeout | test/config.go:451-463 | an unset HELM_INSTALL_TIMEOUT gives 10 minutes |
| Environment.ParseMCEEnablementTimeout | test/config.go:480-492 | an unset MCE_ENABLEMENT_TIMEOUT gives 15 minutes |
| Environment.ParseMCEAutoEnable | test/config.go:468-475 | a set MCE_AUTO_ENABLE enables exactly when it is "true"; unset, auto-enable is on exactly when an external kubeconfig is used |
| Environment.ResolveRepoDir | test/config.go:191-204 | the directory is never empty; it is ARO_REPO_DIR when set, else the temporary directory followed by "/cluster-api-installer-aro" |
| Environment.RepoDirStable | test/config.go:191-204 | without an override the directory depends only on the temporary directory; it starts with that directory and ends with the fixed name |
| Environment.StateFilePath | test/config.go:231 | the state file lies inside the repository directory: its path extends the directory's |
| Environment.ResolveWorkloadNamespace | test/config.go:219-250 | the namespace is never empty; a non-empty WORKLOAD_CLUSTER_NAMESPACE wins; next, a decoded state file with a non-empty namespace; otherwise the prefix (default "capz-test"), "-" and the timestamp |
| Environment.ResumeKeepsNamespace | test/config.go:227-240 | a later phase that reads back the namespace an earlier phase resolved gets the same namespace, at any later time |
| Environment.FreshNamespaceFormat | test/config.go:243-246 | an unreadable, malformed or empty state file without an override gives exactly the prefix, a dash and the timestamp |
| Process.ProcessState.GetDefaultRepoDir | test/config.go:191-204 | the first call records the resolved directory; every call returns a non-empty directory equal to what was recorded first, whatever the environment says later |
| Process.ProcessState.GetWorkloadClusterNamespace | test/config.go:219-250 | the first call records the resolved namespace; it records the repository directory through that getter exactly when no namespace was recorded and WORKLOAD_CLUSTER_NAMESPACE is empty, and leaves that cell alone otherwise; later calls return the recorded namespace; the repository directory the getter would return is unchanged |
| Process.ProcessState.ApplyImplicitUseK8s | test/config.go:314-320 | the environment becomes the written one; neither getter would return anything different afterwards |
| Process.ProcessState.NewTestConfig | test/config.go:313-395 | writes USE_K8S by the rule; returns exactly Assemble of the starting environment with the two getters' values; leaves both values recorded |
| Process.LaterConfig | test/config.go:180-250 | once both values are recorded, every later configuration carries them, whatever the environment and clock say |
| Config.SelectProvider | test/config.go:322-350 | INFRA_PROVIDER "rosa" selects exactly one AWS provider in the CAPA namespace (default "capa-system"); any other value is normalised to "aro" and selects exactly one Azure provider in the CAPZ namespace (default "capz-system"), with ASO at the parsed timeout and CAPZ at 0 |
| Config.ResolveProvider | test/config.go:322-350 | the switch as written, including the in-place override loop, yields SelectProvider's result |
| Config.BuildConfig | test/config.go:322-395 | building from the written environment yields Assemble's configuration, carrying the two given once-per-process values |
| Config.AssembleFields | test/config.go:352-395 | the configuration's provider name, providers and provider namespace come from the switch; its CAPI namespace, ASO timeout, MCE flag and kind flag are read after the write; its USE_KUBECONFIG value is read before |
| Config.AzureConfiguration | test/config.go:339-349 | without INFRA_PROVIDER=rosa the configuration is "aro" with the ASO-overridden Azure provider in the CAPZ namespace |
| Config.AWSConfiguration | test/config.go:335-338 | with INFRA_PROVIDER=rosa the configuration is "rosa" with the AWS provider in the CAPA namespace |
| Config.UseK8sSelection | test/config.go:334-350 | in USE_K8S mode either provider is placed in "multicluster-engine" |
| Config.ExternalClusterNamespaces | test/config.go:316-320 | with an external kubeconfig and USE_K8S unset or "true", the CAPI and provider namespaces are both "multicluster-engine", and AllNamespaces is that one namespace |
| Config.MCEAutoEnableDefault | test/config.go:392 | unset MCE_AUTO_ENABLE means auto-enable exactly for an external cluster; set, exactly when it is "true" |
| Config.KindModeLiteral | test/config.go:375 | kind mode is on exactly when USE_KIND is the literal "true" |
| Config.AllControllers | test/config.go:587-595 | the result is the CAPI controller in the CAPI namespace, then each provider's controllers as one contiguous block in provider order; its length is 1 plus the providers' controller counts |
| Config.AllWebhooks | test/config.go:599-607 | the CAPI webhook (capi-webhook-service, port 443) first, then each provider's webhooks as one block in provider order; its length is 1 plus their counts |
| Config.DeploymentChartArgs | test/config.go:626-632 | "cluster-api" first, then each provider's charts as one block in provider order; its length is 1 plus their counts |
| Config.AllNamespaces | test/config.go:610-622 | the CAPI namespace first; no duplicates; a namespace is listed iff it is the CAPI namespace or some provider controller's; namespaces are in the order of their first occurrence |
| Config.AllRequiredTools | test/config.go:646-658 | no duplicates; a tool is listed iff some provider requires it; tools are in first-occurrence order |
| Config.AllRequiredScripts | test/config.go:661-673 | no duplicates; a script is listed iff some provider requires it; scripts are in first-occurrence order |
| Config.HasProvider | test/config.go:636-643 | true iff some provider has the given name |
| Config.OneNamespace | test/config.go:610-622 | when the only provider's controllers all live in the CAPI namespace, AllNamespaces is that namespace alone |
| Config.AzureControllers | test/config_test.go:372-413 | for the default Azure configuration: controllers are CAPI, CAPZ (timeout 0), ASO (parsed timeout), the last two in the CAPZ namespace; there are three webhooks with the CAPI one first |
| Config.AzureArtifacts | test/config_test.go:428-533 | for the default Azure configuration: HasProvider holds for "aro" and no other name; charts are "cluster-api" then the Azure chart; tools are ["az"]; scripts are the deploy script then the ARO generation script |
| Config.AWSControllers | test/config.go:153-178 | for the AWS configuration: controllers are CAPI then CAPA in the CAPA namespace; webhooks are CAPI then CAPA |
| Config.AWSArtifacts | test/config.go:153-178 | for the AWS configuration: HasProvider holds for "rosa" and no other name; charts are "cluster-api" then the AWS chart; tools are ["aws"]; scripts are the deploy script then the ROSA generation script |
| Config.ScriptsAcrossBothProviders | test/config.go:646-673 | with both providers the shared deploy script and each tool appear once, in first-occurrence order |
| Config.AROYAMLPathLayout | test/config.go:548-550 | the manifest path is the repository directory, "/", the output directory name (workload cluster name, "-", environment), then "/aro.yaml" |
| Config.KubeContext | test/config.go:577-582 | an external cluster uses the kubeconfig's current context; otherwise the context is "kind-" followed by the management cluster name |
| Config.FallbackNamesBeforeGeneration | test/config.go:506-545 | before the manifest exists the three names are the workload cluster name, it plus "-control-plane", and it plus "-pool"; all three differ |
| Config.ExtractedNamesWin | test/config.go:506-545 | an extracted name always wins; a fallback control-plane or pool name extends the cluster name it falls back to |
| Lists.AddNewSpec | test/config.go:646-658 | the order-preserving union keeps its start as a prefix, has no duplicates, and holds exactly the values of its two inputs |
| Lists.AddNewFirstOccurrence | test/config.go:646-658 | the union lists its values in the order of their first occurrence in the concatenated input |
| Lists.AppendUnseen | test/config.go:646-658 | the nested loop with a seen-set computes the order-preserving union |
| Lists.AppendList | test/config.go:649-655 | the inner loop adds one list's unseen values and keeps the seen-set equal to the result's values |
| Lists.AppendAll | test/config.go:626-632 | the append loop computes the head followed by every list in order |
| Lists.AppendedBlocks | test/config.go:587-595 | each list sits as one contiguous block right after the head and the lists before it |

## Left out

- Concurrency: `sync.Once`'s thread-safety is not modelled, only its compute-once behaviour in a sequential process.
- Time: `time.Now().Format` is a timestamp parameter, and `time.ParseDuration` is an abstract parser.
- int64 width: `time.Duration` is an unbounded integer here, so a parsed duration never overflows.
- Warnings: the stderr warnings written for unparsable timeouts are not modelled; they do not affect any returned value.
- Files: `os.ReadFile` and `json.Unmarshal` of the state file are an input map of outcomes; `os.TempDir()` is a constant.
- Paths: `filepath.Join` and `fmt.Sprintf` paths are plain concatenation with "/", with no cleaning of repeated separators.
- Extractors: `ExtractClusterNameFromYAML`, `ExtractAROControlPlaneNameFromYAML`, `ExtractMachinePoolNameFromYAML` and `ExtractCurrentContext` are not part of this model; their results are parameters.
- GetEnvOrDefault: it is not part of this model's source; it is modelled as "value when non-empty, else default".
- Unused constants: `DefaultNodeReadyTimeout`, `DefaultControllerTimeout` and `MCEComponentCAPI` are not used by the modelled functions. A controller timeout of 0 stands for the default controller timeout.
- Environment.ParseDeploymentTimeout, Environment.ParseASOControllerTimeout, Environment.ParseHelmInstallTimeout, Environment.ParseMCEEnablementTimeout: each states only its default in its own contract. The unparsable and parsed cases follow from Environment.ParseTimeout, which each one instantiates.
- Config.AzureControllers, Config.AzureArtifacts, Config.AWSControllers, Config.AWSArtifacts: they are stated for any configuration whose provider list is the single provider the switch builds. Config.AzureConfiguration and Config.AWSConfiguration establish that premise for NewTestConfig's result.
- GetExpectedFiles, IsExternalCluster, IsKindMode and GetOutputDirName: these are one-line accessors (`Config.ExpectedFiles`, `Config.IsExternalCluster`, `Config.IsKindMode`, `Config.OutputDirName`) and carry no contract of their own. `Config.AROYAMLPathLayout` states the manifest path through `ExpectedFiles`, `Config.KindModeLiteral` is stated through `IsKindMode`, and `Config.KubeContext` and `Config.MCEAutoEnableDefault` use `IsExternalCluster`.
