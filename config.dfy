/** The test configuration record, the function that says what
    NewTestConfig builds, the derived accessors over the active providers,
    and the name fallbacks used before the manifests exist. */
module Config {
  import opened Wrappers
  import opened Environment
  import opened Providers
  import opened Lists

  const DefaultCAPZUser := "rcapd"
  const DefaultDeploymentEnv := "stage"
  const CAPIControllerDeployment := "capi-controller-manager"
  const CAPIWebhookService := "capi-webhook-service"
  const CAPIWebhookPort := 443
  const CAPIPodSelector := "cluster.x-k8s.io/provider=cluster-api"
  const CAPIDeploymentChartName := "cluster-api"

  datatype TestConfig = TestConfig(
    repoURL: string,
    repoBranch: string,
    repoDir: string,
    managementClusterName: string,
    workloadClusterName: string,
    clusterNamePrefix: string,
    ocpVersion: string,
    region: string,
    azureSubscriptionName: string,
    environment: string,
    capzUser: string,
    workloadClusterNamespace: string,
    capiNamespace: string,
    capzNamespace: string,
    useKubeconfig: string,
    useKind: bool,
    clusterctlBinPath: string,
    scriptsPath: string,
    genScriptPath: string,
    deploymentTimeout: Duration,
    asoControllerTimeout: Duration,
    helmInstallTimeout: Duration,
    infraProviderName: string,
    infraProviders: seq<InfraProvider>,
    mceAutoEnable: bool,
    mceEnablementTimeout: Duration)

  /** The outcome of NewTestConfig's provider switch. */
  datatype ProviderSelection = ProviderSelection(
    name: string,
    namespace: string,
    providers: seq<InfraProvider>,
    defaultGenScriptPath: string)

  /** INFRA_PROVIDER "rosa" selects the AWS provider; any other value,
      including none, is normalised to "aro" and selects the Azure provider
      with the ASO controller's timeout overridden. */
  function SelectProvider(env: Env, asoTimeout: Duration): (s: ProviderSelection)
    ensures |s.providers| == 1
    ensures Getenv(env, "INFRA_PROVIDER") == "rosa" ==>
              && s.name == "rosa"
              && s.namespace == ControllerNamespace(env, "CAPA_NAMESPACE", "capa-system")
              && s.providers[0] == NewAWSProvider(s.namespace)
    ensures Getenv(env, "INFRA_PROVIDER") != "rosa" ==>
              && s.name == "aro"
              && s.namespace == ControllerNamespace(env, "CAPZ_NAMESPACE", "capz-system")
              && s.providers[0] == WithASOTimeout(NewAzureProvider(s.namespace), asoTimeout)
              && s.providers[0].controllers[0].timeout == 0
              && s.providers[0].controllers[1].timeout == asoTimeout
  {
    if GetEnvOrDefault(env, "INFRA_PROVIDER", "aro") == "rosa" then
      var ns := ControllerNamespace(env, "CAPA_NAMESPACE", "capa-system");
      ProviderSelection("rosa", ns, [NewAWSProvider(ns)], "./scripts/rosa-hcp/gen.sh")
    else
      var ns := ControllerNamespace(env, "CAPZ_NAMESPACE", "capz-system");
      ASOTimeoutOnAzure(ns, asoTimeout);
      ProviderSelection("aro", ns, [WithASOTimeout(NewAzureProvider(ns), asoTimeout)], "./scripts/aro-hcp/gen.sh")
  }

  /** The provider switch of NewTestConfig as it runs: a default provider
      name, a switch on it, and an index loop that sets the ASO controller's
      timeout in place in the Azure provider. */
  method ResolveProvider(env: Env, asoTimeout: Duration) returns (sel: ProviderSelection)
    ensures sel == SelectProvider(env, asoTimeout)
  {
    var name := GetEnvOrDefault(env, "INFRA_PROVIDER", "aro");
    if name == "rosa" {
      var ns := ControllerNamespace(env, "CAPA_NAMESPACE", "capa-system");
      sel := ProviderSelection("rosa", ns, [NewAWSProvider(ns)], "./scripts/rosa-hcp/gen.sh");
    } else {
      var ns := ControllerNamespace(env, "CAPZ_NAMESPACE", "capz-system");
      var azure := OverrideASOTimeout(NewAzureProvider(ns), asoTimeout);
      sel := ProviderSelection("aro", ns, [azure], "./scripts/aro-hcp/gen.sh");
    }
  }

  /** The TestConfig literal NewTestConfig returns, given the environment
      after the implicit USE_K8S write, USE_KUBECONFIG as read before it, the
      parsed ASO timeout, the provider selection and the two values computed
      once per process. */
  function Fill(env: Env, useKubeconfig: string, asoTimeout: Duration, sel: ProviderSelection,
                repoDir: string, workloadNamespace: string, parse: Parser): TestConfig
  {
    TestConfig(
      repoURL := GetEnvOrDefault(env, "ARO_REPO_URL", "https://github.com/stolostron/cluster-api-installer"),
      repoBranch := GetEnvOrDefault(env, "ARO_REPO_BRANCH", "main"),
      repoDir := repoDir,
      managementClusterName := GetEnvOrDefault(env, "MANAGEMENT_CLUSTER_NAME", "capz-tests-stage"),
      workloadClusterName := GetEnvOrDefault(env, "WORKLOAD_CLUSTER_NAME", "capz-tests-cluster"),
      clusterNamePrefix := GetEnvOrDefault(env, "CS_CLUSTER_NAME",
        GetEnvOrDefault(env, "CAPZ_USER", DefaultCAPZUser) + "-" + GetEnvOrDefault(env, "DEPLOYMENT_ENV", DefaultDeploymentEnv)),
      ocpVersion := GetEnvOrDefault(env, "OCP_VERSION", "4.20"),
      region := GetEnvOrDefault(env, "REGION", "uksouth"),
      azureSubscriptionName := Getenv(env, "AZURE_SUBSCRIPTION_NAME"),
      environment := GetEnvOrDefault(env, "DEPLOYMENT_ENV", DefaultDeploymentEnv),
      capzUser := GetEnvOrDefault(env, "CAPZ_USER", DefaultCAPZUser),
      workloadClusterNamespace := workloadNamespace,
      capiNamespace := ControllerNamespace(env, "CAPI_NAMESPACE", "capi-system"),
      capzNamespace := sel.namespace,
      useKubeconfig := useKubeconfig,
      useKind := Getenv(env, "USE_KIND") == "true",
      clusterctlBinPath := GetEnvOrDefault(env, "CLUSTERCTL_BIN", "./bin/clusterctl"),
      scriptsPath := GetEnvOrDefault(env, "SCRIPTS_PATH", "./scripts"),
      genScriptPath := GetEnvOrDefault(env, "GEN_SCRIPT_PATH", sel.defaultGenScriptPath),
      deploymentTimeout := ParseDeploymentTimeout(env, parse),
      asoControllerTimeout := asoTimeout,
      helmInstallTimeout := ParseHelmInstallTimeout(env, parse),
      infraProviderName := sel.name,
      infraProviders := sel.providers,
      mceAutoEnable := ParseMCEAutoEnable(env, useKubeconfig),
      mceEnablementTimeout := ParseMCEEnablementTimeout(env, parse))
  }

  /** What NewTestConfig returns, given the environment it starts from and
      the two values computed once per process (the repository directory and
      the workload-cluster namespace). The implicit USE_K8S write happens
      first, so every later lookup sees it. */
  function Assemble(env0: Env, repoDir: string, workloadNamespace: string, parse: Parser): TestConfig
  {
    var env := WithImplicitUseK8s(env0);
    var asoTimeout := ParseASOControllerTimeout(env, parse);
    Fill(env, Getenv(env0, "USE_KUBECONFIG"), asoTimeout, SelectProvider(env, asoTimeout),
         repoDir, workloadNamespace, parse)
  }

  /** The environment-reading part of NewTestConfig, run on `env`, the
      environment after the implicit USE_K8S write to `env0`: parse the ASO
      timeout, select the provider (overriding the timeout in place) and
      fill in every other field. */
  method BuildConfig(env0: Env, env: Env, useKubeconfig: string, repoDir: string,
                     workloadNamespace: string, parse: Parser) returns (c: TestConfig)
    requires env == WithImplicitUseK8s(env0) && useKubeconfig == Getenv(env0, "USE_KUBECONFIG")
    ensures c == Assemble(env0, repoDir, workloadNamespace, parse)
    ensures c.repoDir == repoDir && c.workloadClusterNamespace == workloadNamespace
  {
    var asoTimeout := ParseASOControllerTimeout(env, parse);
    var sel := ResolveProvider(env, asoTimeout);
    c := Fill(env, useKubeconfig, asoTimeout, sel, repoDir, workloadNamespace, parse);
  }

  // ---------------------------------------------------------------------
  // Derived accessors

  /** The list each provider contributes, in provider order. */
  function Gather<T>(ps: seq<InfraProvider>, field: InfraProvider -> seq<T>): (xss: seq<seq<T>>)
    ensures |xss| == |ps| && forall i :: 0 <= i < |ps| ==> xss[i] == field(ps[i])
  {
    seq(|ps|, i requires 0 <= i < |ps| => field(ps[i]))
  }

  function ControllersOf(p: InfraProvider): seq<ControllerDef> { p.controllers }
  function WebhooksOf(p: InfraProvider): seq<WebhookDef> { p.webhooks }
  function ChartsOf(p: InfraProvider): seq<string> { p.deploymentCharts }
  function ToolsOf(p: InfraProvider): seq<string> { p.requiredTools }
  function ScriptsOf(p: InfraProvider): seq<string> { p.requiredScripts }

  function ControllerNamespacesOf(p: InfraProvider): (nss: seq<string>)
    ensures |nss| == |p.controllers|
    ensures forall j :: 0 <= j < |p.controllers| ==> nss[j] == p.controllers[j].namespace
  {
    seq(|p.controllers|, j requires 0 <= j < |p.controllers| => p.controllers[j].namespace)
  }

  function CAPIController(namespace: string): ControllerDef
  {
    ControllerDef("CAPI", namespace, CAPIControllerDeployment, CAPIPodSelector, 0)
  }

  function CAPIWebhook(namespace: string): WebhookDef
  {
    WebhookDef("CAPI", namespace, CAPIWebhookService, CAPIWebhookPort)
  }

  /** The CAPI core controller, then every provider's controllers. */
  function Controllers(c: TestConfig): seq<ControllerDef>
  {
    [CAPIController(c.capiNamespace)] + Concat(Gather(c.infraProviders, ControllersOf))
  }

  /** The CAPI core webhook, then every provider's webhooks. */
  function Webhooks(c: TestConfig): seq<WebhookDef>
  {
    [CAPIWebhook(c.capiNamespace)] + Concat(Gather(c.infraProviders, WebhooksOf))
  }

  /** The CAPI core chart, then every provider's charts. */
  function ChartArgs(c: TestConfig): seq<string>
  {
    [CAPIDeploymentChartName] + Concat(Gather(c.infraProviders, ChartsOf))
  }

  /** The CAPI namespace, then every controller's namespace, in the order
      AllNamespaces visits them. */
  function NamespaceVisits(c: TestConfig): seq<string>
  {
    [c.capiNamespace] + Concat(Gather(c.infraProviders, ControllerNamespacesOf))
  }

  function Namespaces(c: TestConfig): seq<string>
  {
    AddNew([c.capiNamespace], Concat(Gather(c.infraProviders, ControllerNamespacesOf)))
  }

  function Tools(c: TestConfig): seq<string>
  {
    AddNew([], Concat(Gather(c.infraProviders, ToolsOf)))
  }

  function Scripts(c: TestConfig): seq<string>
  {
    AddNew([], Concat(Gather(c.infraProviders, ScriptsOf)))
  }

  /** Some active provider is named `name`. */
  predicate HasProviderNamed(c: TestConfig, name: string)
  {
    exists i :: 0 <= i < |c.infraProviders| && c.infraProviders[i].name == name
  }

  /** AllControllers: the CAPI controller in the CAPI namespace first, then
      each provider's controllers as one block, blocks in provider order. */
  method AllControllers(c: TestConfig) returns (r: seq<ControllerDef>)
    ensures r == Controllers(c)
    ensures |r| == 1 + TotalLength(Gather(c.infraProviders, ControllersOf))
    ensures r[0] == CAPIController(c.capiNamespace)
    ensures forall i :: 0 <= i < |c.infraProviders| ==>
              1 + TotalLength(Gather(c.infraProviders, ControllersOf)[..i]) + |c.infraProviders[i].controllers| <= |r| &&
              r[1 + TotalLength(Gather(c.infraProviders, ControllersOf)[..i])..
                1 + TotalLength(Gather(c.infraProviders, ControllersOf)[..i]) + |c.infraProviders[i].controllers|]
              == c.infraProviders[i].controllers
  {
    var xss := Gather(c.infraProviders, ControllersOf);
    r := AppendAll([CAPIController(c.capiNamespace)], xss);
    ConcatLength(xss);
    AppendedBlocks([CAPIController(c.capiNamespace)], xss);
  }

  /** AllWebhooks: the CAPI webhook first, then each provider's webhooks as
      one block, blocks in provider order. */
  method AllWebhooks(c: TestConfig) returns (r: seq<WebhookDef>)
    ensures r == Webhooks(c)
    ensures |r| == 1 + TotalLength(Gather(c.infraProviders, WebhooksOf))
    ensures r[0] == CAPIWebhook(c.capiNamespace)
    ensures forall i :: 0 <= i < |c.infraProviders| ==>
              1 + TotalLength(Gather(c.infraProviders, WebhooksOf)[..i]) + |c.infraProviders[i].webhooks| <= |r| &&
              r[1 + TotalLength(Gather(c.infraProviders, WebhooksOf)[..i])..
                1 + TotalLength(Gather(c.infraProviders, WebhooksOf)[..i]) + |c.infraProviders[i].webhooks|]
              == c.infraProviders[i].webhooks
  {
    var xss := Gather(c.infraProviders, WebhooksOf);
    r := AppendAll([CAPIWebhook(c.capiNamespace)], xss);
    ConcatLength(xss);
    AppendedBlocks([CAPIWebhook(c.capiNamespace)], xss);
  }

  /** DeploymentChartArgs: "cluster-api" first, then each provider's charts
      as one block, blocks in provider order. */
  method DeploymentChartArgs(c: TestConfig) returns (r: seq<string>)
    ensures r == ChartArgs(c)
    ensures |r| == 1 + TotalLength(Gather(c.infraProviders, ChartsOf))
    ensures r[0] == CAPIDeploymentChartName
    ensures forall i :: 0 <= i < |c.infraProviders| ==>
              1 + TotalLength(Gather(c.infraProviders, ChartsOf)[..i]) + |c.infraProviders[i].deploymentCharts| <= |r| &&
              r[1 + TotalLength(Gather(c.infraProviders, ChartsOf)[..i])..
                1 + TotalLength(Gather(c.infraProviders, ChartsOf)[..i]) + |c.infraProviders[i].deploymentCharts|]
              == c.infraProviders[i].deploymentCharts
  {
    var xss := Gather(c.infraProviders, ChartsOf);
    r := AppendAll([CAPIDeploymentChartName], xss);
    ConcatLength(xss);
    AppendedBlocks([CAPIDeploymentChartName], xss);
  }

  /** A value is in the concatenation of a field's lists exactly when some
      provider's list holds it. */
  lemma InGathered(ps: seq<InfraProvider>, field: InfraProvider -> seq<string>, x: string)
    ensures x in Concat(Gather(ps, field)) <==> exists i :: 0 <= i < |ps| && x in field(ps[i])
  {
    var xss := Gather(ps, field);
    InConcat(xss, x);
    if exists i :: 0 <= i < |ps| && x in field(ps[i]) {
      var i :| 0 <= i < |ps| && x in field(ps[i]);
      assert x in xss[i];
    }
  }

  /** AllNamespaces: the CAPI namespace first, no namespace twice, exactly
      the namespaces of the CAPI core and of every provider controller, each
      at the place of its first occurrence. */
  method AllNamespaces(c: TestConfig) returns (r: seq<string>)
    ensures r == Namespaces(c)
    ensures |r| >= 1 && r[0] == c.capiNamespace
    ensures NoDup(r)
    ensures forall ns :: ns in r <==>
              ns == c.capiNamespace ||
              exists i, j :: 0 <= i < |c.infraProviders| && 0 <= j < |c.infraProviders[i].controllers| &&
                             c.infraProviders[i].controllers[j].namespace == ns
    ensures forall i, j :: 0 <= i < j < |r| ==>
              FirstIndex(NamespaceVisits(c), r[i]) < FirstIndex(NamespaceVisits(c), r[j])
  {
    var ps := c.infraProviders;
    var xss := Gather(ps, ControllerNamespacesOf);
    r := AppendUnseen([c.capiNamespace], xss);
    AddNewSpec([c.capiNamespace], Concat(xss));
    AddNewFirstOccurrence([c.capiNamespace], Concat(xss));
    assert r[..1] == [c.capiNamespace];
    forall ns
      ensures ns in r <==>
              ns == c.capiNamespace ||
              exists i, j :: 0 <= i < |ps| && 0 <= j < |ps[i].controllers| && ps[i].controllers[j].namespace == ns
    {
      InGathered(ps, ControllerNamespacesOf, ns);
      if exists i :: 0 <= i < |ps| && ns in ControllerNamespacesOf(ps[i]) {
        var i :| 0 <= i < |ps| && ns in ControllerNamespacesOf(ps[i]);
        var j :| 0 <= j < |ControllerNamespacesOf(ps[i])| && ControllerNamespacesOf(ps[i])[j] == ns;
        assert ps[i].controllers[j].namespace == ns;
      }
      if exists i, j :: 0 <= i < |ps| && 0 <= j < |ps[i].controllers| && ps[i].controllers[j].namespace == ns {
        var i, j :| 0 <= i < |ps| && 0 <= j < |ps[i].controllers| && ps[i].controllers[j].namespace == ns;
        assert ControllerNamespacesOf(ps[i])[j] == ns;
      }
    }
  }

  /** AllRequiredTools: no tool twice, exactly the tools some provider
      requires, each at the place of its first occurrence. */
  method AllRequiredTools(c: TestConfig) returns (r: seq<string>)
    ensures r == Tools(c)
    ensures NoDup(r)
    ensures forall t :: t in r <==> exists i :: 0 <= i < |c.infraProviders| && t in c.infraProviders[i].requiredTools
    ensures forall i, j :: 0 <= i < j < |r| ==>
              FirstIndex(Concat(Gather(c.infraProviders, ToolsOf)), r[i]) <
              FirstIndex(Concat(Gather(c.infraProviders, ToolsOf)), r[j])
  {
    var xss := Gather(c.infraProviders, ToolsOf);
    r := AppendUnseen([], xss);
    AddNewSpec([], Concat(xss));
    AddNewFirstOccurrence([], Concat(xss));
    assert [] + Concat(xss) == Concat(xss);
    forall t ensures t in r <==> exists i :: 0 <= i < |c.infraProviders| && t in c.infraProviders[i].requiredTools {
      InGathered(c.infraProviders, ToolsOf, t);
    }
  }

  /** AllRequiredScripts: no script twice, exactly the scripts some provider
      requires, each at the place of its first occurrence. */
  method AllRequiredScripts(c: TestConfig) returns (r: seq<string>)
    ensures r == Scripts(c)
    ensures NoDup(r)
    ensures forall s :: s in r <==> exists i :: 0 <= i < |c.infraProviders| && s in c.infraProviders[i].requiredScripts
    ensures forall i, j :: 0 <= i < j < |r| ==>
              FirstIndex(Concat(Gather(c.infraProviders, ScriptsOf)), r[i]) <
              FirstIndex(Concat(Gather(c.infraProviders, ScriptsOf)), r[j])
  {
    var xss := Gather(c.infraProviders, ScriptsOf);
    r := AppendUnseen([], xss);
    AddNewSpec([], Concat(xss));
    AddNewFirstOccurrence([], Concat(xss));
    assert [] + Concat(xss) == Concat(xss);
    forall s ensures s in r <==> exists i :: 0 <= i < |c.infraProviders| && s in c.infraProviders[i].requiredScripts {
      InGathered(c.infraProviders, ScriptsOf, s);
    }
  }

  /** HasProvider: a linear scan that stops at the first provider named `name`. */
  method HasProvider(c: TestConfig, name: string) returns (found: bool)
    ensures found <==> HasProviderNamed(c, name)
  {
    var i := 0;
    while i < |c.infraProviders|
      invariant 0 <= i <= |c.infraProviders|
      invariant forall k :: 0 <= k < i ==> c.infraProviders[k].name != name
    {
      if c.infraProviders[i].name == name {
        return true;
      }
      i := i + 1;
    }
    return false;
  }

  // ---------------------------------------------------------------------
  // Properties of the configuration NewTestConfig builds

  /** The fields of the assembled configuration that the provider switch,
      the namespace lookups and the flag parsers decide, all read after the
      implicit USE_K8S write. */
  lemma AssembleFields(env0: Env, repoDir: string, workloadNamespace: string, parse: Parser)
    ensures var c := Assemble(env0, repoDir, workloadNamespace, parse);
            var env := WithImplicitUseK8s(env0);
            var sel := SelectProvider(env, ParseASOControllerTimeout(env, parse));
            && c.infraProviderName == sel.name && c.infraProviders == sel.providers
            && c.capzNamespace == sel.namespace
            && c.capiNamespace == ControllerNamespace(env, "CAPI_NAMESPACE", "capi-system")
            && c.asoControllerTimeout == ParseASOControllerTimeout(env, parse)
            && c.mceAutoEnable == ParseMCEAutoEnable(env, Getenv(env0, "USE_KUBECONFIG"))
            && c.useKind == (Getenv(env, "USE_KIND") == "true")
            && c.useKubeconfig == Getenv(env0, "USE_KUBECONFIG")
  {
  }

  /** A configuration whose one provider is the Azure provider in its
      namespace, with the ASO timeout applied, validates the CAPI, CAPZ and
      ASO controllers in that order, CAPZ with the default timeout and ASO
      with the configured one, and three webhooks, the providers' in its
      namespace. */
  lemma AzureControllers(c: TestConfig)
    requires c.infraProviders == [WithASOTimeout(NewAzureProvider(c.capzNamespace), c.asoControllerTimeout)]
    ensures |Controllers(c)| == 3 && Controllers(c)[0] == CAPIController(c.capiNamespace)
    ensures Controllers(c)[1].displayName == "CAPZ" && Controllers(c)[1].timeout == 0
    ensures Controllers(c)[2].displayName == "ASO" && Controllers(c)[2].timeout == c.asoControllerTimeout
    ensures Controllers(c)[1].namespace == Controllers(c)[2].namespace == c.capzNamespace
    ensures |Webhooks(c)| == 3 && Webhooks(c)[0] == CAPIWebhook(c.capiNamespace)
    ensures Webhooks(c)[1].namespace == Webhooks(c)[2].namespace == c.capzNamespace
  {
    var p := c.infraProviders[0];
    ConcatGatherOne(p, ControllersOf);
    ConcatGatherOne(p, WebhooksOf);
    ASOTimeoutOnAzure(c.capzNamespace, c.asoControllerTimeout);
  }

  /** The same configuration has the provider "aro" and no other, deploys
      the CAPI and Azure charts, needs the az tool only, and needs the deploy
      script and the ARO generation script once each. */
  lemma AzureArtifacts(c: TestConfig)
    requires c.infraProviders == [WithASOTimeout(NewAzureProvider(c.capzNamespace), c.asoControllerTimeout)]
    ensures forall name :: HasProviderNamed(c, name) <==> name == "aro"
    ensures ChartArgs(c) == [CAPIDeploymentChartName, AzureChart]
    ensures Tools(c) == ["az"]
    ensures Scripts(c) == [DeployChartsScript, AzureGenScript]
  {
    var p := c.infraProviders[0];
    ASOTimeoutOnAzure(c.capzNamespace, c.asoControllerTimeout);
    assert p.name == "aro";
    ConcatGatherOne(p, ChartsOf);
    ConcatGatherOne(p, ToolsOf);
    ConcatGatherOne(p, ScriptsOf);
    AddNewOne("az");
    AddNewTwoDistinct(DeployChartsScript, AzureGenScript);
  }

  /** A configuration whose one provider is the AWS provider in its
      namespace validates the CAPI and CAPA controllers in that order and
      their two webhooks, CAPA's in its namespace. */
  lemma AWSControllers(c: TestConfig)
    requires c.infraProviders == [NewAWSProvider(c.capzNamespace)]
    ensures |Controllers(c)| == 2 && Controllers(c)[0] == CAPIController(c.capiNamespace)
    ensures Controllers(c)[1].displayName == "CAPA" && Controllers(c)[1].namespace == c.capzNamespace
    ensures |Webhooks(c)| == 2 && Webhooks(c)[0] == CAPIWebhook(c.capiNamespace)
    ensures Webhooks(c)[1].namespace == c.capzNamespace
  {
    var p := c.infraProviders[0];
    ConcatGatherOne(p, ControllersOf);
    ConcatGatherOne(p, WebhooksOf);
  }

  /** The same configuration has the provider "rosa" and no other, deploys
      the CAPI and AWS charts, needs the aws tool only, and needs the deploy
      script and the ROSA generation script once each. */
  lemma AWSArtifacts(c: TestConfig)
    requires c.infraProviders == [NewAWSProvider(c.capzNamespace)]
    ensures forall name :: HasProviderNamed(c, name) <==> name == "rosa"
    ensures ChartArgs(c) == [CAPIDeploymentChartName, AWSChart]
    ensures Tools(c) == ["aws"]
    ensures Scripts(c) == [DeployChartsScript, AWSGenScript]
  {
    var p := c.infraProviders[0];
    assert p.name == "rosa";
    ConcatGatherOne(p, ChartsOf);
    ConcatGatherOne(p, ToolsOf);
    ConcatGatherOne(p, ScriptsOf);
    AddNewOne("aws");
    AddNewTwoDistinct(DeployChartsScript, AWSGenScript);
  }

  /** Without INFRA_PROVIDER=rosa, NewTestConfig selects "aro" and the Azure
      provider with the parsed ASO timeout in the CAPZ namespace, so
      AzureControllers and AzureArtifacts describe its lists. */
  lemma AzureConfiguration(env0: Env, repoDir: string, workloadNamespace: string, parse: Parser)
    requires Getenv(env0, "INFRA_PROVIDER") != "rosa"
    ensures var c := Assemble(env0, repoDir, workloadNamespace, parse);
            && c.infraProviderName == "aro"
            && c.infraProviders == [WithASOTimeout(NewAzureProvider(c.capzNamespace), c.asoControllerTimeout)]
            && c.capzNamespace == ControllerNamespace(WithImplicitUseK8s(env0), "CAPZ_NAMESPACE", "capz-system")
  {
    AssembleFields(env0, repoDir, workloadNamespace, parse);
    ImplicitUseK8sFrame(env0, "INFRA_PROVIDER");
  }

  /** With INFRA_PROVIDER=rosa, NewTestConfig selects "rosa" and the AWS
      provider in the CAPA namespace, so AWSControllers and AWSArtifacts
      describe its lists. */
  lemma AWSConfiguration(env0: Env, repoDir: string, workloadNamespace: string, parse: Parser)
    requires Getenv(env0, "INFRA_PROVIDER") == "rosa"
    ensures var c := Assemble(env0, repoDir, workloadNamespace, parse);
            && c.infraProviderName == "rosa"
            && c.infraProviders == [NewAWSProvider(c.capzNamespace)]
            && c.capzNamespace == ControllerNamespace(WithImplicitUseK8s(env0), "CAPA_NAMESPACE", "capa-system")
  {
    AssembleFields(env0, repoDir, workloadNamespace, parse);
    ImplicitUseK8sFrame(env0, "INFRA_PROVIDER");
  }

  /** A configuration whose controllers all live in its CAPI namespace has
      that namespace as its only one. */
  lemma OneNamespace(c: TestConfig, p: InfraProvider)
    requires c.infraProviders == [p] && InNamespace(p, c.capiNamespace)
    ensures Namespaces(c) == [c.capiNamespace]
  {
    ConcatGatherOne(p, ControllerNamespacesOf);
    AddNewAllPresent([c.capiNamespace], ControllerNamespacesOf(p));
  }

  /** With an external kubeconfig and USE_K8S unset (or "true"), every
      controller, the CAPI one included, lives in the MCE namespace, so
      AllNamespaces is that single namespace, for either provider. */
  lemma ExternalClusterNamespaces(env0: Env, repoDir: string, workloadNamespace: string, parse: Parser)
    requires Getenv(env0, "USE_KUBECONFIG") != ""
    requires Getenv(env0, "USE_K8S") == "" || Getenv(env0, "USE_K8S") == "true"
    ensures var c := Assemble(env0, repoDir, workloadNamespace, parse);
            c.capiNamespace == MCENamespace && c.capzNamespace == MCENamespace &&
            Namespaces(c) == [MCENamespace]
  {
    AssembleFields(env0, repoDir, workloadNamespace, parse);
    ImplicitUseK8sFrame(env0, "USE_K8S");
    var env := WithImplicitUseK8s(env0);
    UseK8sSelection(env, ParseASOControllerTimeout(env, parse));
    var c := Assemble(env0, repoDir, workloadNamespace, parse);
    OneNamespace(c, c.infraProviders[0]);
  }

  /** In USE_K8S mode either provider is placed in the MCE namespace. */
  lemma UseK8sSelection(env: Env, asoTimeout: Duration)
    requires Getenv(env, "USE_K8S") == "true"
    ensures SelectProvider(env, asoTimeout).namespace == MCENamespace
  {
  }

  /** Without MCE_AUTO_ENABLE, auto-enablement is on exactly for an external
      cluster; with it, exactly when it is "true". */
  lemma MCEAutoEnableDefault(env0: Env, repoDir: string, workloadNamespace: string, parse: Parser)
    ensures var c := Assemble(env0, repoDir, workloadNamespace, parse);
            (Getenv(env0, "MCE_AUTO_ENABLE") == "" ==> (c.mceAutoEnable <==> IsExternalCluster(c))) &&
            (Getenv(env0, "MCE_AUTO_ENABLE") != "" ==> (c.mceAutoEnable <==> env0["MCE_AUTO_ENABLE"] == "true"))
  {
    AssembleFields(env0, repoDir, workloadNamespace, parse);
    ImplicitUseK8sFrame(env0, "MCE_AUTO_ENABLE");
  }

  /** Kind mode is on only for the literal "true". */
  lemma KindModeLiteral(env0: Env, repoDir: string, workloadNamespace: string, parse: Parser)
    ensures IsKindMode(Assemble(env0, repoDir, workloadNamespace, parse)) <==> Getenv(env0, "USE_KIND") == "true"
  {
    AssembleFields(env0, repoDir, workloadNamespace, parse);
    ImplicitUseK8sFrame(env0, "USE_KIND");
  }

  /** The lists one provider contributes. */
  lemma ConcatGatherOne<T>(p: InfraProvider, field: InfraProvider -> seq<T>)
    ensures Concat(Gather([p], field)) == field(p)
  {
    assert Gather([p], field) == [field(p)];
    SingleConcat(field(p));
  }

  /** The lists two providers contribute, one after the other. */
  lemma ConcatGatherPair<T>(p: InfraProvider, q: InfraProvider, field: InfraProvider -> seq<T>)
    ensures Concat(Gather([p, q], field)) == field(p) + field(q)
  {
    assert Gather([p, q], field) == [field(p)] + [field(q)];
    ConcatSnoc([field(p)], field(q));
    SingleConcat(field(p));
  }

  /** A configuration holding both providers lists the shared deploy script
      and each tool once: the union across providers removes repeats and
      keeps the order of first occurrence. */
  lemma ScriptsAcrossBothProviders(c: TestConfig, nsAzure: string, nsAWS: string)
    requires c.infraProviders == [NewAzureProvider(nsAzure), NewAWSProvider(nsAWS)]
    ensures Scripts(c) == [DeployChartsScript, AzureGenScript, AWSGenScript]
    ensures Tools(c) == ["az", "aws"]
  {
    var a, w := NewAzureProvider(nsAzure), NewAWSProvider(nsAWS);
    ConcatGatherPair(a, w, ScriptsOf);
    ConcatGatherPair(a, w, ToolsOf);
    ScriptUnion();
    ToolUnion();
  }

  lemma ScriptUnion()
    ensures AddNew([], [DeployChartsScript, AzureGenScript] + [DeployChartsScript, AWSGenScript])
            == [DeployChartsScript, AzureGenScript, AWSGenScript]
  {
    var d, ga, gw := DeployChartsScript, AzureGenScript, AWSGenScript;
    assert ga[8] != d[8] && gw[8] != d[8] && ga[8] != gw[8];
    assert [d, ga] + [d, gw] == [d, ga] + [d] + [gw];
    AddNewTwoDistinct(d, ga);
    AddNewSnoc([], [d, ga], d);
    AddNewSnoc([], [d, ga] + [d], gw);
  }

  lemma ToolUnion()
    ensures AddNew([], ["az"] + ["aws"]) == ["az", "aws"]
  {
    assert "az"[1] != "aws"[1];
    AddNewTwoDistinct("az", "aws");
  }

  lemma SingleConcat<T>(xs: seq<T>)
    ensures Concat([xs]) == xs
  {
    assert [xs] == [] + [xs];
    ConcatSnoc([], xs);
  }

  lemma AddNewOne(x: string)
    ensures AddNew([], [x]) == [x]
  {
    AddNewSnoc([], [], x);
  }

  lemma AddNewTwoDistinct(x: string, y: string)
    requires x != y
    ensures AddNew([], [x, y]) == [x, y]
  {
    AddNewOne(x);
    AddNewSnoc([], [x], y);
  }

  // ---------------------------------------------------------------------
  // Names and paths

  function IsExternalCluster(c: TestConfig): bool
  {
    c.useKubeconfig != ""
  }

  function IsKindMode(c: TestConfig): bool
  {
    c.useKind
  }

  /** The directory the generation script writes into, relative to the
      repository directory. */
  function OutputDirName(c: TestConfig): string
  {
    c.workloadClusterName + "-" + c.environment
  }

  function AROYAMLPath(c: TestConfig): string
  {
    c.repoDir + "/" + OutputDirName(c) + "/aro.yaml"
  }

  /** The manifest lies in the output directory inside the repository
      directory, and the output directory name begins with the workload
      cluster name followed by a dash. */
  lemma AROYAMLPathLayout(c: TestConfig)
    ensures var path, dir := AROYAMLPath(c), OutputDirName(c);
            |path| == |c.repoDir| + 1 + |dir| + |"/aro.yaml"| &&
            path[..|c.repoDir| + 1] == c.repoDir + "/" &&
            path[|c.repoDir| + 1..|c.repoDir| + 1 + |dir|] == dir &&
            path[|path| - |"/aro.yaml"|..] == "/" + ExpectedFiles()[1] &&
            dir[..|c.workloadClusterName|] == c.workloadClusterName &&
            dir[|c.workloadClusterName|] == '-'
  {
    var path, dir := AROYAMLPath(c), OutputDirName(c);
    assert path == (c.repoDir + "/") + dir + "/aro.yaml";
  }

  /** The manifests the generation script is expected to write. */
  function ExpectedFiles(): seq<string>
  {
    ["credentials.yaml", "aro.yaml"]
  }

  /** The kubectl context: the kubeconfig's current context for an external
      cluster (`currentContext`, read outside this model), else the Kind
      context named after the management cluster. */
  function KubeContext(c: TestConfig, currentContext: string): (ctx: string)
    ensures IsExternalCluster(c) ==> ctx == currentContext
    ensures !IsExternalCluster(c) ==> |ctx| >= 5 && ctx[..5] == "kind-" && ctx[5..] == c.managementClusterName
  {
    if IsExternalCluster(c) then currentContext
    else
      var ctx := "kind-" + c.managementClusterName;
      assert ctx[..5] == "kind-" && ctx[5..] == c.managementClusterName;
      ctx
  }

  /** GetProvisionedClusterName, given what the extractor returned for
      aro.yaml: the extracted name, or the workload cluster name when the
      file is missing or has no Cluster resource. */
  function ProvisionedClusterName(c: TestConfig, extracted: Option<string>): string
  {
    match extracted
    case Some(name) => name
    case None => c.workloadClusterName
  }

  /** GetProvisionedAROControlPlaneName: the extracted name, or the
      provisioned cluster name followed by "-control-plane". */
  function ProvisionedControlPlaneName(c: TestConfig, extracted: Option<string>, extractedCluster: Option<string>): string
  {
    match extracted
    case Some(name) => name
    case None => ProvisionedClusterName(c, extractedCluster) + "-control-plane"
  }

  /** GetProvisionedMachinePoolName: the extracted name, or the provisioned
      cluster name followed by "-pool". */
  function ProvisionedMachinePoolName(c: TestConfig, extracted: Option<string>, extractedCluster: Option<string>): string
  {
    match extracted
    case Some(name) => name
    case None => ProvisionedClusterName(c, extractedCluster) + "-pool"
  }

  /** Before the manifest exists the three names are synthesised from the
      workload cluster name and are pairwise different. */
  lemma FallbackNamesBeforeGeneration(c: TestConfig)
    ensures var w := c.workloadClusterName;
            var cluster := ProvisionedClusterName(c, None);
            var cp := ProvisionedControlPlaneName(c, None, None);
            var pool := ProvisionedMachinePoolName(c, None, None);
            && cluster == w && cp == w + "-control-plane" && pool == w + "-pool"
            && cluster != cp && cluster != pool && cp != pool
  {
    var w := c.workloadClusterName;
    var cp, pool := w + "-control-plane", w + "-pool";
    assert cp[|w| + 1] == 'c' && pool[|w| + 1] == 'p';
  }

  /** A name the extractor found always wins over the fallback, and a
      control-plane or pool fallback always carries the cluster name it
      falls back to (extracted or not) as its prefix. */
  lemma ExtractedNamesWin(c: TestConfig, cluster: Option<string>, cp: Option<string>, pool: Option<string>)
    ensures cluster.Some? ==> ProvisionedClusterName(c, cluster) == cluster.value
    ensures cp.Some? ==> ProvisionedControlPlaneName(c, cp, cluster) == cp.value
    ensures pool.Some? ==> ProvisionedMachinePoolName(c, pool, cluster) == pool.value
    ensures cp.None? ==>
              var name, base := ProvisionedControlPlaneName(c, cp, cluster), ProvisionedClusterName(c, cluster);
              |name| > |base| && name[..|base|] == base
    ensures pool.None? ==>
              var name, base := ProvisionedMachinePoolName(c, pool, cluster), ProvisionedClusterName(c, cluster);
              |name| > |base| && name[..|base|] == base
  {
  }
}
