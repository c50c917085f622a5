/** Infrastructure provider descriptors: the Azure provider (CAPZ and ASO
    controllers, provider name "aro") and the AWS provider (CAPA, provider
    name "rosa"), each built over the namespace its controllers run in. */
module Providers {
  import opened Wrappers
  import opened Environment

  /** A controller deployment to validate; a timeout of 0 stands for the
      default controller timeout. */
  datatype ControllerDef = ControllerDef(
    displayName: string,
    namespace: string,
    deploymentName: string,
    podSelector: string,
    timeout: Duration)

  /** A webhook service to validate. */
  datatype WebhookDef = WebhookDef(
    displayName: string,
    namespace: string,
    serviceName: string,
    port: int)

  /** A credential secret: the fields that must be non-empty in it, and the
      environment variables without which its check is skipped. */
  datatype CredentialSecretDef = CredentialSecretDef(
    name: string,
    namespace: string,
    requiredFields: seq<string>,
    requiredEnvVars: seq<string>)

  datatype InfraProvider = InfraProvider(
    name: string,
    controllers: seq<ControllerDef>,
    webhooks: seq<WebhookDef>,
    credentialSecret: Option<CredentialSecretDef>,
    deploymentCharts: seq<string>,
    mceComponentName: string,
    requiredTools: seq<string>,
    requiredScripts: seq<string>)

  const DeployChartsScript := "scripts/deploy-charts.sh"

  // Names the Azure provider deploys and validates
  const CAPZDeployment := "capz-controller-manager"
  const CAPZPodSelector := "cluster.x-k8s.io/provider=infrastructure-azure"
  const CAPZWebhookService := "capz-webhook-service"
  const ASODeployment := "azureserviceoperator-controller-manager"
  const ASOPodSelector := "app.kubernetes.io/name=azure-service-operator"
  const ASOWebhookService := "azureserviceoperator-webhook-service"
  const ASOCredentialSecret := "aso-controller-settings"
  const AzureChart := "cluster-api-provider-azure"
  const AzureMCEComponent := "cluster-api-provider-azure-preview"
  const AzureGenScript := "scripts/aro-hcp/gen.sh"

  // Names the AWS provider deploys and validates
  const CAPADeployment := "capa-controller-manager"
  const CAPAPodSelector := "cluster.x-k8s.io/provider=infrastructure-aws"
  const CAPAWebhookService := "capa-webhook-service"
  const CAPACredentialSecret := "capa-manager-bootstrap-credentials"
  const AWSChart := "cluster-api-provider-aws"
  const AWSMCEComponent := "cluster-api-provider-aws"
  const AWSGenScript := "scripts/rosa-hcp/gen.sh"

  /** Every controller, every webhook and the credential secret of `p` live
      in namespace `ns`. */
  predicate InNamespace(p: InfraProvider, ns: string)
  {
    && (forall i :: 0 <= i < |p.controllers| ==> p.controllers[i].namespace == ns)
    && (forall i :: 0 <= i < |p.webhooks| ==> p.webhooks[i].namespace == ns)
    && (p.credentialSecret.Some? ==> p.credentialSecret.value.namespace == ns)
  }

  /** NewAzureProvider: the "aro" provider with the CAPZ and ASO controllers
      and webhooks and the ASO credential secret, all in `namespace`. */
  function NewAzureProvider(namespace: string): (p: InfraProvider)
    ensures p.name == "aro" && InNamespace(p, namespace)
    ensures |p.controllers| == 2 && p.controllers[0].displayName == "CAPZ" && p.controllers[1].displayName == "ASO"
    ensures forall i :: 0 <= i < |p.controllers| ==> p.controllers[i].timeout == 0
    ensures |p.webhooks| == 2 && forall i :: 0 <= i < |p.webhooks| ==> p.webhooks[i].port == 443
    ensures p.credentialSecret.Some? && |p.credentialSecret.value.requiredFields| == 4
    ensures |p.credentialSecret.value.requiredEnvVars| == 2
    ensures p.requiredTools == ["az"] && |p.requiredScripts| == 2 && p.requiredScripts[0] == DeployChartsScript
  {
    InfraProvider(
      name := "aro",
      controllers := [
        ControllerDef("CAPZ", namespace, CAPZDeployment, CAPZPodSelector, 0),
        ControllerDef("ASO", namespace, ASODeployment, ASOPodSelector, 0)
      ],
      webhooks := [
        WebhookDef("CAPZ", namespace, CAPZWebhookService, 443),
        WebhookDef("ASO", namespace, ASOWebhookService, 443)
      ],
      credentialSecret := Some(CredentialSecretDef(
        ASOCredentialSecret, namespace,
        ["AZURE_TENANT_ID", "AZURE_SUBSCRIPTION_ID", "AZURE_CLIENT_ID", "AZURE_CLIENT_SECRET"],
        ["AZURE_CLIENT_ID", "AZURE_CLIENT_SECRET"])),
      deploymentCharts := [AzureChart],
      mceComponentName := AzureMCEComponent,
      requiredTools := ["az"],
      requiredScripts := [DeployChartsScript, AzureGenScript])
  }

  /** NewAWSProvider: the "rosa" provider with the CAPA controller and
      webhook and the CAPA bootstrap credential secret, all in `namespace`. */
  function NewAWSProvider(namespace: string): (p: InfraProvider)
    ensures p.name == "rosa" && InNamespace(p, namespace)
    ensures |p.controllers| == 1 && p.controllers[0].displayName == "CAPA" && p.controllers[0].timeout == 0
    ensures |p.webhooks| == 1 && p.webhooks[0].port == 443
    ensures p.credentialSecret.Some? && p.credentialSecret.value.requiredFields == ["credentials"]
    ensures p.credentialSecret.value.requiredEnvVars == ["AWS_ACCESS_KEY_ID", "AWS_SECRET_ACCESS_KEY"]
    ensures p.requiredTools == ["aws"] && |p.requiredScripts| == 2 && p.requiredScripts[0] == DeployChartsScript
  {
    InfraProvider(
      name := "rosa",
      controllers := [
        ControllerDef("CAPA", namespace, CAPADeployment, CAPAPodSelector, 0)
      ],
      webhooks := [WebhookDef("CAPA", namespace, CAPAWebhookService, 443)],
      credentialSecret := Some(CredentialSecretDef(
        CAPACredentialSecret, namespace,
        ["credentials"],
        ["AWS_ACCESS_KEY_ID", "AWS_SECRET_ACCESS_KEY"])),
      deploymentCharts := [AWSChart],
      mceComponentName := AWSMCEComponent,
      requiredTools := ["aws"],
      requiredScripts := [DeployChartsScript, AWSGenScript])
  }

  /** The ASO controller's readiness timeout: `p` with every controller
      whose display name is "ASO" given `timeout`, and nothing else changed. */
  function WithASOTimeout(p: InfraProvider, timeout: Duration): InfraProvider
  {
    p.(controllers := seq(|p.controllers|, i requires 0 <= i < |p.controllers| =>
         if p.controllers[i].displayName == "ASO" then p.controllers[i].(timeout := timeout)
         else p.controllers[i]))
  }

  /** The index loop NewTestConfig runs over the Azure provider's controllers,
      setting the timeout of the one named "ASO" in place. */
  method OverrideASOTimeout(p: InfraProvider, timeout: Duration) returns (q: InfraProvider)
    ensures q == WithASOTimeout(p, timeout)
    ensures q.(controllers := p.controllers) == p
    ensures |q.controllers| == |p.controllers|
    ensures forall i :: 0 <= i < |p.controllers| ==>
              q.controllers[i] == p.controllers[i].(timeout := q.controllers[i].timeout)
    ensures forall i :: 0 <= i < |p.controllers| ==>
              q.controllers[i].timeout ==
                if p.controllers[i].displayName == "ASO" then timeout else p.controllers[i].timeout
  {
    var controllers := p.controllers;
    var i := 0;
    while i < |controllers|
      invariant 0 <= i <= |controllers| == |p.controllers|
      invariant forall k :: 0 <= k < i ==>
                  controllers[k] == if p.controllers[k].displayName == "ASO"
                                    then p.controllers[k].(timeout := timeout) else p.controllers[k]
      invariant forall k :: i <= k < |controllers| ==> controllers[k] == p.controllers[k]
    {
      if controllers[i].displayName == "ASO" {
        controllers := controllers[i := controllers[i].(timeout := timeout)];
      }
      i := i + 1;
    }
    q := p.(controllers := controllers);
  }

  /** In the Azure provider the override reaches the ASO controller only:
      CAPZ keeps the default, and namespaces, webhooks and the credential
      secret are untouched. The AWS provider has no ASO controller. */
  lemma ASOTimeoutOnAzure(namespace: string, timeout: Duration)
    ensures var p := NewAzureProvider(namespace);
            var q := WithASOTimeout(p, timeout);
            && |q.controllers| == 2
            && q.controllers[0] == p.controllers[0]
            && q.controllers[1] == p.controllers[1].(timeout := timeout)
            && q.(controllers := p.controllers) == p
            && InNamespace(q, namespace)
    ensures WithASOTimeout(NewAWSProvider(namespace), timeout) == NewAWSProvider(namespace)
  {
    var p := NewAzureProvider(namespace);
    assert p.controllers[0].displayName[1] != "ASO"[1];
    var a := NewAWSProvider(namespace);
    assert a.controllers[0].displayName[1] != "ASO"[1];
    assert WithASOTimeout(a, timeout).controllers == a.controllers;
  }
}
