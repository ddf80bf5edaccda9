/** The defaulting functions of pkg/cmd/server/apis/config/v1/conversions.go.
    Each `SetDefaults_X(obj *X)` fills the empty fields of the struct it is
    handed, in place; here it is a method on a `Ptr<X>` whose new value is
    `XDefaults` of the old one. The lemmas beside each say which fields it may
    write (only empty ones), that a second run changes nothing, and the rules
    of the few defaults that depend on other fields. */
module ConfigDefaults {
  import opened Wrappers
  import opened ConfigTypes

  /** A string field defaulted when it is empty (`len(s) == 0`). */
  function OrString(s: string, default: string): string {
    if |s| == 0 then default else s
  }

  /** A numeric field defaulted when it is zero. */
  function OrInt(n: int, default: int): int {
    if n == 0 then default else n
  }

  const JSONContentType: string := "application/json"

  // ---------------------------------------------------------------------------
  // SetDefaults_ClientConnectionOverrides (conversions.go:421-430).

  function ClientConnectionOverridesDefaults(o: ClientConnectionOverrides): ClientConnectionOverrides {
    o.(acceptContentTypes := OrString(o.acceptContentTypes, JSONContentType),
       contentType := OrString(o.contentType, JSONContentType))
  }

  method SetDefaultsClientConnectionOverrides(overrides: Ptr<ClientConnectionOverrides>)
    modifies overrides
    ensures overrides.val == ClientConnectionOverridesDefaults(old(overrides.val))
  {
    if |overrides.val.acceptContentTypes| == 0 {
      overrides.val := overrides.val.(acceptContentTypes := JSONContentType);
    }
    if |overrides.val.contentType| == 0 {
      overrides.val := overrides.val.(contentType := JSONContentType);
    }
  }

  /** Both content types are set once defaulted. */
  predicate ClientConnectionOverridesSettled(o: ClientConnectionOverrides) {
    o.acceptContentTypes != "" && o.contentType != ""
  }

  /** Only the two empty content types are written, and the result is
      settled; defaulting leaves a settled value alone and nothing else. */
  lemma ClientConnectionOverridesDefaultsSpec(o: ClientConnectionOverrides)
    ensures var r := ClientConnectionOverridesDefaults(o);
      && Fills(o.acceptContentTypes, r.acceptContentTypes, "")
      && Fills(o.contentType, r.contentType, "")
      && r.(acceptContentTypes := o.acceptContentTypes, contentType := o.contentType) == o
      && ClientConnectionOverridesSettled(r)
      && (ClientConnectionOverridesSettled(o) <==> r == o)
      && ClientConnectionOverridesDefaults(r) == r
  {
  }

  // ---------------------------------------------------------------------------
  // SetDefaults_MasterConfig (conversions.go:17-126).

  /** The controllers list (conversions.go:21-28): only an empty list is
      defaulted, from the legacy `controllers` switch. */
  function ControllersDefault(controllers: seq<string>, legacy: string, k: Constants): seq<string> {
    if |controllers| != 0 then controllers
    else if |legacy| == 0 || legacy == k.controllersAll then ["*"]
    else if legacy == k.controllersDisabled then []
    else controllers
  }

  /** The election stanza, when there is one (conversions.go:29-36). */
  function ElectionDefaults(e: ControllerElectionConfig): ControllerElectionConfig {
    e.(lockNamespace := OrString(e.lockNamespace, "kube-system"),
       lockResource :=
         if |e.lockResource.group| == 0 && |e.lockResource.resource| == 0
         then e.lockResource.(resource := "configmaps")
         else e.lockResource)
  }

  function JenkinsPipelineDefaults(j: JenkinsPipelineConfig): JenkinsPipelineConfig {
    JenkinsPipelineConfig(
      if j.autoProvisionEnabled.None? then Some(true) else j.autoProvisionEnabled,
      OrString(j.templateNamespace, "openshift"),
      OrString(j.templateName, "jenkins-ephemeral"),
      OrString(j.serviceName, "jenkins"))
  }

  /** The loopback client overrides (conversions.go:61-71): allocated when
      nil, the historical QPS and burst when not positive, then the
      content-type defaults. */
  function LoopbackOverridesDefaults(o: Option<ClientConnectionOverrides>): ClientConnectionOverrides {
    var present := if o.None? then EmptyOverrides else o.value;
    var historical := present.(
      qps := if present.qps <= 0.0 then 150.0 else present.qps,
      burst := if present.burst <= 0 then 300 else present.burst);
    ClientConnectionOverridesDefaults(historical)
  }

  /** Whether the controller arguments name no cloud provider
      (conversions.go:85); a missing key reads as an empty list. */
  predicate NoCloudProvider(args: map<string, seq<string>>) {
    var provider := if "cloud-provider" in args then args["cloud-provider"] else [];
    |provider| == 0 || provider[0] == ""
  }

  /** Whether `cidr` overlaps the service network or any cluster network
      (conversions.go:89-99). */
  predicate IngressOverlap(cidr: string, serviceCIDR: string, networks: seq<ClusterNetworkEntry>,
                           overlaps: (string, string) -> bool)
  {
    overlaps(cidr, serviceCIDR) || exists i :: 0 <= i < |networks| && overlaps(cidr, networks[i].cidr)
  }

  /** The overlap search (conversions.go:89-99): the service network first,
      then the cluster networks in order, stopping at the first overlap. */
  method IngressCIDROverlaps(cidr: string, network: MasterNetworkConfig, overlaps: (string, string) -> bool)
    returns (cidrOverlap: bool)
    ensures cidrOverlap <==> IngressOverlap(cidr, network.serviceNetworkCIDR, network.clusterNetworks, overlaps)
  {
    cidrOverlap := false;
    if overlaps(cidr, network.serviceNetworkCIDR) {
      cidrOverlap := true;
    } else {
      var i := 0;
      while i < |network.clusterNetworks|
        invariant 0 <= i <= |network.clusterNetworks|
        invariant !cidrOverlap
        invariant forall j :: 0 <= j < i ==> !overlaps(cidr, network.clusterNetworks[j].cidr)
      {
        if overlaps(cidr, network.clusterNetworks[i].cidr) {
          cidrOverlap := true;
          break;
        }
        i := i + 1;
      }
    }
  }

  /** The network defaults (conversions.go:73-103): the service network
      falls back to the Kubernetes services subnet, then to 10.0.0.0/24;
      the ingress network takes the default CIDR only when it is empty,
      no cloud provider is named and the default overlaps no network. */
  function NetworkDefaults(net: MasterNetworkConfig, kube: KubernetesMasterConfig, k: Constants): MasterNetworkConfig {
    var withService := net.(serviceNetworkCIDR :=
      OrString(net.serviceNetworkCIDR, OrString(kube.servicesSubnet, "10.0.0.0/24")));
    if NoCloudProvider(kube.controllerArguments) && |withService.ingressIPNetworkCIDR| == 0
       && !IngressOverlap(k.ingressIPNetworkCIDR, withService.serviceNetworkCIDR, withService.clusterNetworks, k.cidrsOverlap)
    then withService.(ingressIPNetworkCIDR := k.ingressIPNetworkCIDR)
    else withService
  }

  /** OAuthConfig.MasterCA (conversions.go:105-111). */
  function MasterCADefault(oauth: Option<OAuthConfig>, clientCA: string): Option<OAuthConfig> {
    if oauth.Some? && oauth.value.masterCA.None? then Some(oauth.value.(masterCA := Some(clientCA))) else oauth
  }

  /** One admission plugin stanza: a nil one becomes an empty config. */
  function PluginDefault(p: Option<AdmissionPluginConfig>): Option<AdmissionPluginConfig> {
    if p.None? then Some(EmptyPluginConfig) else p
  }

  function PluginConfigDefaults(plugins: map<string, Option<AdmissionPluginConfig>>): map<string, Option<AdmissionPluginConfig>> {
    map name | name in plugins :: PluginDefault(plugins[name])
  }

  /** The loop over plugin names (conversions.go:113-118), in the map's
      unspecified order. */
  method DefaultPluginConfigs(plugins: map<string, Option<AdmissionPluginConfig>>)
    returns (r: map<string, Option<AdmissionPluginConfig>>)
    ensures r == PluginConfigDefaults(plugins)
  {
    r := plugins;
    var pending := plugins.Keys;
    while pending != {}
      invariant pending <= plugins.Keys
      invariant r.Keys == plugins.Keys
      invariant forall name :: name in r ==> r[name] == if name in pending then plugins[name] else PluginDefault(plugins[name])
      decreases pending
    {
      var name :| name in pending;
      if r[name].None? {
        r := r[name := Some(EmptyPluginConfig)];
      }
      pending := pending - {name};
    }
  }

  /** Every plugin name keeps its stanza or, if nil, gets an empty one. */
  lemma PluginConfigDefaultsSpec(plugins: map<string, Option<AdmissionPluginConfig>>)
    ensures var r := PluginConfigDefaults(plugins);
      && r.Keys == plugins.Keys
      && (forall name :: name in r ==> r[name].Some?)
      && (forall name :: name in plugins && plugins[name].Some? ==> r[name] == plugins[name])
      && (forall name :: name in plugins && plugins[name].None? ==> r[name] == Some(EmptyPluginConfig))
  {
  }

  function WebhookDefault(w: WebhookTokenAuthenticator): WebhookTokenAuthenticator {
    w.(cacheTTL := OrString(w.cacheTTL, "2m"))
  }

  function WebhookDefaults(ws: seq<WebhookTokenAuthenticator>): seq<WebhookTokenAuthenticator> {
    seq(|ws|, i requires 0 <= i < |ws| => WebhookDefault(ws[i]))
  }

  /** The loop over webhook authenticators (conversions.go:120-125). */
  method DefaultWebhookCacheTTLs(ws: seq<WebhookTokenAuthenticator>) returns (r: seq<WebhookTokenAuthenticator>)
    ensures r == WebhookDefaults(ws)
  {
    r := ws;
    for i := 0 to |r|
      invariant |r| == |ws|
      invariant forall j :: 0 <= j < i ==> r[j] == WebhookDefault(ws[j])
      invariant forall j :: i <= j < |r| ==> r[j] == ws[j]
    {
      if |r[i].cacheTTL| == 0 {
        r := r[i := r[i].(cacheTTL := "2m")];
      }
    }
  }

  /** Each authenticator keeps its config file, keeps a set TTL, and has one
      afterwards. */
  lemma WebhookDefaultsSpec(ws: seq<WebhookTokenAuthenticator>)
    ensures var r := WebhookDefaults(ws);
      && |r| == |ws|
      && (forall i :: 0 <= i < |r| ==> r[i].configFile == ws[i].configFile && r[i].cacheTTL != "")
      && (forall i :: 0 <= i < |r| ==> Fills(ws[i].cacheTTL, r[i].cacheTTL, ""))
  {
  }

  /** SetDefaults_MasterConfig, section by section in the order the source
      writes them; each section only reads fields the earlier ones leave
      alone or have already settled. */
  function MasterConfigDefaults(c: MasterConfig, k: Constants): MasterConfig {
    MasterStanzaDefaults(MasterNetworkDefaults(MasterLoopbackDefaults(MasterServingDefaults(MasterControllerDefaults(c, k))), k))
  }

  /** API levels, controllers and election (conversions.go:18-36). */
  function MasterControllerDefaults(c: MasterConfig, k: Constants): MasterConfig {
    var cc := c.controllerConfig;
    c.(apiLevels := if |c.apiLevels| == 0 then k.openShiftAPILevels else c.apiLevels,
       controllerConfig := ControllerConfig(
         if cc.election.Some? then Some(ElectionDefaults(cc.election.value)) else None,
         ControllersDefault(cc.controllers, c.controllers, k)))
  }

  /** Serving limits, routing subdomain and Jenkins pipeline (conversions.go:38-59). */
  function MasterServingDefaults(c: MasterConfig): MasterConfig {
    var serving := c.servingInfo;
    c.(servingInfo := serving.(requestTimeoutSeconds := OrInt(serving.requestTimeoutSeconds, 60 * 60),
                               maxRequestsInFlight := OrInt(serving.maxRequestsInFlight, 1200)),
       routingConfig := RoutingConfig(OrString(c.routingConfig.subdomain, "router.default.svc.cluster.local")),
       jenkinsPipelineConfig := JenkinsPipelineDefaults(c.jenkinsPipelineConfig))
  }

  /** The loopback client overrides (conversions.go:61-71). */
  function MasterLoopbackDefaults(c: MasterConfig): MasterConfig {
    c.(masterClients := MasterClients(Some(LoopbackOverridesDefaults(c.masterClients.openShiftLoopbackClientConnectionOverrides))))
  }

  /** Service and ingress networks (conversions.go:73-103). */
  function MasterNetworkDefaults(c: MasterConfig, k: Constants): MasterConfig {
    c.(networkConfig := NetworkDefaults(c.networkConfig, c.kubernetesMasterConfig, k))
  }

  /** Master CA, admission plugin stanzas, webhook TTLs (conversions.go:105-125). */
  function MasterStanzaDefaults(c: MasterConfig): MasterConfig {
    c.(oauthConfig := MasterCADefault(c.oauthConfig, c.servingInfo.servingInfo.clientCA),
       admissionConfig := AdmissionConfig(PluginConfigDefaults(c.admissionConfig.pluginConfig)),
       authConfig := MasterAuthConfig(WebhookDefaults(c.authConfig.webhookTokenAuthenticators)))
  }

  method SetDefaultsMasterConfig(obj: Ptr<MasterConfig>, k: Constants)
    modifies obj
    ensures obj.val == MasterConfigDefaults(old(obj.val), k)
  {
    DefaultMasterControllers(obj, k);
    DefaultMasterServing(obj);
    DefaultMasterLoopback(obj);
    DefaultMasterNetwork(obj, k);
    DefaultMasterStanzas(obj);
  }

  method DefaultMasterControllers(obj: Ptr<MasterConfig>, k: Constants)
    modifies obj
    ensures obj.val == MasterControllerDefaults(old(obj.val), k)
  {
    if |obj.val.apiLevels| == 0 {
      obj.val := obj.val.(apiLevels := k.openShiftAPILevels);
    }
    if |obj.val.controllerConfig.controllers| == 0 {
      if |obj.val.controllers| == 0 || obj.val.controllers == k.controllersAll {
        obj.val := obj.val.(controllerConfig := obj.val.controllerConfig.(controllers := ["*"]));
      } else if obj.val.controllers == k.controllersDisabled {
        obj.val := obj.val.(controllerConfig := obj.val.controllerConfig.(controllers := []));
      }
    }
    if obj.val.controllerConfig.election.Some? {
      var election := obj.val.controllerConfig.election.value;
      if |election.lockNamespace| == 0 {
        election := election.(lockNamespace := "kube-system");
      }
      if |election.lockResource.group| == 0 && |election.lockResource.resource| == 0 {
        election := election.(lockResource := election.lockResource.(resource := "configmaps"));
      }
      obj.val := obj.val.(controllerConfig := obj.val.controllerConfig.(election := Some(election)));
    }
  }

  method DefaultMasterServing(obj: Ptr<MasterConfig>)
    modifies obj
    ensures obj.val == MasterServingDefaults(old(obj.val))
  {
    var serving := obj.val.servingInfo;
    if serving.requestTimeoutSeconds == 0 {
      serving := serving.(requestTimeoutSeconds := 60 * 60);
    }
    if serving.maxRequestsInFlight == 0 {
      serving := serving.(maxRequestsInFlight := 1200);
    }
    obj.val := obj.val.(servingInfo := serving);
    if |obj.val.routingConfig.subdomain| == 0 {
      obj.val := obj.val.(routingConfig := RoutingConfig("router.default.svc.cluster.local"));
    }
    var jenkins := obj.val.jenkinsPipelineConfig;
    if |jenkins.templateNamespace| == 0 {
      jenkins := jenkins.(templateNamespace := "openshift");
    }
    if |jenkins.templateName| == 0 {
      jenkins := jenkins.(templateName := "jenkins-ephemeral");
    }
    if |jenkins.serviceName| == 0 {
      jenkins := jenkins.(serviceName := "jenkins");
    }
    if jenkins.autoProvisionEnabled.None? {
      jenkins := jenkins.(autoProvisionEnabled := Some(true));
    }
    obj.val := obj.val.(jenkinsPipelineConfig := jenkins);
  }

  method DefaultMasterLoopback(obj: Ptr<MasterConfig>)
    modifies obj
    ensures obj.val == MasterLoopbackDefaults(old(obj.val))
  {
    if obj.val.masterClients.openShiftLoopbackClientConnectionOverrides.None? {
      obj.val := obj.val.(masterClients := MasterClients(Some(EmptyOverrides)));
    }
    var loopback := new Ptr(obj.val.masterClients.openShiftLoopbackClientConnectionOverrides.value);
    if loopback.val.qps <= 0.0 {
      loopback.val := loopback.val.(qps := 150.0);
    }
    if loopback.val.burst <= 0 {
      loopback.val := loopback.val.(burst := 300);
    }
    SetDefaultsClientConnectionOverrides(loopback);
    obj.val := obj.val.(masterClients := MasterClients(Some(loopback.val)));
  }

  method DefaultMasterNetwork(obj: Ptr<MasterConfig>, k: Constants)
    modifies obj
    ensures obj.val == MasterNetworkDefaults(old(obj.val), k)
  {
    var network := obj.val.networkConfig;
    if |network.serviceNetworkCIDR| == 0 {
      if |obj.val.kubernetesMasterConfig.servicesSubnet| > 0 {
        network := network.(serviceNetworkCIDR := obj.val.kubernetesMasterConfig.servicesSubnet);
      } else {
        network := network.(serviceNetworkCIDR := "10.0.0.0/24");
      }
    }
    var args := obj.val.kubernetesMasterConfig.controllerArguments;
    var provider := if "cloud-provider" in args then args["cloud-provider"] else [];
    var noCloudProvider := |provider| == 0 || provider[0] == "";
    if noCloudProvider && |network.ingressIPNetworkCIDR| == 0 {
      var cidr := k.ingressIPNetworkCIDR;
      var cidrOverlap := IngressCIDROverlaps(cidr, network, k.cidrsOverlap);
      if !cidrOverlap {
        network := network.(ingressIPNetworkCIDR := cidr);
      }
    }
    obj.val := obj.val.(networkConfig := network);
  }

  method DefaultMasterStanzas(obj: Ptr<MasterConfig>)
    modifies obj
    ensures obj.val == MasterStanzaDefaults(old(obj.val))
  {
    if obj.val.oauthConfig.Some? && obj.val.oauthConfig.value.masterCA.None? {
      var s := obj.val.servingInfo.servingInfo.clientCA;
      obj.val := obj.val.(oauthConfig := Some(obj.val.oauthConfig.value.(masterCA := Some(s))));
    }
    var plugins := DefaultPluginConfigs(obj.val.admissionConfig.pluginConfig);
    obj.val := obj.val.(admissionConfig := AdmissionConfig(plugins));
    var webhooks := DefaultWebhookCacheTTLs(obj.val.authConfig.webhookTokenAuthenticators);
    obj.val := obj.val.(authConfig := MasterAuthConfig(webhooks));
  }

  /** Defaulting a master config twice is defaulting it once. */
  lemma MasterConfigDefaultsIdempotent(c: MasterConfig, k: Constants)
    ensures MasterConfigDefaults(MasterConfigDefaults(c, k), k) == MasterConfigDefaults(c, k)
  {
  }

  /** The controllers rule (conversions.go:21-28): a non-empty list is kept;
      an empty one becomes ["*"] when the legacy switch is empty or "all",
      becomes [] when it is "disabled", and stays as it is otherwise. */
  lemma MasterControllersRule(c: MasterConfig, k: Constants)
    ensures var before := c.controllerConfig.controllers;
      var after := MasterConfigDefaults(c, k).controllerConfig.controllers;
      && (before != [] ==> after == before)
      && (before == [] && (c.controllers == "" || c.controllers == k.controllersAll) ==> after == ["*"])
      && ((before == [] && c.controllers != "" && c.controllers != k.controllersAll
            && c.controllers == k.controllersDisabled) ==> after == [])
      && ((before == [] && c.controllers != "" && c.controllers != k.controllersAll
            && c.controllers != k.controllersDisabled) ==> after == before)
  {
  }

  /** The election rule (conversions.go:29-36): the election stanza is
      neither created nor removed; its lock namespace is filled, and its
      lock resource becomes "configmaps" only if group and resource are
      both empty. */
  lemma MasterElectionRule(c: MasterConfig, k: Constants)
    ensures var before := c.controllerConfig.election;
      var after := MasterConfigDefaults(c, k).controllerConfig.election;
      && (before.Some? <==> after.Some?)
      && (before.Some? ==>
            && after.value.lockName == before.value.lockName
            && after.value.lockNamespace != ""
            && Fills(before.value.lockNamespace, after.value.lockNamespace, "")
            && (after.value.lockResource != before.value.lockResource <==>
                  before.value.lockResource == GroupResource("", ""))
            && (before.value.lockResource == GroupResource("", "") ==>
                  after.value.lockResource == GroupResource("", "configmaps")))
  {
  }

  /** The scalar master defaults each fill only an empty field, and leave
      it set: the API levels whenever the default levels are non-empty, the
      others always. */
  lemma MasterScalarDefaults(c: MasterConfig, k: Constants)
    ensures var r := MasterConfigDefaults(c, k);
      && Fills(c.apiLevels, r.apiLevels, [])
      && (c.apiLevels == [] ==> r.apiLevels == k.openShiftAPILevels)
      && (r.apiLevels != [] <==> c.apiLevels != [] || k.openShiftAPILevels != [])
      && r.servingInfo.servingInfo == c.servingInfo.servingInfo
      && Fills(c.servingInfo.requestTimeoutSeconds, r.servingInfo.requestTimeoutSeconds, 0)
      && r.servingInfo.requestTimeoutSeconds != 0
      && Fills(c.servingInfo.maxRequestsInFlight, r.servingInfo.maxRequestsInFlight, 0)
      && r.servingInfo.maxRequestsInFlight != 0
      && Fills(c.routingConfig.subdomain, r.routingConfig.subdomain, "")
      && r.routingConfig.subdomain != ""
      && Fills(c.jenkinsPipelineConfig.templateNamespace, r.jenkinsPipelineConfig.templateNamespace, "")
      && Fills(c.jenkinsPipelineConfig.templateName, r.jenkinsPipelineConfig.templateName, "")
      && Fills(c.jenkinsPipelineConfig.serviceName, r.jenkinsPipelineConfig.serviceName, "")
      && r.jenkinsPipelineConfig.templateNamespace != ""
      && r.jenkinsPipelineConfig.templateName != ""
      && r.jenkinsPipelineConfig.serviceName != ""
      && Fills(c.jenkinsPipelineConfig.autoProvisionEnabled, r.jenkinsPipelineConfig.autoProvisionEnabled, None)
      && r.jenkinsPipelineConfig.autoProvisionEnabled.Some?
      && r.kubernetesMasterConfig == c.kubernetesMasterConfig
      && r.controllers == c.controllers
  {
  }

  /** The loopback overrides always exist afterwards, with a positive QPS
      and burst and both content types; positive values are kept. */
  lemma MasterLoopbackRule(c: MasterConfig, k: Constants)
    ensures var before := c.masterClients.openShiftLoopbackClientConnectionOverrides;
      var after := MasterConfigDefaults(c, k).masterClients.openShiftLoopbackClientConnectionOverrides;
      && after.Some?
      && after.value.qps > 0.0 && after.value.burst > 0
      && ClientConnectionOverridesSettled(after.value)
      && (before.Some? && before.value.qps > 0.0 ==> after.value.qps == before.value.qps)
      && (before.Some? && before.value.burst > 0 ==> after.value.burst == before.value.burst)
      && ((before.Some? && ClientConnectionOverridesSettled(before.value) && before.value.qps > 0.0
            && before.value.burst > 0) ==> after == before)
  {
  }

  /** The network rule (conversions.go:73-103). The service network is kept
      when set, else taken from the services subnet when that is set, else
      10.0.0.0/24. The ingress network changes exactly when it was empty,
      no cloud provider is named, and the default CIDR (when non-empty)
      overlaps neither the service network just defaulted nor any cluster
      network; it then holds the default. */
  lemma MasterNetworkRule(c: MasterConfig, k: Constants)
    ensures var net := c.networkConfig;
      var r := MasterConfigDefaults(c, k).networkConfig;
      && r.serviceNetworkCIDR != ""
      && (net.serviceNetworkCIDR != "" ==> r.serviceNetworkCIDR == net.serviceNetworkCIDR)
      && (net.serviceNetworkCIDR == "" && c.kubernetesMasterConfig.servicesSubnet != "" ==>
            r.serviceNetworkCIDR == c.kubernetesMasterConfig.servicesSubnet)
      && (net.serviceNetworkCIDR == "" && c.kubernetesMasterConfig.servicesSubnet == "" ==>
            r.serviceNetworkCIDR == "10.0.0.0/24")
      && (r.ingressIPNetworkCIDR != net.ingressIPNetworkCIDR <==>
            && net.ingressIPNetworkCIDR == ""
            && k.ingressIPNetworkCIDR != ""
            && NoCloudProvider(c.kubernetesMasterConfig.controllerArguments)
            && !IngressOverlap(k.ingressIPNetworkCIDR, r.serviceNetworkCIDR, net.clusterNetworks, k.cidrsOverlap))
      && (r.ingressIPNetworkCIDR != net.ingressIPNetworkCIDR ==> r.ingressIPNetworkCIDR == k.ingressIPNetworkCIDR)
      && r.(serviceNetworkCIDR := net.serviceNetworkCIDR, ingressIPNetworkCIDR := net.ingressIPNetworkCIDR) == net
  {
  }

  /** The master CA rule (conversions.go:105-111): a present OAuth config
      always has a master CA afterwards, copied from the serving client CA
      when it had none; an absent OAuth config stays absent. */
  lemma MasterCARule(c: MasterConfig, k: Constants)
    ensures var before := c.oauthConfig;
      var after := MasterConfigDefaults(c, k).oauthConfig;
      && (before.Some? <==> after.Some?)
      && (after.Some? ==> after.value.masterCA.Some? && after.value.masterURL == before.value.masterURL)
      && (before.Some? && before.value.masterCA.Some? ==> after == before)
      && (before.Some? && before.value.masterCA.None? ==>
            after.value.masterCA == Some(c.servingInfo.servingInfo.clientCA))
  {
  }

  // ---------------------------------------------------------------------------
  // SetDefaults_KubernetesMasterConfig (conversions.go:128-141).

  function KubernetesMasterConfigDefaults(c: KubernetesMasterConfig, k: Constants): KubernetesMasterConfig {
    c.(masterEndpointReconcileTTL := OrInt(c.masterEndpointReconcileTTL, 15),
       apiLevels := if |c.apiLevels| == 0 then k.kubernetesAPILevels else c.apiLevels,
       servicesNodePortRange := OrString(c.servicesNodePortRange, "30000-32767"),
       podEvictionTimeout := OrString(c.podEvictionTimeout, "5m"))
  }

  method SetDefaultsKubernetesMasterConfig(obj: Ptr<KubernetesMasterConfig>, k: Constants)
    modifies obj
    ensures obj.val == KubernetesMasterConfigDefaults(old(obj.val), k)
  {
    if obj.val.masterEndpointReconcileTTL == 0 {
      obj.val := obj.val.(masterEndpointReconcileTTL := 15);
    }
    if |obj.val.apiLevels| == 0 {
      obj.val := obj.val.(apiLevels := k.kubernetesAPILevels);
    }
    if |obj.val.servicesNodePortRange| == 0 {
      obj.val := obj.val.(servicesNodePortRange := "30000-32767");
    }
    if |obj.val.podEvictionTimeout| == 0 {
      obj.val := obj.val.(podEvictionTimeout := "5m");
    }
  }

  predicate KubernetesMasterConfigSettled(c: KubernetesMasterConfig) {
    c.masterEndpointReconcileTTL != 0 && c.apiLevels != [] && c.servicesNodePortRange != "" && c.podEvictionTimeout != ""
  }

  /** Only empty fields are written; with a non-empty default level list
      the result is settled, and a settled config is left as it is. */
  lemma KubernetesMasterConfigDefaultsSpec(c: KubernetesMasterConfig, k: Constants)
    ensures var r := KubernetesMasterConfigDefaults(c, k);
      && Fills(c.masterEndpointReconcileTTL, r.masterEndpointReconcileTTL, 0)
      && Fills(c.apiLevels, r.apiLevels, [])
      && Fills(c.servicesNodePortRange, r.servicesNodePortRange, "")
      && Fills(c.podEvictionTimeout, r.podEvictionTimeout, "")
      && r.(masterEndpointReconcileTTL := c.masterEndpointReconcileTTL, apiLevels := c.apiLevels,
            servicesNodePortRange := c.servicesNodePortRange, podEvictionTimeout := c.podEvictionTimeout) == c
      && (k.kubernetesAPILevels != [] ==> KubernetesMasterConfigSettled(r))
      && (KubernetesMasterConfigSettled(c) ==> r == c)
      && KubernetesMasterConfigDefaults(r, k) == r
  {
  }

  // ---------------------------------------------------------------------------
  // SetDefaults_NodeConfig (conversions.go:142-182).

  /** The historical node-to-master client limits, used when the overrides are nil. */
  const NodeMasterOverrides: ClientConnectionOverrides := ClientConnectionOverrides("", "", 10.0, 20)

  function NodeConfigDefaults(c: NodeConfig): NodeConfig {
    var overrides := if c.masterClientConnectionOverrides.None? then NodeMasterOverrides
                     else c.masterClientConnectionOverrides.value;
    var auth := c.authConfig;
    c.(masterClientConnectionOverrides := Some(ClientConnectionOverridesDefaults(overrides)),
       networkConfig := NodeNetworkConfig(
         OrString(c.networkConfig.networkPluginName, c.deprecatedNetworkPluginName),
         OrInt(c.networkConfig.mtu, 1450)),
       iptablesSyncPeriod := OrString(c.iptablesSyncPeriod, "30s"),
       authConfig := NodeAuthConfig(
         OrString(auth.authenticationCacheTTL, "5m"), OrInt(auth.authenticationCacheSize, 1000),
         OrString(auth.authorizationCacheTTL, "5m"), OrInt(auth.authorizationCacheSize, 1000)),
       enableUnidling := if c.enableUnidling.None? then Some(true) else c.enableUnidling)
  }

  method SetDefaultsNodeConfig(obj: Ptr<NodeConfig>)
    modifies obj
    ensures obj.val == NodeConfigDefaults(old(obj.val))
  {
    if obj.val.masterClientConnectionOverrides.None? {
      obj.val := obj.val.(masterClientConnectionOverrides := Some(NodeMasterOverrides));
    }
    var overrides := new Ptr(obj.val.masterClientConnectionOverrides.value);
    SetDefaultsClientConnectionOverrides(overrides);
    obj.val := obj.val.(masterClientConnectionOverrides := Some(overrides.val));
    DefaultNodeNetworkAndAuth(obj);
  }

  /** The network, sync-period, auth-cache and unidling defaults
      (conversions.go:152-181). */
  method DefaultNodeNetworkAndAuth(obj: Ptr<NodeConfig>)
    modifies obj
    ensures obj.val == NodeConfigDefaults(old(obj.val)).(masterClientConnectionOverrides := old(obj.val).masterClientConnectionOverrides)
  {
    var network := obj.val.networkConfig;
    if |network.networkPluginName| == 0 {
      network := network.(networkPluginName := obj.val.deprecatedNetworkPluginName);
    }
    if network.mtu == 0 {
      network := network.(mtu := 1450);
    }
    obj.val := obj.val.(networkConfig := network);
    if |obj.val.iptablesSyncPeriod| == 0 {
      obj.val := obj.val.(iptablesSyncPeriod := "30s");
    }

    var auth := obj.val.authConfig;
    if |auth.authenticationCacheTTL| == 0 {
      auth := auth.(authenticationCacheTTL := "5m");
    }
    if auth.authenticationCacheSize == 0 {
      auth := auth.(authenticationCacheSize := 1000);
    }
    if |auth.authorizationCacheTTL| == 0 {
      auth := auth.(authorizationCacheTTL := "5m");
    }
    if auth.authorizationCacheSize == 0 {
      auth := auth.(authorizationCacheSize := 1000);
    }
    obj.val := obj.val.(authConfig := auth);

    if obj.val.enableUnidling.None? {
      obj.val := obj.val.(enableUnidling := Some(true));
    }
  }

  /** Every field the node defaulter sets is set; the plugin name only when
      the deprecated name gives one. */
  predicate NodeConfigSettled(c: NodeConfig) {
    && c.masterClientConnectionOverrides.Some?
    && ClientConnectionOverridesSettled(c.masterClientConnectionOverrides.value)
    && (c.networkConfig.networkPluginName != "" || c.deprecatedNetworkPluginName == "")
    && c.networkConfig.mtu != 0
    && c.iptablesSyncPeriod != ""
    && c.authConfig.authenticationCacheTTL != "" && c.authConfig.authenticationCacheSize != 0
    && c.authConfig.authorizationCacheTTL != "" && c.authConfig.authorizationCacheSize != 0
    && c.enableUnidling.Some?
  }

  /** The node defaults: nil overrides get the historical 10 QPS and burst
      20; the plugin name migrates from the deprecated field; unidling is
      enabled unless set. Only empty fields are written, the result is
      settled, and defaulting leaves exactly the settled configs alone. */
  lemma NodeConfigDefaultsSpec(c: NodeConfig)
    ensures var r := NodeConfigDefaults(c);
      && (c.masterClientConnectionOverrides.None? ==>
            r.masterClientConnectionOverrides == Some(ClientConnectionOverridesDefaults(NodeMasterOverrides)))
      && (c.masterClientConnectionOverrides.Some? ==>
            r.masterClientConnectionOverrides == Some(ClientConnectionOverridesDefaults(c.masterClientConnectionOverrides.value)))
      && (c.networkConfig.networkPluginName == "" ==> r.networkConfig.networkPluginName == c.deprecatedNetworkPluginName)
      && Fills(c.networkConfig.networkPluginName, r.networkConfig.networkPluginName, "")
      && Fills(c.networkConfig.mtu, r.networkConfig.mtu, 0)
      && Fills(c.iptablesSyncPeriod, r.iptablesSyncPeriod, "")
      && Fills(c.authConfig.authenticationCacheTTL, r.authConfig.authenticationCacheTTL, "")
      && Fills(c.authConfig.authenticationCacheSize, r.authConfig.authenticationCacheSize, 0)
      && Fills(c.authConfig.authorizationCacheTTL, r.authConfig.authorizationCacheTTL, "")
      && Fills(c.authConfig.authorizationCacheSize, r.authConfig.authorizationCacheSize, 0)
      && Fills(c.enableUnidling, r.enableUnidling, None)
      && r.deprecatedNetworkPluginName == c.deprecatedNetworkPluginName
      && NodeConfigSettled(r)
      && (NodeConfigSettled(c) <==> r == c)
      && NodeConfigDefaults(r) == r
  {
  }

  // ---------------------------------------------------------------------------
  // SetDefaults_EtcdStorageConfig (conversions.go:183-196).

  function EtcdStorageConfigDefaults(c: EtcdStorageConfig, k: Constants): EtcdStorageConfig {
    EtcdStorageConfig(
      OrString(c.kubernetesStorageVersion, "v1"),
      OrString(c.kubernetesStoragePrefix, "kubernetes.io"),
      OrString(c.openShiftStorageVersion, k.openShiftStorageVersion),
      OrString(c.openShiftStoragePrefix, "openshift.io"))
  }

  method SetDefaultsEtcdStorageConfig(obj: Ptr<EtcdStorageConfig>, k: Constants)
    modifies obj
    ensures obj.val == EtcdStorageConfigDefaults(old(obj.val), k)
  {
    if |obj.val.kubernetesStorageVersion| == 0 {
      obj.val := obj.val.(kubernetesStorageVersion := "v1");
    }
    if |obj.val.kubernetesStoragePrefix| == 0 {
      obj.val := obj.val.(kubernetesStoragePrefix := "kubernetes.io");
    }
    if |obj.val.openShiftStorageVersion| == 0 {
      obj.val := obj.val.(openShiftStorageVersion := k.openShiftStorageVersion);
    }
    if |obj.val.openShiftStoragePrefix| == 0 {
      obj.val := obj.val.(openShiftStoragePrefix := "openshift.io");
    }
  }

  predicate EtcdStorageConfigSettled(c: EtcdStorageConfig) {
    c.kubernetesStorageVersion != "" && c.kubernetesStoragePrefix != ""
    && c.openShiftStorageVersion != "" && c.openShiftStoragePrefix != ""
  }

  lemma EtcdStorageConfigDefaultsSpec(c: EtcdStorageConfig, k: Constants)
    ensures var r := EtcdStorageConfigDefaults(c, k);
      && Fills(c.kubernetesStorageVersion, r.kubernetesStorageVersion, "")
      && Fills(c.kubernetesStoragePrefix, r.kubernetesStoragePrefix, "")
      && Fills(c.openShiftStorageVersion, r.openShiftStorageVersion, "")
      && Fills(c.openShiftStoragePrefix, r.openShiftStoragePrefix, "")
      && (k.openShiftStorageVersion != "" ==> EtcdStorageConfigSettled(r))
      && (EtcdStorageConfigSettled(c) ==> r == c)
      && EtcdStorageConfigDefaults(r, k) == r
  {
  }

  // ---------------------------------------------------------------------------
  // SetDefaults_DockerConfig (conversions.go:198-208).

  function DockerConfigDefaults(c: DockerConfig, k: Constants): DockerConfig {
    DockerConfig(
      OrString(c.execHandlerName, k.dockerExecHandlerNative),
      OrString(c.dockerShimSocket, "unix:///var/run/dockershim.sock"),
      OrString(c.dockershimRootDirectory, "/var/lib/dockershim"))
  }

  method SetDefaultsDockerConfig(obj: Ptr<DockerConfig>, k: Constants)
    modifies obj
    ensures obj.val == DockerConfigDefaults(old(obj.val), k)
  {
    if |obj.val.execHandlerName| == 0 {
      obj.val := obj.val.(execHandlerName := k.dockerExecHandlerNative);
    }
    if |obj.val.dockerShimSocket| == 0 {
      obj.val := obj.val.(dockerShimSocket := "unix:///var/run/dockershim.sock");
    }
    if |obj.val.dockershimRootDirectory| == 0 {
      obj.val := obj.val.(dockershimRootDirectory := "/var/lib/dockershim");
    }
  }

  predicate DockerConfigSettled(c: DockerConfig) {
    c.execHandlerName != "" && c.dockerShimSocket != "" && c.dockershimRootDirectory != ""
  }

  lemma DockerConfigDefaultsSpec(c: DockerConfig, k: Constants)
    ensures var r := DockerConfigDefaults(c, k);
      && Fills(c.execHandlerName, r.execHandlerName, "")
      && Fills(c.dockerShimSocket, r.dockerShimSocket, "")
      && Fills(c.dockershimRootDirectory, r.dockershimRootDirectory, "")
      && (k.dockerExecHandlerNative != "" ==> DockerConfigSettled(r))
      && (DockerConfigSettled(c) ==> r == c)
      && DockerConfigDefaults(r, k) == r
  {
  }

  // ---------------------------------------------------------------------------
  // SetDefaults_ServingInfo and SetDefaults_DNSConfig (conversions.go:210-214, 226-230).

  function ServingInfoDefaults(s: ServingInfo): ServingInfo {
    s.(bindNetwork := OrString(s.bindNetwork, "tcp4"))
  }

  method SetDefaultsServingInfo(obj: Ptr<ServingInfo>)
    modifies obj
    ensures obj.val == ServingInfoDefaults(old(obj.val))
  {
    if |obj.val.bindNetwork| == 0 {
      obj.val := obj.val.(bindNetwork := "tcp4");
    }
  }

  /** The bind network is the only field written, only when empty, and
      it is set afterwards. */
  lemma ServingInfoDefaultsSpec(s: ServingInfo)
    ensures var r := ServingInfoDefaults(s);
      && Fills(s.bindNetwork, r.bindNetwork, "")
      && r.bindNetwork != ""
      && r.(bindNetwork := s.bindNetwork) == s
      && (s.bindNetwork != "" <==> r == s)
      && ServingInfoDefaults(r) == r
  {
  }

  function DNSConfigDefaults(c: DNSConfig): DNSConfig {
    c.(bindNetwork := OrString(c.bindNetwork, "tcp4"))
  }

  method SetDefaultsDNSConfig(obj: Ptr<DNSConfig>)
    modifies obj
    ensures obj.val == DNSConfigDefaults(old(obj.val))
  {
    if |obj.val.bindNetwork| == 0 {
      obj.val := obj.val.(bindNetwork := "tcp4");
    }
  }

  lemma DNSConfigDefaultsSpec(c: DNSConfig)
    ensures var r := DNSConfigDefaults(c);
      && Fills(c.bindNetwork, r.bindNetwork, "")
      && r.bindNetwork != ""
      && r.bindAddress == c.bindAddress
      && (c.bindNetwork != "" <==> r == c)
      && DNSConfigDefaults(r) == r
  {
  }

  // ---------------------------------------------------------------------------
  // SetDefaults_ImagePolicyConfig (conversions.go:215-225).

  function ImagePolicyConfigDefaults(c: ImagePolicyConfig): ImagePolicyConfig {
    ImagePolicyConfig(
      OrInt(c.maxImagesBulkImportedPerRepository, 50),
      OrInt(c.maxScheduledImageImportsPerMinute, 60),
      OrInt(c.scheduledImageImportMinimumIntervalSeconds, 15 * 60))
  }

  method SetDefaultsImagePolicyConfig(obj: Ptr<ImagePolicyConfig>)
    modifies obj
    ensures obj.val == ImagePolicyConfigDefaults(old(obj.val))
  {
    if obj.val.maxImagesBulkImportedPerRepository == 0 {
      obj.val := obj.val.(maxImagesBulkImportedPerRepository := 50);
    }
    if obj.val.maxScheduledImageImportsPerMinute == 0 {
      obj.val := obj.val.(maxScheduledImageImportsPerMinute := 60);
    }
    if obj.val.scheduledImageImportMinimumIntervalSeconds == 0 {
      obj.val := obj.val.(scheduledImageImportMinimumIntervalSeconds := 15 * 60);
    }
  }

  predicate ImagePolicyConfigSettled(c: ImagePolicyConfig) {
    c.maxImagesBulkImportedPerRepository != 0 && c.maxScheduledImageImportsPerMinute != 0
    && c.scheduledImageImportMinimumIntervalSeconds != 0
  }

  /** A zero limit is replaced, a negative one is kept (the source tests for
      zero only). */
  lemma ImagePolicyConfigDefaultsSpec(c: ImagePolicyConfig)
    ensures var r := ImagePolicyConfigDefaults(c);
      && Fills(c.maxImagesBulkImportedPerRepository, r.maxImagesBulkImportedPerRepository, 0)
      && Fills(c.maxScheduledImageImportsPerMinute, r.maxScheduledImageImportsPerMinute, 0)
      && Fills(c.scheduledImageImportMinimumIntervalSeconds, r.scheduledImageImportMinimumIntervalSeconds, 0)
      && ImagePolicyConfigSettled(r)
      && (ImagePolicyConfigSettled(c) <==> r == c)
      && ImagePolicyConfigDefaults(r) == r
  {
  }

  // ---------------------------------------------------------------------------
  // SetDefaults_SecurityAllocator (conversions.go:231-241).

  function SecurityAllocatorDefaults(c: SecurityAllocator): SecurityAllocator {
    SecurityAllocator(
      OrString(c.uidAllocatorRange, "1000000000-1999999999/10000"),
      OrString(c.mcsAllocatorRange, "s0:/2"),
      OrInt(c.mcsLabelsPerProject, 5))
  }

  method SetDefaultsSecurityAllocator(obj: Ptr<SecurityAllocator>)
    modifies obj
    ensures obj.val == SecurityAllocatorDefaults(old(obj.val))
  {
    if |obj.val.uidAllocatorRange| == 0 {
      obj.val := obj.val.(uidAllocatorRange := "1000000000-1999999999/10000");
    }
    if |obj.val.mcsAllocatorRange| == 0 {
      obj.val := obj.val.(mcsAllocatorRange := "s0:/2");
    }
    if obj.val.mcsLabelsPerProject == 0 {
      obj.val := obj.val.(mcsLabelsPerProject := 5);
    }
  }

  predicate SecurityAllocatorSettled(c: SecurityAllocator) {
    c.uidAllocatorRange != "" && c.mcsAllocatorRange != "" && c.mcsLabelsPerProject != 0
  }

  lemma SecurityAllocatorDefaultsSpec(c: SecurityAllocator)
    ensures var r := SecurityAllocatorDefaults(c);
      && Fills(c.uidAllocatorRange, r.uidAllocatorRange, "")
      && Fills(c.mcsAllocatorRange, r.mcsAllocatorRange, "")
      && Fills(c.mcsLabelsPerProject, r.mcsLabelsPerProject, 0)
      && SecurityAllocatorSettled(r)
      && (SecurityAllocatorSettled(c) <==> r == c)
      && SecurityAllocatorDefaults(r) == r
  {
  }

  // ---------------------------------------------------------------------------
  // SetDefaults_IdentityProvider and SetDefaults_GrantConfig (conversions.go:242-254).

  function IdentityProviderDefaults(p: IdentityProvider): IdentityProvider {
    p.(mappingMethod := OrString(p.mappingMethod, "claim"))
  }

  method SetDefaultsIdentityProvider(obj: Ptr<IdentityProvider>)
    modifies obj
    ensures obj.val == IdentityProviderDefaults(old(obj.val))
  {
    if |obj.val.mappingMethod| == 0 {
      obj.val := obj.val.(mappingMethod := "claim");
    }
  }

  /** An identity provider without a mapping method claims identities. */
  lemma IdentityProviderDefaultsSpec(p: IdentityProvider)
    ensures var r := IdentityProviderDefaults(p);
      && Fills(p.mappingMethod, r.mappingMethod, "")
      && (p.mappingMethod == "" ==> r.mappingMethod == "claim")
      && r.name == p.name
      && (p.mappingMethod != "" <==> r == p)
      && IdentityProviderDefaults(r) == r
  {
  }

  function GrantConfigDefaults(g: GrantConfig): GrantConfig {
    g.(serviceAccountMethod := OrString(g.serviceAccountMethod, "prompt"))
  }

  method SetDefaultsGrantConfig(obj: Ptr<GrantConfig>)
    modifies obj
    ensures obj.val == GrantConfigDefaults(old(obj.val))
  {
    if |obj.val.serviceAccountMethod| == 0 {
      obj.val := obj.val.(serviceAccountMethod := "prompt");
    }
  }

  /** A grant config without a service-account method prompts. */
  lemma GrantConfigDefaultsSpec(g: GrantConfig)
    ensures var r := GrantConfigDefaults(g);
      && Fills(g.serviceAccountMethod, r.serviceAccountMethod, "")
      && (g.serviceAccountMethod == "" ==> r.serviceAccountMethod == "prompt")
      && r.grantMethod == g.grantMethod
      && (g.serviceAccountMethod != "" <==> r == g)
      && GrantConfigDefaults(r) == r
  {
  }
}
