/** The master and node configuration structs of the v1 config API
    (pkg/cmd/server/apis/config/v1), and of the internal version where a
    conversion targets it, carrying only the fields that the defaulting
    functions and the hand-written conversions of
    pkg/cmd/server/apis/config/v1/conversions.go read or write. The struct
    declarations themselves (types.go of both packages) are not part of this
    model. A Go `*T` field is an `Option<T>`, a `[]T` a `seq<T>`, a
    `map[K]V` a `map<K, V>`; Go's "empty" is `""`, `[]`, `0` or `None`. */
module ConfigTypes {
  import opened Wrappers

  /** A Go pointer `*T` that a function receives and writes through: the
      caller sees every assignment made to `val`. */
  class Ptr<T> {
    var val: T

    constructor (v: T)
      ensures val == v
    {
      val := v;
    }
  }

  /** The constants and the one helper that conversions.go takes from the
      internal and v1 packages (those packages are not part of this model):
      their values are parameters of every operation that reads them. */
  datatype Constants = Constants(
    openShiftAPILevels: seq<string>,        // internal.DefaultOpenShiftAPILevels
    kubernetesAPILevels: seq<string>,       // internal.DefaultKubernetesAPILevels
    ingressIPNetworkCIDR: string,           // internal.DefaultIngressIPNetworkCIDR
    openShiftStorageVersion: string,        // internal.DefaultOpenShiftStorageVersionLevel
    controllersAll: string,                 // v1.ControllersAll
    controllersDisabled: string,            // v1.ControllersDisabled
    dockerExecHandlerNative: string,        // v1.DockerExecHandlerNative
    cidrsOverlap: (string, string) -> bool, // internal.CIDRsOverlap
    apiGroupKube: string,                   // internal.APIGroupKube
    kubeAPIGroupsToAllowedVersions: map<string, seq<string>>) // internal.KubeAPIGroupsToAllowedVersions

  /** A field that defaulting may fill: afterwards it is either what it was,
      or it was the empty value `zero` before. */
  predicate Fills<T(==)>(before: T, after: T, zero: T) {
    after == before || before == zero
  }

  // ---------------------------------------------------------------------------
  // Client connections.

  /** ClientConnectionOverrides; `qps` is a Go float32. */
  datatype ClientConnectionOverrides = ClientConnectionOverrides(
    acceptContentTypes: string, contentType: string, qps: real, burst: int)

  const EmptyOverrides: ClientConnectionOverrides := ClientConnectionOverrides("", "", 0.0, 0)

  // ---------------------------------------------------------------------------
  // Serving.

  /** CertInfo: the pair of files that make up a certificate. */
  datatype CertInfo = CertInfo(certFile: string, keyFile: string)

  /** v1 ServingInfo; its CertInfo is inlined, so the v1 struct carries
      `certFile` and `keyFile` directly. */
  datatype ServingInfo = ServingInfo(
    bindAddress: string, bindNetwork: string, certFile: string, keyFile: string, clientCA: string)

  /** HTTPServingInfo: a ServingInfo plus the two HTTP limits. */
  datatype HTTPServingInfo = HTTPServingInfo(
    servingInfo: ServingInfo, maxRequestsInFlight: int, requestTimeoutSeconds: int)

  // ---------------------------------------------------------------------------
  // The master.

  datatype GroupResource = GroupResource(group: string, resource: string)

  /** ControllerElectionConfig. */
  datatype ControllerElectionConfig = ControllerElectionConfig(
    lockName: string, lockNamespace: string, lockResource: GroupResource)

  /** ControllerConfig: `election` is a pointer. */
  datatype ControllerConfig = ControllerConfig(
    election: Option<ControllerElectionConfig>, controllers: seq<string>)

  datatype RoutingConfig = RoutingConfig(subdomain: string)

  /** JenkinsPipelineConfig: `autoProvisionEnabled` is a `*bool`. */
  datatype JenkinsPipelineConfig = JenkinsPipelineConfig(
    autoProvisionEnabled: Option<bool>, templateNamespace: string, templateName: string, serviceName: string)

  /** MasterClients: the loopback overrides are a pointer. */
  datatype MasterClients = MasterClients(
    openShiftLoopbackClientConnectionOverrides: Option<ClientConnectionOverrides>)

  datatype ClusterNetworkEntry = ClusterNetworkEntry(cidr: string, hostSubnetLength: int)

  /** v1 MasterNetworkConfig, with the two deprecated single-network fields. */
  datatype MasterNetworkConfig = MasterNetworkConfig(
    networkPluginName: string,
    deprecatedClusterNetworkCIDR: string,
    clusterNetworks: seq<ClusterNetworkEntry>,
    deprecatedHostSubnetLength: int,
    serviceNetworkCIDR: string,
    ingressIPNetworkCIDR: string,
    vxlanPort: int)

  /** v1 KubernetesMasterConfig. */
  datatype KubernetesMasterConfig = KubernetesMasterConfig(
    apiLevels: seq<string>,
    disabledAPIGroupVersions: map<string, seq<string>>,
    masterEndpointReconcileTTL: int,
    servicesSubnet: string,
    servicesNodePortRange: string,
    podEvictionTimeout: string,
    controllerArguments: map<string, seq<string>>)

  /** OAuthConfig: `masterCA` is a `*string`. */
  datatype OAuthConfig = OAuthConfig(masterURL: string, masterCA: Option<string>)

  /** AdmissionPluginConfig; the nested configuration object stays opaque. */
  datatype AdmissionPluginConfig = AdmissionPluginConfig(location: string, configuration: string)

  const EmptyPluginConfig: AdmissionPluginConfig := AdmissionPluginConfig("", "")

  /** AdmissionConfig: plugin configs are held by pointer. */
  datatype AdmissionConfig = AdmissionConfig(pluginConfig: map<string, Option<AdmissionPluginConfig>>)

  datatype WebhookTokenAuthenticator = WebhookTokenAuthenticator(configFile: string, cacheTTL: string)

  datatype MasterAuthConfig = MasterAuthConfig(webhookTokenAuthenticators: seq<WebhookTokenAuthenticator>)

  /** MasterConfig: `oauthConfig` is a pointer, `controllers` the legacy
      single-string controllers switch. */
  datatype MasterConfig = MasterConfig(
    servingInfo: HTTPServingInfo,
    apiLevels: seq<string>,
    controllers: string,
    controllerConfig: ControllerConfig,
    routingConfig: RoutingConfig,
    jenkinsPipelineConfig: JenkinsPipelineConfig,
    masterClients: MasterClients,
    networkConfig: MasterNetworkConfig,
    kubernetesMasterConfig: KubernetesMasterConfig,
    oauthConfig: Option<OAuthConfig>,
    admissionConfig: AdmissionConfig,
    authConfig: MasterAuthConfig)

  // ---------------------------------------------------------------------------
  // The node.

  datatype NodeNetworkConfig = NodeNetworkConfig(networkPluginName: string, mtu: int)

  datatype NodeAuthConfig = NodeAuthConfig(
    authenticationCacheTTL: string, authenticationCacheSize: int,
    authorizationCacheTTL: string, authorizationCacheSize: int)

  /** NodeConfig: the master overrides and `enableUnidling` are pointers. */
  datatype NodeConfig = NodeConfig(
    masterClientConnectionOverrides: Option<ClientConnectionOverrides>,
    networkConfig: NodeNetworkConfig,
    deprecatedNetworkPluginName: string,
    iptablesSyncPeriod: string,
    authConfig: NodeAuthConfig,
    enableUnidling: Option<bool>)

  // ---------------------------------------------------------------------------
  // The smaller stanzas.

  datatype EtcdStorageConfig = EtcdStorageConfig(
    kubernetesStorageVersion: string, kubernetesStoragePrefix: string,
    openShiftStorageVersion: string, openShiftStoragePrefix: string)

  datatype DockerConfig = DockerConfig(
    execHandlerName: string, dockerShimSocket: string, dockershimRootDirectory: string)

  datatype ImagePolicyConfig = ImagePolicyConfig(
    maxImagesBulkImportedPerRepository: int,
    maxScheduledImageImportsPerMinute: int,
    scheduledImageImportMinimumIntervalSeconds: int)

  datatype DNSConfig = DNSConfig(bindAddress: string, bindNetwork: string)

  datatype SecurityAllocator = SecurityAllocator(
    uidAllocatorRange: string, mcsAllocatorRange: string, mcsLabelsPerProject: int)

  datatype IdentityProvider = IdentityProvider(name: string, mappingMethod: string)

  datatype GrantConfig = GrantConfig(grantMethod: string, serviceAccountMethod: string)

  // ---------------------------------------------------------------------------
  // Internal-version structs that the hand-written conversions write.

  /** The outcome of a conversion step: the `out` object it produced, or the
      error it returned. Both reflection-driven `DefaultConvert` and the
      closures built on it produce one. */
  datatype Conversion<T> = Converted(out: T) | Failed(err: string)

  /** internal.KubernetesMasterConfig: the disabled versions, by API group. */
  datatype InternalKubernetesMasterConfig =
    InternalKubernetesMasterConfig(disabledAPIGroupVersions: map<string, seq<string>>)

  /** internal.ServingInfo: the certificate is a named `serverCert` field. */
  datatype InternalServingInfo = InternalServingInfo(
    bindAddress: string, bindNetwork: string, serverCert: CertInfo, clientCA: string)

  /** The three connection-info structs: v1 inlines the client certificate's
      two files, the internal version holds them as `clientCert`. */
  datatype RemoteConnectionInfo = RemoteConnectionInfo(url: string, ca: string, certFile: string, keyFile: string)
  datatype InternalRemoteConnectionInfo = InternalRemoteConnectionInfo(url: string, ca: string, clientCert: CertInfo)

  datatype EtcdConnectionInfo = EtcdConnectionInfo(urls: seq<string>, ca: string, certFile: string, keyFile: string)
  datatype InternalEtcdConnectionInfo = InternalEtcdConnectionInfo(urls: seq<string>, ca: string, clientCert: CertInfo)

  datatype KubeletConnectionInfo = KubeletConnectionInfo(port: int, ca: string, certFile: string, keyFile: string)
  datatype InternalKubeletConnectionInfo = InternalKubeletConnectionInfo(port: int, ca: string, clientCert: CertInfo)

  /** MasterVolumeConfig: v1 holds a `*bool`, internal a `bool`. */
  datatype MasterVolumeConfig = MasterVolumeConfig(dynamicProvisioningEnabled: Option<bool>)
  datatype InternalMasterVolumeConfig = InternalMasterVolumeConfig(dynamicProvisioningEnabled: bool)

  /** internal.MasterNetworkConfig: no deprecated single-network fields. */
  datatype InternalMasterNetworkConfig = InternalMasterNetworkConfig(
    networkPluginName: string, clusterNetworks: seq<ClusterNetworkEntry>,
    serviceNetworkCIDR: string, ingressIPNetworkCIDR: string, vxlanPort: int)

  /** AuditConfig: the v1 `auditFilePath`, and the internal version's
      `internalAuditFilePath` that it migrates into. */
  datatype AuditConfig = AuditConfig(enabled: bool, auditFilePath: string)
  datatype InternalAuditConfig = InternalAuditConfig(enabled: bool, auditFilePath: string, internalAuditFilePath: string)
}
