/** The hand-written conversion functions registered by `addConversionFuncs`
    (pkg/cmd/server/apis/config/v1/conversions.go:256-408). Each Go closure
    fills an `out` object from an `in` object. Where it first calls
    `DefaultConvert`, the outcome of that reflective copy is a parameter
    (`converted`: the `out` it produced, or its error) and the model states
    what the closure then changes. */
module ConfigConversions {
  import opened Wrappers
  import opened ConfigTypes

  // ---------------------------------------------------------------------------
  // KubernetesMasterConfig, v1 to internal (conversions.go:267-297): the
  // whitelist of API levels becomes a blacklist of disabled versions.

  /** The available levels that the whitelist leaves out, in available order. */
  function Blacklist(available: seq<string>, whitelist: set<string>): seq<string> {
    if available == [] then []
    else
      var last := available[|available| - 1];
      Blacklist(available[..|available| - 1], whitelist) + if last in whitelist then [] else [last]
  }

  /** A level is blacklisted exactly when it is available and not whitelisted. */
  lemma {:induction false} BlacklistMembers(available: seq<string>, whitelist: set<string>, level: string)
    ensures level in Blacklist(available, whitelist) <==> level in available && level !in whitelist
  {
    if available != [] {
      var n := |available| - 1;
      BlacklistMembers(available[..n], whitelist, level);
      assert available == available[..n] + [available[n]];
    }
  }

  /** Nothing is blacklisted exactly when every available level is whitelisted. */
  lemma {:induction false} BlacklistEmpty(available: seq<string>, whitelist: set<string>)
    ensures Blacklist(available, whitelist) == [] <==> forall v :: v in available ==> v in whitelist
  {
    forall v | v in available && Blacklist(available, whitelist) == []
      ensures v in whitelist
    {
      BlacklistMembers(available, whitelist, v);
    }
    if available != [] {
      var n := |available| - 1;
      BlacklistEmpty(available[..n], whitelist);
      assert available[n] in available;
      assert forall v :: v in available[..n] ==> v in available;
    }
  }

  /** The blacklist keeps the order of the available levels: it distributes
      over concatenation. */
  lemma {:induction false} BlacklistConcat(a: seq<string>, b: seq<string>, whitelist: set<string>)
    ensures Blacklist(a + b, whitelist) == Blacklist(a, whitelist) + Blacklist(b, whitelist)
    decreases |b|
  {
    if b != [] {
      var n := |b| - 1;
      BlacklistConcat(a, b[..n], whitelist);
      assert (a + b)[..|a + b| - 1] == a + b[..n];
    } else {
      assert a + b == a;
    }
  }

  /** The loop that collects the blacklist (conversions.go:283-289). */
  method BlacklistedLevels(availableLevels: seq<string>, whitelistedLevels: set<string>)
    returns (blacklistedLevels: seq<string>)
    ensures blacklistedLevels == Blacklist(availableLevels, whitelistedLevels)
  {
    blacklistedLevels := [];
    for i := 0 to |availableLevels|
      invariant blacklistedLevels == Blacklist(availableLevels[..i], whitelistedLevels)
    {
      assert availableLevels[..i + 1][..i] == availableLevels[..i];
      if availableLevels[i] !in whitelistedLevels {
        blacklistedLevels := blacklistedLevels + [availableLevels[i]];
      }
    }
    assert availableLevels[..|availableLevels|] == availableLevels;
  }

  /** The kube group's allowed versions; a missing key reads as nil. */
  function KubeAvailableLevels(k: Constants): seq<string> {
    if k.apiGroupKube in k.kubeAPIGroupsToAllowedVersions then k.kubeAPIGroupsToAllowedVersions[k.apiGroupKube] else []
  }

  /** The disabled versions after the closure: no levels disable "*" for
      the kube group; otherwise a non-empty blacklist replaces the kube
      group's entry, and an empty one leaves the map as it was. */
  function DisabledVersions(apiLevels: seq<string>, disabled: map<string, seq<string>>, k: Constants)
    : map<string, seq<string>>
  {
    if |apiLevels| == 0 then disabled[k.apiGroupKube := ["*"]]
    else
      var blacklisted := Blacklist(KubeAvailableLevels(k), set level | level in apiLevels);
      if |blacklisted| > 0 then disabled[k.apiGroupKube := blacklisted] else disabled
  }

  method ConvertKubernetesMasterConfig(inp: KubernetesMasterConfig, converted: Conversion<InternalKubernetesMasterConfig>,
                                       k: Constants)
    returns (r: Conversion<InternalKubernetesMasterConfig>)
    ensures converted.Failed? ==> r == converted
    ensures converted.Converted? ==>
      r == Converted(InternalKubernetesMasterConfig(
        DisabledVersions(inp.apiLevels, converted.out.disabledAPIGroupVersions, k)))
  {
    if converted.Failed? {
      return converted;
    }
    var disabled := converted.out.disabledAPIGroupVersions;
    if |inp.apiLevels| == 0 {
      disabled := disabled[k.apiGroupKube := ["*"]];
    } else {
      var availableLevels := KubeAvailableLevels(k);
      var whitelistedLevels := set level | level in inp.apiLevels;
      var blacklistedLevels := BlacklistedLevels(availableLevels, whitelistedLevels);
      if |blacklistedLevels| > 0 {
        disabled := disabled[k.apiGroupKube := blacklistedLevels];
      }
    }
    r := Converted(InternalKubernetesMasterConfig(disabled));
  }

  /** What the disabled map says (conversions.go:272-294). Other groups keep
      their entries. With no levels the kube group is wholly disabled.
      Otherwise the kube group has an entry exactly when it had one or some
      available version is not whitelisted; in the latter case the entry
      lists exactly those versions. */
  lemma DisabledVersionsRule(apiLevels: seq<string>, disabled: map<string, seq<string>>, k: Constants)
    ensures var r := DisabledVersions(apiLevels, disabled, k);
      var available := KubeAvailableLevels(k);
      && (forall g :: g != k.apiGroupKube ==> (g in r <==> g in disabled))
      && (forall g :: g != k.apiGroupKube && g in disabled ==> r[g] == disabled[g])
      && (apiLevels == [] ==> k.apiGroupKube in r && r[k.apiGroupKube] == ["*"])
      && (apiLevels != [] ==>
            (k.apiGroupKube in r <==>
               k.apiGroupKube in disabled || exists v :: v in available && v !in apiLevels))
      && ((apiLevels != [] && exists v :: v in available && v !in apiLevels) ==>
            k.apiGroupKube in r &&
            forall v :: v in r[k.apiGroupKube] <==> v in available && v !in apiLevels)
      && ((apiLevels != [] && forall v :: v in available ==> v in apiLevels) ==> r == disabled)
  {
    if apiLevels != [] {
      var available := KubeAvailableLevels(k);
      var whitelist := set level | level in apiLevels;
      var blacklisted := Blacklist(available, whitelist);
      forall v
        ensures v in blacklisted <==> v in available && v !in apiLevels
      {
        BlacklistMembers(available, whitelist, v);
      }
      BlacklistEmpty(available, whitelist);
    }
  }

  // ---------------------------------------------------------------------------
  // ServingInfo (conversions.go:302-317): after DefaultConvert, the closure
  // moves the inlined certificate files into or out of `serverCert`.

  function ServingInfoToInternal(inp: ServingInfo, converted: Conversion<InternalServingInfo>)
    : Conversion<InternalServingInfo>
  {
    if converted.Failed? then converted
    else Converted(converted.out.(serverCert := CertInfo(inp.certFile, inp.keyFile)))
  }

  function ServingInfoFromInternal(inp: InternalServingInfo, converted: Conversion<ServingInfo>)
    : Conversion<ServingInfo>
  {
    if converted.Failed? then converted
    else Converted(converted.out.(certFile := inp.serverCert.certFile, keyFile := inp.serverCert.keyFile))
  }

  /** The closures fail exactly when DefaultConvert does, change only the
      certificate, and carry it both ways: whatever DefaultConvert does with
      the other fields, v1 to internal to v1 keeps the certificate files,
      and so does internal to v1 to internal. */
  lemma ServingInfoCertRoundTrip(s: ServingInfo, i: InternalServingInfo,
                                 toInternal: Conversion<InternalServingInfo>, toV1: Conversion<ServingInfo>)
    ensures ServingInfoToInternal(s, toInternal).Failed? <==> toInternal.Failed?
    ensures ServingInfoFromInternal(i, toV1).Failed? <==> toV1.Failed?
    ensures toInternal.Converted? ==>
      ServingInfoToInternal(s, toInternal).out.(serverCert := toInternal.out.serverCert) == toInternal.out
    ensures toV1.Converted? ==>
      ServingInfoFromInternal(i, toV1).out.(certFile := toV1.out.certFile, keyFile := toV1.out.keyFile) == toV1.out
    ensures toInternal.Converted? && toV1.Converted? ==>
      var back := ServingInfoFromInternal(ServingInfoToInternal(s, toInternal).out, toV1).out;
      back.certFile == s.certFile && back.keyFile == s.keyFile
    ensures toV1.Converted? && toInternal.Converted? ==>
      ServingInfoToInternal(ServingInfoFromInternal(i, toV1).out, toInternal).out.serverCert == i.serverCert
  {
  }

  // ---------------------------------------------------------------------------
  // Remote, etcd and kubelet connection info (conversions.go:318-359): every
  // field of `out` is assigned, so each direction is a function of `in`.

  function RemoteConnectionInfoToInternal(inp: RemoteConnectionInfo): InternalRemoteConnectionInfo {
    InternalRemoteConnectionInfo(inp.url, inp.ca, CertInfo(inp.certFile, inp.keyFile))
  }

  function RemoteConnectionInfoFromInternal(inp: InternalRemoteConnectionInfo): RemoteConnectionInfo {
    RemoteConnectionInfo(inp.url, inp.ca, inp.clientCert.certFile, inp.clientCert.keyFile)
  }

  /** The two remote-connection conversions are mutual inverses. */
  lemma RemoteConnectionInfoRoundTrip(v: RemoteConnectionInfo, i: InternalRemoteConnectionInfo)
    ensures RemoteConnectionInfoFromInternal(RemoteConnectionInfoToInternal(v)) == v
    ensures RemoteConnectionInfoToInternal(RemoteConnectionInfoFromInternal(i)) == i
  {
  }

  function EtcdConnectionInfoToInternal(inp: EtcdConnectionInfo): InternalEtcdConnectionInfo {
    InternalEtcdConnectionInfo(inp.urls, inp.ca, CertInfo(inp.certFile, inp.keyFile))
  }

  function EtcdConnectionInfoFromInternal(inp: InternalEtcdConnectionInfo): EtcdConnectionInfo {
    EtcdConnectionInfo(inp.urls, inp.ca, inp.clientCert.certFile, inp.clientCert.keyFile)
  }

  /** The two etcd-connection conversions are mutual inverses. */
  lemma EtcdConnectionInfoRoundTrip(v: EtcdConnectionInfo, i: InternalEtcdConnectionInfo)
    ensures EtcdConnectionInfoFromInternal(EtcdConnectionInfoToInternal(v)) == v
    ensures EtcdConnectionInfoToInternal(EtcdConnectionInfoFromInternal(i)) == i
  {
  }

  function KubeletConnectionInfoToInternal(inp: KubeletConnectionInfo): InternalKubeletConnectionInfo {
    InternalKubeletConnectionInfo(inp.port, inp.ca, CertInfo(inp.certFile, inp.keyFile))
  }

  function KubeletConnectionInfoFromInternal(inp: InternalKubeletConnectionInfo): KubeletConnectionInfo {
    KubeletConnectionInfo(inp.port, inp.ca, inp.clientCert.certFile, inp.clientCert.keyFile)
  }

  /** The two kubelet-connection conversions are mutual inverses. */
  lemma KubeletConnectionInfoRoundTrip(v: KubeletConnectionInfo, i: InternalKubeletConnectionInfo)
    ensures KubeletConnectionInfoFromInternal(KubeletConnectionInfoToInternal(v)) == v
    ensures KubeletConnectionInfoToInternal(KubeletConnectionInfoFromInternal(i)) == i
  {
  }

  // ---------------------------------------------------------------------------
  // MasterVolumeConfig (conversions.go:360-368).

  /** A nil pointer means enabled. */
  function MasterVolumeConfigToInternal(inp: MasterVolumeConfig): InternalMasterVolumeConfig {
    InternalMasterVolumeConfig(inp.dynamicProvisioningEnabled.None? || inp.dynamicProvisioningEnabled.value)
  }

  function MasterVolumeConfigFromInternal(inp: InternalMasterVolumeConfig): MasterVolumeConfig {
    MasterVolumeConfig(Some(inp.dynamicProvisioningEnabled))
  }

  /** Provisioning is disabled exactly by an explicit false. Internal to v1
      to internal is the identity; v1 to internal to v1 is the identity
      exactly when the pointer was set, and turns nil into true. */
  lemma MasterVolumeConfigRoundTrip(v: MasterVolumeConfig, i: InternalMasterVolumeConfig)
    ensures !MasterVolumeConfigToInternal(v).dynamicProvisioningEnabled <==> v.dynamicProvisioningEnabled == Some(false)
    ensures MasterVolumeConfigToInternal(MasterVolumeConfigFromInternal(i)) == i
    ensures MasterVolumeConfigFromInternal(MasterVolumeConfigToInternal(v)) == v <==> v.dynamicProvisioningEnabled.Some?
    ensures v.dynamicProvisioningEnabled.None? ==>
      MasterVolumeConfigFromInternal(MasterVolumeConfigToInternal(v)) == MasterVolumeConfig(Some(true))
  {
  }

  // ---------------------------------------------------------------------------
  // MasterNetworkConfig, v1 to internal (conversions.go:369-387).

  /** The port VXLAN uses when none is configured. */
  const DefaultVXLANPort: int := 4789

  function MasterNetworkConfigToInternal(inp: MasterNetworkConfig, converted: Conversion<InternalMasterNetworkConfig>)
    : Conversion<InternalMasterNetworkConfig>
  {
    if converted.Failed? then converted
    else
      var out := converted.out;
      Converted(out.(
        clusterNetworks :=
          if |out.clusterNetworks| == 0
          then [ClusterNetworkEntry(inp.deprecatedClusterNetworkCIDR, inp.deprecatedHostSubnetLength)]
          else out.clusterNetworks,
        vxlanPort := if out.vxlanPort == 0 then DefaultVXLANPort else out.vxlanPort))
  }

  /** After the fallbacks there is always a cluster network and a port: the
      converted list is kept when non-empty, otherwise it is the single
      entry built from the deprecated fields; a set port is kept. Nothing
      else of DefaultConvert's output changes, and applying the fallbacks to
      their own output changes nothing. */
  lemma MasterNetworkFallbacks(inp: MasterNetworkConfig, converted: Conversion<InternalMasterNetworkConfig>)
    ensures var r := MasterNetworkConfigToInternal(inp, converted);
      && (converted.Failed? <==> r.Failed?)
      && (converted.Failed? ==> r == converted)
      && (r.Converted? ==>
            && |r.out.clusterNetworks| > 0
            && r.out.vxlanPort != 0
            && Fills(converted.out.clusterNetworks, r.out.clusterNetworks, [])
            && Fills(converted.out.vxlanPort, r.out.vxlanPort, 0)
            && (converted.out.clusterNetworks == [] ==>
                  r.out.clusterNetworks ==
                    [ClusterNetworkEntry(inp.deprecatedClusterNetworkCIDR, inp.deprecatedHostSubnetLength)])
            && r.out.(clusterNetworks := converted.out.clusterNetworks, vxlanPort := converted.out.vxlanPort)
                 == converted.out
            && MasterNetworkConfigToInternal(inp, r) == r)
  {
  }

  // ---------------------------------------------------------------------------
  // AuditConfig (conversions.go:388-402).

  /** v1 to internal: a set audit file path also becomes the internal one. */
  function AuditConfigToInternal(inp: AuditConfig, converted: Conversion<InternalAuditConfig>)
    : Conversion<InternalAuditConfig>
  {
    if converted.Failed? then converted
    else if |inp.auditFilePath| > 0 then Converted(converted.out.(internalAuditFilePath := inp.auditFilePath))
    else converted
  }

  /** internal to v1: DefaultConvert alone. */
  function AuditConfigFromInternal(inp: InternalAuditConfig, converted: Conversion<AuditConfig>)
    : Conversion<AuditConfig>
  {
    converted
  }

  /** The internal file path is the v1 one whenever that is set, and
      whatever DefaultConvert produced otherwise; nothing else changes, and
      the reverse direction adds nothing to DefaultConvert. */
  lemma AuditFilePathRule(inp: AuditConfig, i: InternalAuditConfig,
                          converted: Conversion<InternalAuditConfig>, toV1: Conversion<AuditConfig>)
    ensures var r := AuditConfigToInternal(inp, converted);
      && (converted.Failed? <==> r.Failed?)
      && (converted.Failed? ==> r == converted)
      && (r.Converted? && inp.auditFilePath != "" ==> r.out.internalAuditFilePath == inp.auditFilePath)
      && (r.Converted? && inp.auditFilePath == "" ==> r.out == converted.out)
      && (r.Converted? ==> r.out.(internalAuditFilePath := converted.out.internalAuditFilePath) == converted.out)
    ensures AuditConfigFromInternal(i, toV1) == toV1
  {
  }
}
