/** The clone path's specifications: `generate_clone_spec` (NIC rebound to
    the target port, cpu and memory, an optional second disk) and
    `ip_settings` (the guest customisation). */
module Clone {
  import opened Wrappers
  import opened Text
  import opened Resources
  import opened Devices

  /** The label the clone path looks for; the create path writes "Network Adapter 1". */
  const SourceNicLabel := "Network adapter 1"

  // ---------------------------------------------------------------------
  // Guest customisation

  datatype FixedIp = FixedIp(ipAddress: string)
  datatype IpSettings = IpSettings(ip: FixedIp, gateway: seq<string>, subnetMask: string, dnsDomain: string)
  datatype GlobalIpSettings = GlobalIpSettings(dnsServerList: seq<string>, dnsSuffixList: seq<string>)
  /** The identity: domain and fixed name (None is Ruby's nil). */
  datatype LinuxPrep = LinuxPrep(domain: string, fixedName: Option<string>)
  datatype AdapterMapping = AdapterMapping(adapter: IpSettings)
  datatype Customization = Customization(identity: LinuxPrep, globalIpSettings: GlobalIpSettings,
                                         nicSettingMap: seq<AdapterMapping>)

  /** The options ip_settings reads. */
  datatype Settings = Settings(ip: string, gateway: string, netmask: string, domain: string,
                               dns: string, hostname: string)

  function IpSettingsOf(s: Settings): Customization
  {
    var adapter := IpSettings(FixedIp(s.ip), [s.gateway], s.netmask, s.domain);
    Customization(LinuxPrep(s.domain, FirstField(s.hostname, '.')),
                  GlobalIpSettings(Fields(s.dns, ','), [s.domain]),
                  [AdapterMapping(adapter)])
  }

  // ---------------------------------------------------------------------
  // Clone specification

  /** The relocate spec's resource pool: the pool of the named cluster. */
  datatype Pool = PoolOf(cluster: string)

  datatype CloneConfig = CloneConfig(deviceChange: seq<SpecEntry>, numCPUs: nat, memoryMB: nat)

  datatype CloneSpec = CloneSpec(pool: Pool, template: bool, powerOn: bool, config: CloneConfig,
                                 customization: Option<Customization>)

  predicate IsOctalDigit(c: char) { '0' <= c <= '7' }

  predicate AllOctal(s: string) { forall i :: 0 <= i < |s| ==> IsOctalDigit(s[i]) }

  /** The value of a string of octal digits, most significant first. */
  function OctalValue(ds: string): nat
    requires AllOctal(ds)
    decreases |ds|
  {
    if ds == [] then 0
    else OctalValue(ds[..|ds| - 1]) * 8 + (ds[|ds| - 1] as int - '0' as int)
  }

  /** A text Integer() reads in base 10: a numeral without a leading zero, or "0". */
  predicate DecimalText(t: string) { t != [] && AllDigits(t) && (t[0] != '0' || |t| == 1) }

  /** A text Integer() reads in base 8: a zero followed by octal digits. */
  predicate OctalText(t: string) { |t| > 1 && t[0] == '0' && AllOctal(t[1..]) }

  /** `Integer(x)`: a number stays as it is; a text is read in base 10, or in
      base 8 when it starts with 0, and anything else raises. */
  function IntegerOf(c: Cpu): (r: Result<nat, Error>)
    ensures c.CpuCount? ==> r == Ok(c.count)
    ensures c.CpuText? ==> (r.Ok? <==> DecimalText(c.text) || OctalText(c.text))
    ensures c.CpuText? && DecimalText(c.text) ==> r == Ok(DigitsValue(c.text))
    ensures c.CpuText? && OctalText(c.text) ==> r == Ok(OctalValue(c.text[1..]))
    ensures c.CpuText? && r.Err? ==> r.error == NotAnInteger(c.text)
  {
    match c
    case CpuCount(n) => Ok(n)
    case CpuText(t) =>
      if DecimalText(t) then Ok(DigitsValue(t))
      else if OctalText(t) then Ok(OctalValue(t[1..]))
      else Err(NotAnInteger(t))
  }

  predicate IsScsi(d: VmDevice) { Contains(d.summary, "SCSI") }

  /** The controller key for the second disk: the key of the last source
      device whose summary mentions SCSI, 100 when none does. */
  function LastScsiKey(devs: seq<VmDevice>): int
    decreases |devs|
  {
    if devs == [] then ScsiKey
    else if IsScsi(devs[|devs| - 1]) then devs[|devs| - 1].key
    else LastScsiKey(devs[..|devs| - 1])
  }

  /** generate_clone_spec, without the customisation execute adds afterwards. */
  function CloneSpecOf(devs: seq<VmDevice>, cluster: string, cpus: Cpu, memory: nat, datastore: string,
                       portgroup: string, networks: map<string, Port>, sdbSize: Option<nat>)
    : Result<CloneSpec, Error>
  {
    match FindByLabel(devs, SourceNicLabel)
    case None => Err(NicNotFound(SourceNicLabel))    // card.backing on nil
    case Some(card) =>
      match SwitchPort(portgroup, networks)
      case Err(e) => Err(e)
      case Ok(port) =>
        match IntegerOf(cpus)
        case Err(e) => Err(e)
        case Ok(n) =>
          var disk := if sdbSize.Some? then [DiskConfig(datastore, LastScsiKey(devs), sdbSize.value, 1)] else [];
          Ok(CloneSpec(PoolOf(cluster), false, false,
                       CloneConfig([Edit(card.(port := Some(port)))] + disk, n, memory), None))
  }

  /** generate_clone_spec as the source runs it: the NIC edit pushed first,
      the controller key found by a scan that keeps the last SCSI device,
      and the second disk pushed after. */
  method GenerateCloneSpec(devs: seq<VmDevice>, cluster: string, cpus: Cpu, memory: nat, datastore: string,
                           portgroup: string, networks: map<string, Port>, sdbSize: Option<nat>)
    returns (r: Result<CloneSpec, Error>)
    ensures r == CloneSpecOf(devs, cluster, cpus, memory, datastore, portgroup, networks, sdbSize)
  {
    var deviceChange: seq<SpecEntry> := [];
    var card := FindByLabel(devs, SourceNicLabel);
    if card.None? {
      return Err(NicNotFound(SourceNicLabel));
    }
    var port := SwitchPort(portgroup, networks);
    if port.Err? {
      return Err(port.error);
    }
    var nicEdit := Edit(card.value.(port := Some(port.value)));
    deviceChange := deviceChange + [nicEdit];
    var numCpus := IntegerOf(cpus);
    if numCpus.Err? {
      return Err(numCpus.error);
    }
    var controllerKey := ScsiKey;
    if sdbSize.Some? {
      var i := 0;
      while i < |devs|
        invariant 0 <= i <= |devs|
        invariant controllerKey == LastScsiKey(devs[..i])
      {
        assert devs[..i + 1][..i] == devs[..i];
        if IsScsi(devs[i]) {
          controllerKey := devs[i].key;
        }
        i := i + 1;
      }
      assert devs[..|devs|] == devs;
      deviceChange := deviceChange + [DiskConfig(datastore, controllerKey, sdbSize.value, 1)];
    } else {
      assert deviceChange == [nicEdit] + [];
    }
    assert deviceChange == [nicEdit] + (if sdbSize.Some? then [DiskConfig(datastore, LastScsiKey(devs), sdbSize.value, 1)] else []);
    r := Ok(CloneSpec(PoolOf(cluster), false, false, CloneConfig(deviceChange, numCpus.value, memory), None));
  }

  // ---------------------------------------------------------------------
  // Properties

  /** The key chosen is that of the last SCSI device, or 100 when there is none. */
  lemma {:induction false} LastScsiKeyIsLast(devs: seq<VmDevice>)
    ensures (forall j :: 0 <= j < |devs| ==> !IsScsi(devs[j])) ==> LastScsiKey(devs) == 100
    ensures (exists j :: 0 <= j < |devs| && IsScsi(devs[j])) ==>
      exists i :: 0 <= i < |devs| && IsScsi(devs[i]) && devs[i].key == LastScsiKey(devs) &&
        forall j :: i < j < |devs| ==> !IsScsi(devs[j])
    decreases |devs|
  {
    if devs != [] {
      var n := |devs| - 1;
      var front := devs[..n];
      assert forall j :: 0 <= j < n ==> front[j] == devs[j];
      LastScsiKeyIsLast(front);
      if !IsScsi(devs[n]) && exists j :: 0 <= j < |devs| && IsScsi(devs[j]) {
        var j :| 0 <= j < |devs| && IsScsi(devs[j]);
        assert IsScsi(front[j]);
      }
    }
  }

  /** A successful clone spec: one edit of the first "Network adapter 1"
      device, changed only in its port; then an added unit-1 disk on the
      last SCSI controller exactly when a second disk was asked for; cpu and
      memory as integers; neither a template nor powered on. */
  lemma CloneSpecContents(devs: seq<VmDevice>, cluster: string, cpus: Cpu, memory: nat, datastore: string,
                          portgroup: string, networks: map<string, Port>, sdbSize: Option<nat>)
    requires CloneSpecOf(devs, cluster, cpus, memory, datastore, portgroup, networks, sdbSize).Ok?
    ensures var spec := CloneSpecOf(devs, cluster, cpus, memory, datastore, portgroup, networks, sdbSize).value;
      var dc := spec.config.deviceChange;
      |dc| == (if sdbSize.Some? then 2 else 1) &&
      dc[0].Edit? && dc[0].existing.deviceLabel == "Network adapter 1" &&
      dc[0].existing.port == Some(networks[portgroup]) &&
      (exists i :: 0 <= i < |devs| && devs[i].(port := Some(networks[portgroup])) == dc[0].existing &&
                   forall j :: 0 <= j < i ==> devs[j].deviceLabel != "Network adapter 1") &&
      (forall k :: 1 <= k < |dc| ==> !dc[k].Edit?) &&
      (sdbSize.Some? ==>
        dc[1] == Add(VirtualDisk(1, "[" + datastore + "]", Persistent, false, LastScsiKey(devs), 1, sdbSize.value), true)) &&
      Ok(spec.config.numCPUs) == IntegerOf(cpus) && spec.config.memoryMB == memory &&
      !spec.template && !spec.powerOn && spec.pool == PoolOf(cluster) && spec.customization.None?
  {
    var card := FindByLabel(devs, SourceNicLabel).value;
    var i :| 0 <= i < |devs| && devs[i] == card && forall j :: 0 <= j < i ==> devs[j].deviceLabel != SourceNicLabel;
    assert devs[i].(port := Some(networks[portgroup])) == card.(port := Some(networks[portgroup]));
  }

  /** The clone spec fails exactly when the source has no "Network adapter 1",
      the portgroup is unknown, or the cpu count is not an integer, checked
      in that order. */
  lemma CloneSpecFailures(devs: seq<VmDevice>, cluster: string, cpus: Cpu, memory: nat, datastore: string,
                          portgroup: string, networks: map<string, Port>, sdbSize: Option<nat>)
    ensures var r := CloneSpecOf(devs, cluster, cpus, memory, datastore, portgroup, networks, sdbSize);
      r.Err? <==> (forall j :: 0 <= j < |devs| ==> devs[j].deviceLabel != SourceNicLabel) ||
                  portgroup !in networks || IntegerOf(cpus).Err?
    ensures (forall j :: 0 <= j < |devs| ==> devs[j].deviceLabel != SourceNicLabel) ==>
      CloneSpecOf(devs, cluster, cpus, memory, datastore, portgroup, networks, sdbSize) == Err(NicNotFound(SourceNicLabel))
  {
  }

  /** A device labelled "Network Adapter 1", as the create path labels its
      NIC, is not what the clone path's lookup for "Network adapter 1" finds:
      a source whose only candidate carries that label cannot be cloned. */
  lemma CreateLabelUnseenByClone(devs: seq<VmDevice>, cluster: string, cpus: Cpu, memory: nat, datastore: string,
                                 portgroup: string, networks: map<string, Port>, sdbSize: Option<nat>)
    requires forall j :: 0 <= j < |devs| ==>
      devs[j].deviceLabel == CreateNicLabel || !StartsWith(devs[j].deviceLabel, "Network ")
    ensures FindByLabel(devs, SourceNicLabel).None?
    ensures CloneSpecOf(devs, cluster, cpus, memory, datastore, portgroup, networks, sdbSize)
      == Err(NicNotFound("Network adapter 1"))
  {
    NicLabels();
  }

  lemma NicLabels()
    ensures CreateNicLabel != SourceNicLabel && StartsWith(SourceNicLabel, "Network ")
  {
    assert CreateNicLabel[8] != SourceNicLabel[8];
    assert SourceNicLabel[..8] == "Network ";
  }

  /** A decimal numeral reads back through Integer() as its number. */
  lemma IntegerReadsDecimal(n: nat)
    ensures IntegerOf(CpuText(Decimal(n))) == Ok(n)
  {
    DecimalValue(n);
    DecimalLeadingDigit(n);
  }

  lemma {:induction false} DecimalLeadingDigit(n: nat)
    ensures n > 0 ==> Decimal(n)[0] != '0'
    decreases n
  {
    if n >= 10 {
      DecimalLeadingDigit(n / 10);
      assert Decimal(n)[0] == Decimal(n / 10)[0];
    }
  }

  /** A leading zero makes Integer() read octal: 010 is 8, and 08 raises. */
  lemma OctalReading()
    ensures IntegerOf(CpuText("010")) == Ok(8)
    ensures IntegerOf(CpuText("08")) == Err(NotAnInteger("08"))
    ensures IntegerOf(CpuText("0")) == Ok(0)
  {
    assert OctalText("010") && !DecimalText("010");
    assert "010"[1..] == "10" && "10"[..1] == "1" && "1"[..0] == [];
    assert OctalValue("1") == 1;
    assert OctalValue("10") == 8;
    assert !OctalText("08") by { assert !IsOctalDigit("08"[1..][0]); }
    assert DecimalText("0");
  }

  /** The customisation: the fixed name is the hostname before its first dot
      (nil only for a hostname of dots), the DNS servers are the comma fields
      of dns and give dns back when joined, the suffix list is the domain,
      and there is one adapter mapping with the gateway and netmask. */
  lemma CustomizationContents(s: Settings)
    ensures var c := IpSettingsOf(s);
      (c.identity.fixedName.None? <==> forall j :: 0 <= j < |s.hostname| ==> s.hostname[j] == '.') &&
      (c.identity.fixedName.Some? ==>
        var h := c.identity.fixedName.value;
        '.' !in h && |h| <= |s.hostname| && s.hostname[..|h|] == h && (|h| == |s.hostname| || s.hostname[|h|] == '.')) &&
      c.identity.domain == s.domain &&
      (forall k :: 0 <= k < |c.globalIpSettings.dnsServerList| ==> ',' !in c.globalIpSettings.dnsServerList[k]) &&
      (s.dns == [] || s.dns[|s.dns| - 1] != ',' ==> Join(c.globalIpSettings.dnsServerList, ',') == s.dns) &&
      c.globalIpSettings.dnsSuffixList == [s.domain] &&
      c.nicSettingMap == [AdapterMapping(IpSettings(FixedIp(s.ip), [s.gateway], s.netmask, s.domain))]
  {
    FirstFieldIsPrefix(s.hostname, '.');
    if s.dns == [] || s.dns[|s.dns| - 1] != ',' {
      JoinFields(s.dns, ',');
    }
    var all := SplitAll(s.dns, ',');
    var fs := Fields(s.dns, ',');
    assert forall k :: 0 <= k < |fs| ==> fs[k] == all[k];
  }

  /** db2.example.com gets the fixed name db2. */
  lemma ShortNameExample(ip: string, gateway: string, netmask: string, dns: string)
    ensures IpSettingsOf(Settings(ip, gateway, netmask, "example.com", dns, "db2.example.com")).identity
      == LinuxPrep("example.com", Some("db2"))
  {
    assert "db2.example.com" == "db2" + ['.'] + "example.com";
    FirstFieldOf("db2", '.', "example.com");
  }
}
