/** `execute`: the sequence of remote operations a run issues, as a pure
    function of the validated options and of what the vSphere platform
    answers. Lookups that only read the platform leave no event; every call
    that changes something, and every wait for a task, is one event. */
module Orchestrator {
  import opened Wrappers
  import opened Text
  import opened Resources
  import opened Datastores
  import opened Devices
  import opened Clone
  import opened Affinity

  // ---------------------------------------------------------------------
  // What the platform holds and answers

  datatype SourceVm = SourceVm(devices: seq<VmDevice>, datastores: seq<string>)

  datatype Datacenter = Datacenter(clusters: seq<string>, datastores: seq<Datastore>,
                                   networks: map<string, Port>, vms: map<string, SourceVm>)

  /** The platform for one run: its datacenters, the devices of the new VM
      as read after creation and again after the grace period, the
      question the VM has pending, and the steps whose task fails. */
  datatype Platform = Platform(datacenters: map<string, Datacenter>,
                               createdDevices: seq<VmDevice>, bootDevices: seq<VmDevice>,
                               question: Option<string>, failing: set<Step>)

  /** The options execute reads, after validate. */
  datatype Request = Request(
    hostname: string, domain: string,
    ip: string, gateway: string, netmask: string, dns: string,
    network: map<string, string>, subnet: string,
    res: ResourceSpec,
    clone: bool, sourceVm: string,
    uploadIso: bool, makeVm: bool, powerOn: bool,
    dsRegex: string, isoStore: string, cluster: string, datacenter: string,
    outdir: string, major: string)

  /** vm_cfg of the create branch (the annotation, which holds the clock, is left out). */
  datatype VmConfig = VmConfig(name: string, guestId: string, vmPathName: string,
                               numCPUs: Cpu, memoryMB: nat, deviceChange: seq<SpecEntry>)

  /** The folder a clone is placed in: the parent folder of the named source VM. */
  datatype Folder = ParentOf(vm: string)

  datatype Event =
    | CreateVM(config: VmConfig, pool: Pool)           // CreateVM_Task, in the cluster's pool
    | CloneVM(folder: Folder, source: string, name: string, spec: CloneSpec)   // CloneVM_Task
    | WaitFor(step: Step)                              // wait_for_completion
    | Upload(store: string, remotePath: string, localPath: string)
    | Reconfigure(deviceChange: seq<SpecEntry>)        // ReconfigVM_Task, never waited for
    | PowerOn                                          // PowerOnVM_Task
    | Sleep(seconds: nat)
    | AnswerQuestion(id: string, choice: nat)          // AnswerVM
    | DrsRule(call: AffinityCall)                      // Vm_drs ... create

  datatype Ending = Completed | Exited | Aborted(error: Error)

  datatype Run = Run(events: seq<Event>, ending: Ending)

  const CdromLabel := "CD/DVD drive 1"
  const GracePeriod := 10

  function Then(before: seq<Event>, rest: Run): Run
  {
    Run(before + rest.events, rest.ending)
  }

  /** `options[:network][options[:subnet]]['name']` */
  function Portgroup(r: Request): Result<string, Error>
  {
    if r.subnet in r.network then Ok(r.network[r.subnet]) else Err(InvalidSubnet(r.subnet))
  }

  function SettingsOf(r: Request): Settings
  {
    Settings(r.ip, r.gateway, r.netmask, r.domain, r.dns, r.hostname)
  }

  function AffinityEvents(call: Option<AffinityCall>): seq<Event>
  {
    if call.Some? then [DrsRule(call.value)] else []
  }

  predicate HasDatastoreNamed(ds: seq<Datastore>, name: string)
  {
    exists i :: 0 <= i < |ds| && ds[i].name == name
  }

  function VmConfigOf(r: Request, datastore: string, devices: seq<SpecEntry>): VmConfig
  {
    VmConfig(r.hostname, "rhel" + r.major + "_64Guest", "[" + datastore + "]",
             r.res.cpu, r.res.mem, devices)
  }

  /** The CD-ROM after the ISO is attached: only its descriptive label and
      summary change. */
  function AttachIso(cdrom: VmDevice, r: Request): VmDevice
  {
    cdrom.(deviceLabel := CdromLabel, summary := "ISO [" + r.isoStore + "] " + r.hostname + ".iso")
  }

  // ---------------------------------------------------------------------
  // The run

  function Execute(r: Request, p: Platform): Run
  {
    if r.datacenter !in p.datacenters then Run([], Aborted(DatacenterNotFound(r.datacenter)))
    else
      var dc := p.datacenters[r.datacenter];
      if r.cluster !in dc.clusters then Run([], Aborted(ClusterNotFound(r.cluster)))
      else
        match SelectDatastore(dc.datastores, r.dsRegex)
        case Err(e) => Run([], Aborted(e))
        case Ok(datastore) =>
          if r.clone then CloneBranch(r, p, dc, datastore) else CreateBranch(r, p, dc)
  }

  function CloneBranch(r: Request, p: Platform, dc: Datacenter, datastore: string): Run
  {
    if r.sourceVm !in dc.vms then Run([], Aborted(SourceVmNotFound(r.sourceVm)))
    else
      var src := dc.vms[r.sourceVm];
      var target := VMstoreOverride(src.datastores, datastore);
      match Portgroup(r)
      case Err(e) => Run([], Aborted(e))
      case Ok(pg) =>
        match CloneSpecOf(src.devices, r.cluster, r.res.cpu, r.res.mem, target, pg, dc.networks, r.res.sdb)
        case Err(e) => Run([], Aborted(e))
        case Ok(spec) =>
          var full := spec.(customization := Some(IpSettingsOf(SettingsOf(r))));
          var cloned := [CloneVM(ParentOf(r.sourceVm), r.sourceVm, r.hostname, full), WaitFor(CloneStep)];
          if CloneStep in p.failing then Run(cloned, Aborted(TaskFailed(CloneStep)))
          else Run(cloned + AffinityEvents(VcAffinity(r.datacenter, r.cluster, r.hostname, r.domain)), Completed)
  }

  function CreateBranch(r: Request, p: Platform, dc: Datacenter): Run
  {
    if !r.uploadIso || !r.makeVm then Run([], Exited)
    else
      // the create branch selects the datastore again
      match SelectDatastore(dc.datastores, r.dsRegex)
      case Err(e) => Run([], Aborted(e))
      case Ok(datastore) =>
        match Portgroup(r)
        case Err(e) => Run([], Aborted(e))
        case Ok(pg) =>
          match CreateDeviceChanges(datastore, r.res.sda, r.res.sdb, r.isoStore, r.hostname, pg, dc.networks)
          case Err(e) => Run([], Aborted(e))
          case Ok(devices) =>
            if !r.makeVm then Run([], Aborted(NoVmSelected))
            else
              var created := [CreateVM(VmConfigOf(r, datastore, devices), PoolOf(r.cluster)), WaitFor(CreateStep)];
              if CreateStep in p.failing then Run(created, Aborted(TaskFailed(CreateStep)))
              else Then(created, AfterCreate(r, p, dc))
  }

  /** Upload the ISO and point the CD-ROM at it, then the power phase. */
  function AfterCreate(r: Request, p: Platform, dc: Datacenter): Run
  {
    if !r.uploadIso then PowerPhase(r, p)
    else if !HasDatastoreNamed(dc.datastores, r.isoStore) then Run([], Aborted(IsoStoreNotFound(r.isoStore)))
    else
      var up := [Upload(r.isoStore, "/" + r.hostname + ".iso", r.outdir + "/" + r.hostname + ".iso")];
      if UploadStep in p.failing then Run(up, Aborted(TaskFailed(UploadStep)))
      else
        match FindByLabel(p.createdDevices, CdromLabel)
        case None => Run(up, Aborted(CdromNotFound(CdromLabel)))
        case Some(cdrom) => Then(up + [Reconfigure([Edit(AttachIso(cdrom, r))])], PowerPhase(r, p))
  }

  /** Power on, wait the grace period, stop the CD-ROM connecting at boot,
      and answer a pending question with choice 0. */
  function PowerPhase(r: Request, p: Platform): Run
  {
    if !r.powerOn then Run([], Completed)
    else
      var on := [PowerOn, WaitFor(PowerOnStep)];
      if PowerOnStep in p.failing then Run(on, Aborted(TaskFailed(PowerOnStep)))
      else
        var slept := on + [Sleep(GracePeriod)];
        match FindByLabel(p.bootDevices, CdromLabel)
        case None => Run(slept, Aborted(CdromNotFound(CdromLabel)))
        case Some(cdrom) =>
          var detached := slept + [Reconfigure([Edit(cdrom.(startConnected := false))])];
          match p.question
          case None => Run(detached, Completed)
          case Some(id) => Run(detached + [AnswerQuestion(id, 0)], Completed)
  }

  // ---------------------------------------------------------------------
  // Orderings every trace keeps

  /** A call that starts a vSphere task execute waits for. */
  predicate IsTask(e: Event) { e.CreateVM? || e.CloneVM? || e.PowerOn? }

  function StepOf(e: Event): Step
    requires IsTask(e)
  {
    if e.CreateVM? then CreateStep else if e.CloneVM? then CloneStep else PowerOnStep
  }

  /** A reconfiguration that stops the CD-ROM connecting at boot. */
  predicate IsDetach(e: Event)
  {
    e.Reconfigure? && |e.deviceChange| == 1 && e.deviceChange[0].Edit? &&
    e.deviceChange[0].existing.deviceLabel == CdromLabel && !e.deviceChange[0].existing.startConnected
  }

  /** The orderings at position i of a trace:
      - a task is waited for by the very next event, and a wait is for the
        task just before it (so nothing else, reconfiguration included, is
        ever waited for);
      - a pause lasts the grace period, comes right after the completed
        power-on, and is followed, if by anything, by the detach;
      - a question is answered only when the VM has one pending, with
        choice 0, as the last call, right after the detach. */
  predicate OrderedAt(es: seq<Event>, i: int, question: Option<string>)
    requires 0 <= i < |es|
  {
    (IsTask(es[i]) ==> i + 1 < |es| && es[i + 1] == WaitFor(StepOf(es[i]))) &&
    (es[i].WaitFor? ==> 0 < i && IsTask(es[i - 1]) && StepOf(es[i - 1]) == es[i].step) &&
    (es[i].Sleep? ==>
       es[i].seconds == GracePeriod && 2 <= i && es[i - 2] == PowerOn && es[i - 1] == WaitFor(PowerOnStep) &&
       (i + 1 < |es| ==> IsDetach(es[i + 1]))) &&
    (es[i].AnswerQuestion? ==>
       question == Some(es[i].id) && es[i].choice == 0 && i == |es| - 1 && 1 <= i && IsDetach(es[i - 1]))
  }

  predicate Ordered(es: seq<Event>, question: Option<string>)
  {
    forall i :: 0 <= i < |es| ==> OrderedAt(es, i, question)
  }

  /** Orderings survive putting a prefix without pauses, answers or a
      pending task in front. */
  lemma OrderedConcat(a: seq<Event>, b: seq<Event>, question: Option<string>)
    requires Ordered(a, question) && Ordered(b, question)
    requires a == [] || !IsTask(a[|a| - 1])
    requires forall i :: 0 <= i < |a| ==> !a[i].Sleep? && !a[i].AnswerQuestion?
    ensures Ordered(a + b, question)
  {
    var es := a + b;
    forall i | 0 <= i < |es|
      ensures OrderedAt(es, i, question)
    {
      if i < |a| {
        assert OrderedAt(a, i, question);
        assert es[i] == a[i];
        if i + 1 < |a| {
          assert es[i + 1] == a[i + 1];
        }
        if 0 < i {
          assert es[i - 1] == a[i - 1];
        }
      } else {
        var k := i - |a|;
        assert OrderedAt(b, k, question);
        assert es[i] == b[k];
        if k + 1 < |b| {
          assert es[i + 1] == b[k + 1];
        }
        if 0 < k {
          assert es[i - 1] == b[k - 1];
        }
        if 1 < k {
          assert es[i - 2] == b[k - 2];
        }
      }
    }
  }

  /** A trace of calls that are neither tasks, waits, pauses nor answers. */
  lemma OrderedPlain(es: seq<Event>, question: Option<string>)
    requires forall i :: 0 <= i < |es| ==>
      !IsTask(es[i]) && !es[i].WaitFor? && !es[i].Sleep? && !es[i].AnswerQuestion?
    ensures Ordered(es, question)
  {
    forall i | 0 <= i < |es|
      ensures OrderedAt(es, i, question)
    {
    }
  }

  /** A task and its wait. */
  lemma OrderedTask(e: Event, question: Option<string>)
    requires IsTask(e)
    ensures Ordered([e, WaitFor(StepOf(e))], question)
  {
    var es := [e, WaitFor(StepOf(e))];
    forall i | 0 <= i < |es|
      ensures OrderedAt(es, i, question)
    {
      assert i == 0 || i == 1;
    }
  }

  /** Power-on, wait and pause, then at most the detach and the answer to
      the pending question. */
  lemma OrderedBoot(es: seq<Event>, question: Option<string>)
    requires 3 <= |es| <= 5
    requires es[0] == PowerOn && es[1] == WaitFor(PowerOnStep) && es[2] == Sleep(GracePeriod)
    requires |es| >= 4 ==> IsDetach(es[3])
    requires |es| == 5 ==> question.Some? && es[4] == AnswerQuestion(question.value, 0)
    ensures Ordered(es, question)
  {
    forall i | 0 <= i < |es|
      ensures OrderedAt(es, i, question)
    {
      assert i == 0 || i == 1 || i == 2 || i == 3 || i == 4;
    }
  }

  /** The power phase on its own: power-on, wait, pause, detach, answer. */
  lemma PowerPhaseOrdered(r: Request, p: Platform)
    ensures Ordered(PowerPhase(r, p).events, p.question)
  {
    var es := PowerPhase(r, p).events;
    if !r.powerOn {
      assert es == [];
    } else if PowerOnStep in p.failing {
      assert es == [PowerOn, WaitFor(StepOf(PowerOn))];
      OrderedTask(PowerOn, p.question);
    } else {
      var slept := [PowerOn, WaitFor(PowerOnStep), Sleep(GracePeriod)];
      match FindByLabel(p.bootDevices, CdromLabel)
      case None =>
        assert es == slept;
        OrderedBoot(es, p.question);
      case Some(cdrom) =>
        var detach := Reconfigure([Edit(cdrom.(startConnected := false))]);
        assert IsDetach(detach);
        match p.question
        case None =>
          assert es == slept + [detach];
          OrderedBoot(es, p.question);
        case Some(id) =>
          assert es == slept + [detach, AnswerQuestion(id, 0)];
          OrderedBoot(es, p.question);
    }
  }

  lemma AfterCreateOrdered(r: Request, p: Platform, dc: Datacenter)
    ensures Ordered(AfterCreate(r, p, dc).events, p.question)
  {
    PowerPhaseOrdered(r, p);
    var es := AfterCreate(r, p, dc).events;
    var upload := Upload(r.isoStore, "/" + r.hostname + ".iso", r.outdir + "/" + r.hostname + ".iso");
    if !r.uploadIso {
    } else if HasDatastoreNamed(dc.datastores, r.isoStore) && UploadStep !in p.failing
           && FindByLabel(p.createdDevices, CdromLabel).Some? {
      var cdrom := FindByLabel(p.createdDevices, CdromLabel).value;
      var up := [upload, Reconfigure([Edit(AttachIso(cdrom, r))])];
      assert es == up + PowerPhase(r, p).events;
      OrderedPlain(up, p.question);
      OrderedConcat(up, PowerPhase(r, p).events, p.question);
    } else {
      assert es == [] || es == [upload];
      OrderedPlain(es, p.question);
    }
  }

  lemma CreateBranchOrdered(r: Request, p: Platform, dc: Datacenter)
    ensures Ordered(CreateBranch(r, p, dc).events, p.question)
  {
    if r.uploadIso && r.makeVm {
      match SelectDatastore(dc.datastores, r.dsRegex)
      case Err(_) =>
      case Ok(datastore) =>
        match Portgroup(r)
        case Err(_) =>
        case Ok(pg) =>
          match CreateDeviceChanges(datastore, r.res.sda, r.res.sdb, r.isoStore, r.hostname, pg, dc.networks)
          case Err(_) =>
          case Ok(devices) =>
            var create := CreateVM(VmConfigOf(r, datastore, devices), PoolOf(r.cluster));
            var created := [create, WaitFor(StepOf(create))];
            OrderedTask(create, p.question);
            if CreateStep !in p.failing {
              AfterCreateOrdered(r, p, dc);
              OrderedConcat(created, AfterCreate(r, p, dc).events, p.question);
            }
    }
  }

  lemma CloneBranchOrdered(r: Request, p: Platform, dc: Datacenter, datastore: string)
    ensures Ordered(CloneBranch(r, p, dc, datastore).events, p.question)
  {
    var es := CloneBranch(r, p, dc, datastore).events;
    if es != [] {
      var clone := es[0];
      assert clone.CloneVM? && es[..2] == [clone, WaitFor(StepOf(clone))];
      OrderedTask(clone, p.question);
      var rest := es[2..];
      assert |rest| <= 1 && (|rest| == 1 ==> rest[0].DrsRule?);
      OrderedPlain(rest, p.question);
      assert es == es[..2] + rest;
      OrderedConcat(es[..2], rest, p.question);
    }
  }

  /** Every run of execute keeps the orderings of OrderedAt at every
      position. In particular a reconfiguration is never followed by a wait. */
  lemma ExecuteOrdered(r: Request, p: Platform)
    ensures Ordered(Execute(r, p).events, p.question)
    ensures var es := Execute(r, p).events;
      forall i :: 0 <= i < |es| - 1 && es[i].Reconfigure? ==> !es[i + 1].WaitFor?
  {
    if r.datacenter in p.datacenters {
      var dc := p.datacenters[r.datacenter];
      if r.cluster in dc.clusters {
        match SelectDatastore(dc.datastores, r.dsRegex)
        case Err(_) =>
        case Ok(datastore) =>
          if r.clone {
            CloneBranchOrdered(r, p, dc, datastore);
          } else {
            CreateBranchOrdered(r, p, dc);
          }
      }
    }
    var es := Execute(r, p).events;
    forall i | 0 <= i < |es| - 1 && es[i].Reconfigure?
      ensures !es[i + 1].WaitFor?
    {
      assert OrderedAt(es, i + 1, p.question);
    }
  }

  // ---------------------------------------------------------------------
  // The branches

  /** The datacenter, the cluster and a matching datastore are looked up
      before anything else; when one is missing the run stops with that
      error and has changed nothing. */
  lemma LookupFailuresChangeNothing(r: Request, p: Platform)
    ensures r.datacenter !in p.datacenters ==>
      Execute(r, p) == Run([], Aborted(DatacenterNotFound(r.datacenter)))
    ensures r.datacenter in p.datacenters && r.cluster !in p.datacenters[r.datacenter].clusters ==>
      Execute(r, p) == Run([], Aborted(ClusterNotFound(r.cluster)))
    ensures (r.datacenter in p.datacenters && r.cluster in p.datacenters[r.datacenter].clusters &&
             forall i :: 0 <= i < |p.datacenters[r.datacenter].datastores| ==>
               !Matches(p.datacenters[r.datacenter].datastores[i], r.dsRegex))
      ==> Execute(r, p) == Run([], Aborted(NoDatastoreMatches(r.dsRegex)))
  {
  }

  /** A run changes the platform first by cloning or creating the VM, as
      the branch says; a run that completes has changed something. */
  lemma FirstChangeIsTheVm(r: Request, p: Platform)
    ensures var run := Execute(r, p);
      (run.events != [] ==> (if r.clone then run.events[0].CloneVM? else run.events[0].CreateVM?)) &&
      (run.events == [] ==> run.ending != Completed)
  {
  }

  /** A clone run is the clone call and its wait, then at most the
      anti-affinity rule, which is made exactly when vc_affinity asks for
      one; nothing of the create branch happens. */
  lemma CloneRunShape(r: Request, p: Platform)
    requires r.clone
    ensures var run := Execute(r, p);
      var es := run.events;
      (es == [] || (2 <= |es| && es[0].CloneVM? && es[0].source == r.sourceVm && es[0].folder == ParentOf(r.sourceVm) &&
                    es[0].name == r.hostname && es[1] == WaitFor(CloneStep))) &&
      (run.ending == Completed ==>
        es[2..] == AffinityEvents(VcAffinity(r.datacenter, r.cluster, r.hostname, r.domain))) &&
      (run.ending != Completed ==> |es| <= 2) &&
      (forall i :: 0 <= i < |es| ==> es[i].CloneVM? || es[i] == WaitFor(CloneStep) || es[i].DrsRule?)
  {
    var es := Execute(r, p).events;
    if es != [] {
      forall i | 0 <= i < |es|
        ensures es[i].CloneVM? || es[i] == WaitFor(CloneStep) || es[i].DrsRule?
      {
        assert i == 0 || i == 1 || i == 2;
      }
    }
  }

  /** A clone run whose lookups succeed and whose task completes: the
      source VM is cloned under the new hostname with the spec built from
      its devices, on the VMstore its datastores name last (else the
      selected one), customised with the request's IP settings. */
  lemma CloneRun(r: Request, p: Platform, datastore: string, pg: string)
    requires r.clone && r.datacenter in p.datacenters
    requires var dc := p.datacenters[r.datacenter];
      r.cluster in dc.clusters && SelectDatastore(dc.datastores, r.dsRegex) == Ok(datastore) &&
      r.sourceVm in dc.vms && Portgroup(r) == Ok(pg) &&
      CloneSpecOf(dc.vms[r.sourceVm].devices, r.cluster, r.res.cpu, r.res.mem,
                  VMstoreOverride(dc.vms[r.sourceVm].datastores, datastore), pg, dc.networks, r.res.sdb).Ok?
    requires CloneStep !in p.failing
    ensures var dc := p.datacenters[r.datacenter];
      var src := dc.vms[r.sourceVm];
      var spec := CloneSpecOf(src.devices, r.cluster, r.res.cpu, r.res.mem,
                              VMstoreOverride(src.datastores, datastore), pg, dc.networks, r.res.sdb).value;
      Execute(r, p) == Run([CloneVM(ParentOf(r.sourceVm), r.sourceVm, r.hostname,
                                    spec.(customization := Some(IpSettingsOf(SettingsOf(r))))),
                            WaitFor(CloneStep)] +
                           AffinityEvents(VcAffinity(r.datacenter, r.cluster, r.hostname, r.domain)),
                           Completed)
  {
  }

  /** The create branch goes on only when both an ISO upload and a VM were
      asked for; otherwise the run exits quietly once the lookups succeed. */
  lemma CreateNeedsBothFlags(r: Request, p: Platform)
    requires !r.clone && (!r.uploadIso || !r.makeVm)
    ensures Execute(r, p).events == []
    ensures Execute(r, p).ending == Exited ||
      Execute(r, p).ending.error in {DatacenterNotFound(r.datacenter), ClusterNotFound(r.cluster),
                                     NoDatastoreMatches(r.dsRegex)}
  {
  }

  /** The "--no-vm selected" abort can never fire: the quiet exit before it
      already stopped every run without a VM. */
  lemma NoVmAbortUnreachable(r: Request, p: Platform)
    ensures Execute(r, p).ending != Aborted(NoVmSelected)
  {
  }

  /** A create run whose lookups succeed and whose tasks complete: create
      and wait, upload the ISO, attach it to the CD-ROM, then (when asked)
      power on and wait, pause, stop the CD-ROM connecting at boot, and
      answer the pending question. */
  lemma CreateRun(r: Request, p: Platform, datastore: string, pg: string)
    requires !r.clone && r.uploadIso && r.makeVm && r.datacenter in p.datacenters
    requires var dc := p.datacenters[r.datacenter];
      r.cluster in dc.clusters && SelectDatastore(dc.datastores, r.dsRegex) == Ok(datastore) &&
      Portgroup(r) == Ok(pg) && pg in dc.networks && HasDatastoreNamed(dc.datastores, r.isoStore)
    requires FindByLabel(p.createdDevices, CdromLabel).Some?
    requires r.powerOn ==> FindByLabel(p.bootDevices, CdromLabel).Some?
    requires p.failing == {}
    ensures var dc := p.datacenters[r.datacenter];
      var devices := CreateDeviceChanges(datastore, r.res.sda, r.res.sdb, r.isoStore, r.hostname, pg, dc.networks).value;
      var cdrom := FindByLabel(p.createdDevices, CdromLabel).value;
      var built := [CreateVM(VmConfig(r.hostname, "rhel" + r.major + "_64Guest", "[" + datastore + "]",
                                      r.res.cpu, r.res.mem, devices), PoolOf(r.cluster)),
                    WaitFor(CreateStep),
                    Upload(r.isoStore, "/" + r.hostname + ".iso", r.outdir + "/" + r.hostname + ".iso"),
                    Reconfigure([Edit(cdrom.(deviceLabel := CdromLabel,
                                             summary := "ISO [" + r.isoStore + "] " + r.hostname + ".iso"))])];
      var booted := if !r.powerOn then []
        else [PowerOn, WaitFor(PowerOnStep), Sleep(10),
              Reconfigure([Edit(FindByLabel(p.bootDevices, CdromLabel).value.(startConnected := false))])] +
             (if p.question.Some? then [AnswerQuestion(p.question.value, 0)] else []);
      Execute(r, p) == Run(built + booted, Completed)
  {
    var dc := p.datacenters[r.datacenter];
    CreateDeviceLayout(datastore, r.res.sda, r.res.sdb, r.isoStore, r.hostname, pg, dc.networks);
  }

  /** The create branch never calls the rule engine, and the clone branch
      never powers on, uploads or reconfigures. */
  lemma BranchesKeepApart(r: Request, p: Platform)
    ensures var es := Execute(r, p).events;
      (!r.clone ==> forall i :: 0 <= i < |es| ==> !es[i].DrsRule? && !es[i].CloneVM?) &&
      (r.clone ==> forall i :: 0 <= i < |es| ==>
         !es[i].CreateVM? && !es[i].Upload? && !es[i].Reconfigure? && es[i] != PowerOn)
  {
    if r.clone {
      CloneRunShape(r, p);
    } else {
      var es := Execute(r, p).events;
      forall i | 0 <= i < |es|
        ensures !es[i].DrsRule? && !es[i].CloneVM?
      {
        assert i < 9;
      }
    }
  }

  /** A failed task ends the run at once: its wait (or the upload) is the
      last event, and only a step the platform fails can fail. */
  lemma FailedTaskEndsRun(r: Request, p: Platform)
    ensures var run := Execute(r, p);
      run.ending.Aborted? && run.ending.error.TaskFailed? ==>
        var step := run.ending.error.step;
        step in p.failing && run.events != [] &&
        run.events[|run.events| - 1] == (if step == UploadStep
          then Upload(r.isoStore, "/" + r.hostname + ".iso", r.outdir + "/" + r.hostname + ".iso")
          else WaitFor(step))
  {
  }
}
