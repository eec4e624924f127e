# mkvm vSphere builder — a verified model of its decision logic

`lib/vsphere.rb` is the vSphere back end of mkvm. It turns a host request into VMware calls, and it builds a VM in one of two ways:
- **Create.** It builds the VM from scratch: a SCSI controller, a disk, a CD-ROM on an uploaded kickstart ISO and a NIC. It then powers the VM on and detaches the ISO after boot.
- **Clone.** It clones a template VM with a rebound NIC, an optional second disk and a Linux guest customisation. It can then add a DRS anti-affinity rule.

This project models the decision logic of that file in Dafny and proves what each part promises. The logic covers size conversion, resource resolution, datastore choice, device lists, clone specifications, the anti-affinity rule and the order of the remote calls. The SDK is abstract here: the platform is a value the model reads.

Modules, one per part of the source:

| file | module | models |
|---|---|---|
| `wrappers.dfy` | `Wrappers` | `Option`, `Result`, and the error each abort stands for |
| `text.dfy` | `Text` | the Ruby string operations used: one-character `split`, literal `=~`, leading-digit reading |
| `size.dfy` | `Size` | `parse_size` |
| `resources.dfy` | `Resources` | the `@templates` table and the resource part of `validate`, including a class for the options hash that `validate` writes |
| `datastores.dfy` | `Datastores` | the most-free-space choice and the clone branch's `VMstore` override loop |
| `devices.dfy` | `Devices` | the four device builders and `get_switch_port` |
| `clone.dfy` | `Clone` | `generate_clone_spec`, with its key-scanning loop as a method, and `ip_settings` |
| `affinity.dfy` | `Affinity` | `vc_affinity` |
| `orchestrator.dfy` | `Orchestrator` | `execute`, as a pure function from request and platform to a trace of remote events and an ending |

Behaviour of the source that the model keeps as written:
- The clone path looks up a NIC labelled `Network adapter 1`, but the create path labels its NIC `Network Adapter 1`. A device labelled `Network Adapter 1` is not found by the clone path's lookup, so a source VM whose devices carry no other `Network ...` label cannot be cloned (`Clone.CreateLabelUnseenByClone`).
- `vc_affinity` passes the rule engine the offset of the matching digit, not the digit itself. For `ab7` it passes 2.
- The two CD-ROM reconfigurations are started but never waited for. Every other task is waited for at once.
- The `--no-vm` abort in the create branch cannot fire, because the exit just before it already stops any run without `make_vm`.
- `disk_config(datastore, controllerkey = 100, size, index)` called with three arguments binds size and index and keeps controller 100. Ruby fills the required parameters first, so the create-path disk is built correctly.
- `Integer()` reads a text with a leading zero in base 8: `010` is 8 and `08` raises.

Where the model departs from the source:
- When the input unit equals the target unit, `parse_size` calls `to_int` on a String, which Ruby does not define. The model follows the comment's intent and returns the magnitude as a number.
- A size made only of digits and dots is returned unconverted. The model reads it as the number it spells, taken to be in the target unit already.
- A nil that the source would dereference is a named error in the model: an unknown template, a short custom list, a source VM without the NIC, an ISO store or CD-ROM that is not found, or no matching datastore.

## Model

| member | source | states |
|---|---|---|
| Size.Factor | lib/vsphere.rb:93 | each unit's factor in KiB is positive |
| Size.FactorTable | lib/vsphere.rb:93 | the table is binary: K is 1 and M, G, T are each 1024 times the unit below (1024, 1048576, 1073741824) |
| Size.UnitOf | lib/vsphere.rb:94 | a character names a unit exactly when it is one of K, M, G, T, and the unit's symbol is that character |
| Size.ParseSize | lib/vsphere.rb:78-101 | computes parse_size; its behaviour is stated by Size.ParseSizeFails, Size.WrittenSizeReadsBack and Size.NumericPassThrough |
| Size.Convert | lib/vsphere.rb:100 | the conversion result is the truncated quotient: r·factor(to) ≤ n·factor(from) < (r+1)·factor(to) |
| Size.ConvertDown | lib/vsphere.rb:95-100 | converting to a smaller unit loses nothing |
| Size.WrittenSizeReadsBack | lib/vsphere.rb:84-100 | a size written as digits and a unit parses back to that number, in the target unit when the units differ, unchanged when they are the same |
| Size.NumericPassThrough | lib/vsphere.rb:79-82 | a bare number is returned as it is, taken to be in the target unit |
| Size.ParseSizeFails | lib/vsphere.rb:78-101 | parse_size fails exactly for a non-numeric size whose last character is not K, M, G or T, and the error names that character |
| Size.TenGibInKib | lib/vsphere.rb:93-100 | 10G in KiB is 10485760 |
| Size.TwoGibInMib | lib/vsphere.rb:93-100 | 2G in MiB is 2048 |
| Size.FifteenGibInKib | lib/vsphere.rb:93-100 | 15G in KiB is 15728640 |
| Size.SameUnitExample | lib/vsphere.rb:87-91 | 5M asked for in MiB gives the magnitude, 5 |
| Size.NumericExample | lib/vsphere.rb:79-82 | 1024 is returned as 1024 |
| Size.UnknownUnitExample | lib/vsphere.rb:94-98 | 7X aborts and names the unit X |
| Resources.Entry | lib/vsphere.rb:112-114 | Ruby array indexing: nil past the end, the element otherwise |
| Resources.Selection | lib/vsphere.rb:106-114 | computes the cpu and raw sizes from the template or the custom list; stated by Resources.ExactlyOneSelection, Resources.UnknownTemplateFails and Resources.CustomTooShort |
| Resources.SecondDisk | lib/vsphere.rb:122-126 | computes the second disk and its path; stated by Resources.SdbWithPath and Resources.SdbWithoutPath |
| Resources.Resolve | lib/vsphere.rb:105-126 | computes the resolved resources or the first abort; stated by Resources.TemplateTable, Resources.CustomTriple and Resources.SdbPresence |
| Resources.Options.Validate | lib/vsphere.rb:105-126 | validate aborts with the first resolution error, or with the invalid subnet; on success the options hold the resolved cpu, memory, disk and second disk, and its inputs are unchanged |
| Resources.ExactlyOneSelection | lib/vsphere.rb:106-109 | neither template nor custom aborts, both abort, and every success had exactly one of them |
| Resources.TemplateTable | lib/vsphere.rb:4-9 | each template row resolves: small 1/1024/15728640, medium 2/2048/15728640, large 2/4096/15728640, xlarge 2/8192/15728640 |
| Resources.UnknownTemplateFails | lib/vsphere.rb:111-112 | a template name outside the table aborts with that name |
| Resources.CustomTriple | lib/vsphere.rb:113-120 | a custom triple resolves to the cpu text, the memory in MiB and the disk in KiB |
| Resources.CustomTooShort | lib/vsphere.rb:113-118 | a custom list without a memory entry aborts |
| Resources.SdbWithPath | lib/vsphere.rb:122-126 | `--sdb size,path` gives the size in KiB and the path as the second comma field |
| Resources.SdbWithoutPath | lib/vsphere.rb:122-126 | `--sdb size` gives the size in KiB and no path |
| Resources.SdbPresence | lib/vsphere.rb:122-126 | a resolved run has a second disk exactly when `--sdb` was given, and a path only then |
| Datastores.MostFree | lib/vsphere.rb:169 | nothing is chosen exactly when no name matches; otherwise the choice matches, no matching datastore has more free space, and every earlier match has strictly less (max_by keeps the first maximum) |
| Datastores.SelectDatastore | lib/vsphere.rb:169 | selection fails, naming the pattern, exactly when no name matches; otherwise it names a matching datastore of maximal free space |
| Datastores.VMstoreOverride | lib/vsphere.rb:176-178 | computes the overridden datastore; stated by Datastores.OverrideIsLastVMstore |
| Datastores.OverrideDatastore | lib/vsphere.rb:176-178 | the override loop ends with the datastore the specification function VMstoreOverride gives |
| Datastores.OverrideIsLastVMstore | lib/vsphere.rb:176-178 | the override is the last source-VM datastore whose name contains VMstore, and the chosen datastore when there is none |
| Datastores.SelectionExample | lib/vsphere.rb:169 | among matching datastores the one with more free space is chosen and a non-matching one is ignored |
| Datastores.TieGoesToFirst | lib/vsphere.rb:169 | of two matching datastores with equal free space the first is chosen |
| Devices.SwitchPort | lib/vsphere.rb:325-332 | the port is found exactly when the portgroup is a network of the datacenter, and it is that network's port; otherwise the lookup fails naming the portgroup |
| Devices.FindByLabel | lib/vsphere.rb:302 | the first device with the label is found, and nothing is found only when no device has it |
| Devices.ParavirtualScsiController | lib/vsphere.rb:334-344 | builds the controller entry; its fields are stated by Devices.CreateDeviceLayout |
| Devices.DiskConfig | lib/vsphere.rb:346-364 | builds a disk entry; its fields are stated by Devices.CreateDeviceLayout and Clone.CloneSpecContents |
| Devices.CdromConfig | lib/vsphere.rb:366-384 | builds the CD-ROM entry; its fields are stated by Devices.CreateDeviceLayout |
| Devices.NetworkConfig | lib/vsphere.rb:386-402 | builds the NIC entry, failing on an unknown portgroup; stated by Devices.CreateDeviceLayout |
| Devices.CreateDeviceChanges | lib/vsphere.rb:207-215 | builds the create branch's deviceChange list; stated by Devices.CreateDeviceLayout and Devices.CreateDevicesWellFormed |
| Devices.CreateDeviceLayout | lib/vsphere.rb:207-215 | the create list is exactly controller 100 on bus 0, a persistent thick disk at key and unit 0 on controller 100, the CD-ROM on `[iso_store] host.iso` at controller 200 unit 0 with all connect flags set, the vmxnet3 NIC with a generated address, and a unit-1 disk last exactly when sdb is set; an unknown portgroup is its only failure |
| Devices.CreateDevicesWellFormed | lib/vsphere.rb:334-364 | every disk of the create list sits on the controller the list adds, no two disks share a unit, and there are one or two disks as sdb says |
| Clone.IntegerOf | lib/vsphere.rb:307 | Integer() keeps a number; a text is accepted exactly when it is a decimal numeral without a leading zero (or "0"), giving its decimal value, or a zero followed by octal digits, giving its octal value; anything else fails naming the text |
| Clone.IntegerReadsDecimal | lib/vsphere.rb:307 | a decimal numeral reads back through Integer() as its number |
| Clone.OctalReading | lib/vsphere.rb:307 | 010 reads as 8, 08 fails, and 0 reads as 0 |
| Clone.LastScsiKey | lib/vsphere.rb:310-316 | computes the second disk's controller key; stated by Clone.LastScsiKeyIsLast |
| Clone.CloneSpecOf | lib/vsphere.rb:297-323 | computes generate_clone_spec; stated by Clone.CloneSpecContents and Clone.CloneSpecFailures |
| Clone.IpSettingsOf | lib/vsphere.rb:276-294 | computes ip_settings; stated by Clone.CustomizationContents |
| Clone.GenerateCloneSpec | lib/vsphere.rb:297-323 | the method, with its push sequence and controller-key scan, builds exactly the specification CloneSpecOf |
| Clone.LastScsiKeyIsLast | lib/vsphere.rb:310-316 | the controller key is that of the last source device whose summary mentions SCSI, and 100 when there is none |
| Clone.CloneSpecContents | lib/vsphere.rb:297-323 | the device changes are one edit of the first `Network adapter 1` device, changed only in its port, then an added unit-1 disk on the last SCSI controller exactly when sdb is set; cpu and memory as integers, and neither a template nor powered on |
| Clone.CloneSpecFailures | lib/vsphere.rb:302-307 | building fails exactly when the NIC is missing, the portgroup is unknown or the cpu is not an integer, the missing NIC first |
| Clone.CreateLabelUnseenByClone | lib/vsphere.rb:302 | in a device list whose only `Network ...` labels are `Network Adapter 1`, the clone path's lookup finds nothing and the clone spec fails with the missing NIC |
| Clone.CustomizationContents | lib/vsphere.rb:276-294 | the fixed name is the hostname before its first dot (nil only for a hostname of dots); the DNS servers are the comma fields of dns, contain no comma, and join back to dns when dns does not end in a comma; the suffix list is the domain; there is one adapter mapping with ip, gateway list and netmask |
| Clone.ShortNameExample | lib/vsphere.rb:285 | db2.example.com gets the fixed name db2 in domain example.com |
| Affinity.MatchFrom | lib/vsphere.rb:270 | computes the offset where `/([2-9]$)/` matches; stated by Affinity.MatchFromEnd |
| Affinity.VcAffinity | lib/vsphere.rb:268-273 | computes the rule-engine call; stated by Affinity.AffinityRule |
| Affinity.MatchFromEnd | lib/vsphere.rb:270 | `/([2-9]$)/` matches at the last offset when the text ends in 2-9, and nowhere otherwise |
| Affinity.AffinityRule | lib/vsphere.rb:268-273 | the rule engine is called exactly when the short hostname ends in 2-9; the base is the short name without that character and the number passed is its offset |
| Affinity.ShortNameIsPrefix | lib/vsphere.rb:269 | the short name is the hostname up to its first dot |
| Affinity.AffinityExamples | lib/vsphere.rb:268-273 | web3 and db2 call the engine with bases web and db; web1 and web do not call it |
| Affinity.HostnumIsOffset | lib/vsphere.rb:270-271 | for ab7 the number passed is 2, the offset, not 7 |
| Text.SplitAll | lib/vsphere.rb:123 | a split has at least one field and no field contains the separator |
| Text.DropTrailingEmpty | lib/vsphere.rb:123 | Ruby's split result is a prefix of all fields that drops only empty trailing ones and does not end in an empty field |
| Text.Fields | lib/vsphere.rb:123 | computes Ruby's `split` on one character; stated by Text.DropTrailingEmpty, Text.SplitAllJoin and Text.JoinFields |
| Text.FirstField | lib/vsphere.rb:269 | computes `split(sep)[0]`; stated by Text.FirstFieldIsPrefix and Text.FirstFieldOf |
| Text.JoinSplitAll | lib/vsphere.rb:123 | joining the fields with the separator gives back the text |
| Text.SplitAllJoin | lib/vsphere.rb:123 | splitting fields joined by a separator they do not contain gives the fields back |
| Text.JoinFields | lib/vsphere.rb:282 | Ruby's split loses nothing for a text that does not end in the separator |
| Text.FirstFieldIsPrefix | lib/vsphere.rb:269 | `split(sep)[0]` is nil exactly for a text of separators, and otherwise the text up to the first separator |
| Text.FirstFieldOf | lib/vsphere.rb:285 | a non-empty field ahead of the first separator is what `split(sep)[0]` gives |
| Text.LeadingDigits | lib/vsphere.rb:95 | the digits a conversion reads are the longest prefix of decimal digits |
| Text.ReadDecimal | lib/vsphere.rb:95 | a decimal numeral followed by a non-digit reads back as its number |
| Orchestrator.Execute | lib/vsphere.rb:159-266 | computes the run of execute; stated by Orchestrator.ExecuteOrdered, Orchestrator.LookupFailuresChangeNothing, Orchestrator.FirstChangeIsTheVm and Orchestrator.NoVmAbortUnreachable |
| Orchestrator.CloneBranch | lib/vsphere.rb:172-187 | computes the clone branch; stated by Orchestrator.CloneRunShape and Orchestrator.CloneRun |
| Orchestrator.CreateBranch | lib/vsphere.rb:188-264 | computes the create branch; stated by Orchestrator.CreateNeedsBothFlags and Orchestrator.CreateRun |
| Orchestrator.AfterCreate | lib/vsphere.rb:231-245 | computes the upload and the ISO attach; stated by Orchestrator.CreateRun and Orchestrator.AfterCreateOrdered |
| Orchestrator.PowerPhase | lib/vsphere.rb:248-262 | computes the power phase; stated by Orchestrator.CreateRun and Orchestrator.PowerPhaseOrdered |
| Orchestrator.ExecuteOrdered | lib/vsphere.rb:159-266 | in every run each create, clone and power-on task is waited for at once and nothing else is (so no reconfiguration is waited for), the ten-second pause follows the completed power-on and precedes the detach, and a question is answered with choice 0 only when pending, last |
| Orchestrator.LookupFailuresChangeNothing | lib/vsphere.rb:162-169 | a missing datacenter, cluster or matching datastore aborts with that error before any call |
| Orchestrator.FirstChangeIsTheVm | lib/vsphere.rb:172-264 | the first call of a run is the clone or the create its branch names, and a run that completes has made a call |
| Orchestrator.CloneRunShape | lib/vsphere.rb:172-187 | a clone run makes the clone call and its wait, then the anti-affinity rule exactly when vc_affinity asks for one and the run completes; nothing else |
| Orchestrator.CloneRun | lib/vsphere.rb:172-186 | a clone whose lookups succeed clones the source into its parent folder under the hostname with the generated spec (whose second disk, if any, names the overridden datastore; the relocate spec carries only the pool), customised with the request's IP settings, then applies vc_affinity |
| Orchestrator.CreateNeedsBothFlags | lib/vsphere.rb:190-192 | without both upload_iso and make_vm the create branch makes no call and exits, unless a lookup failed first |
| Orchestrator.NoVmAbortUnreachable | lib/vsphere.rb:218-220 | no run ends with the `--no-vm selected` abort |
| Orchestrator.CreateRun | lib/vsphere.rb:188-262 | a create whose lookups and tasks succeed makes CreateVM with the built config in the cluster's pool and waits, uploads the ISO, edits the CD-ROM's label and summary to name the ISO, and, when power_on is set, powers on and waits, sleeps 10, edits the CD-ROM to not connect at start, and answers a pending question with 0 |
| Orchestrator.BranchesKeepApart | lib/vsphere.rb:172-264 | the create branch never clones or calls the rule engine; the clone branch never creates, uploads, reconfigures or powers on |
| Orchestrator.FailedTaskEndsRun | lib/vsphere.rb:228-249 | a failed task ends the run at its wait, or at the upload, and only a step the platform fails can fail |
| Orchestrator.CloneBranchOrdered | lib/vsphere.rb:172-187 | the clone branch keeps the call orderings |
| Orchestrator.CreateBranchOrdered | lib/vsphere.rb:188-264 | the create branch keeps the call orderings |
| Orchestrator.AfterCreateOrdered | lib/vsphere.rb:231-262 | the upload, the ISO edit and the power phase keep the call orderings |
| Orchestrator.PowerPhaseOrdered | lib/vsphere.rb:248-262 | power-on, wait, pause, detach and answer come in that order |

## Left out

- Command-line parsing (`optparse`, `defaults`) is not modelled. The model starts from the options that `validate` and `execute` read.
- The password prompt on standard input is not modelled.
- The presence check of the whole network map and its abort text are not modelled. Only "the subnet must be in the map" is kept, as the `InvalidSubnet` failure.
- The RbVmomi connection, Task objects and `wait_for_completion` are not modelled as SDK calls. A create, clone or power-on is an event followed by a `WaitFor` event; a reconfiguration is an event with no wait, as in the source. Which steps fail is a set in the platform value.
- `get_switch_port` internals are not modelled. The port is the value the datacenter's network map gives for the portgroup name, and a missing name fails.
- The `Vm_drs` rule engine is not part of this model. Its `create` call is recorded as a `DrsRule` event with its arguments.
- Clock, randomness and output are left out: real `sleep` is an event with its duration, the `Time.new` annotation is absent, and `debug`, `puts` and `PP` output is absent.
- Size.ParseSize: magnitudes are read as the leading decimal digits, a natural number, and converted with truncating integer division. Ruby's `to_f` also skips leading whitespace, reads underscores between digits, and reads fractions, exponents and signs through floating point; none of that is modelled. So ` 4G` in MiB is 0 in the model where Ruby gives 4096, and `1_0G` is 1024 where Ruby gives 10240. For numeric input the source returns the String itself, while the model returns the number it spells.
- Datastores.Matches: the pattern (`ds_regex`, `/VMstore/`, `/SCSI/`, `/([2-9]$)/`) is matched as a literal substring, with `$` as the end of the string. Regular-expression metacharacters and multi-line anchors are not modelled.
- Clone.IntegerOf: decimal numerals and the leading-zero octal reading are modelled. The `0x`, `0b`, `0o` and `0d` prefixes, underscores, signs and surrounding whitespace that Ruby's `Integer()` also accepts are not.
- Clone.CloneSpecOf: `Integer(memory)` is not modelled. The memory reaches it as a natural number, so the cases where Ruby raises (a numeric size with a fraction, such as `1.5`, which parse_size returns as a String) or reads octal (`010`) proceed in the model with the number read.
- Resources.Resolve: an unknown template (nil from the table), a custom list without a memory entry and an `--sdb` value with no size field each make Ruby raise NoMethodError on nil. The model turns them into the named errors UnknownTemplate, MissingField("memory") and MissingField("sdb"). A custom list without a disk entry becomes MissingField("sda").
- Orchestrator.Execute: the create branch's second datastore query is read from the same platform snapshot as the first, so both choices agree. Concurrent change of free space between the two queries is not modelled.
- Orchestrator.Execute: a `nil` dereference is modelled as an abort. This covers a source VM without the NIC, an ISO store or CD-ROM that is not found, and no matching datastore. The shape of Ruby's exception is not modelled.
- Orchestrator.Execute: the deviceChange list and the CD-ROM device are built as values, not mutated in place (`push`, `deviceInfo =`, `startConnected =`). The edited device is the looked-up device with those fields replaced.
- Resources.Options.Validate: when validate aborts, the contract does not state which of cpu, mem and sda it had already written, because the process ends there.
- Resources.Options.Validate: debug output and the password prompt in validate are not modelled.
