/** Optional values, results, and the ways a provisioning run can fail. */
module Wrappers {

  datatype Option<+T> = None | Some(value: T)

  datatype Result<+T, +E> = Ok(value: T) | Err(error: E)

  /** The step whose task (or upload) reported failure. */
  datatype Step = CreateStep | CloneStep | PowerOnStep | UploadStep

  /** Every abort of the VM builder, from validation to the remote calls. */
  datatype Error =
    // configuration errors
    | TemplateRequired                  // neither -t nor --custom
    | MutuallyExclusive                 // both -t and --custom
    | UnknownTemplate(name: string)     // no row in the template table
    | MissingField(what: string)        // a nil reached parse_size
    | UnknownUnit(unit: string)         // "Unit X makes no sense!"
    | InvalidSubnet(subnet: string)     // subnet absent from the network map
    | NotAnInteger(text: string)        // Integer(...) refused its argument
    // resources not found by name
    | DatacenterNotFound(dc: string)
    | ClusterNotFound(cluster: string)
    | NoDatastoreMatches(pattern: string)
    | SourceVmNotFound(vm: string)
    | NicNotFound(nicLabel: string)
    | CdromNotFound(cdromLabel: string)
    | PortgroupNotFound(portgroup: string)
    | IsoStoreNotFound(store: string)
    // remote operations
    | TaskFailed(step: Step)
    // "--no-vm selected. Terminating."
    | NoVmSelected
}
