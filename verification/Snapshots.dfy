/** What a scan of a host collects, as far as the drift check and the evidence pipeline read it. */
module Snapshots {

  datatype PackageUpdate = PackageUpdate(
    name: string,
    candidateVersion: string,
    securityUpdate: bool,
    rebootHint: bool)

  datatype HostSnapshot = HostSnapshot(
    commands: set<string>,
    evidenceStates: set<string>,
    updates: seq<PackageUpdate>,
    pendingPackageUpdates: nat,
    rebootRequiredNow: bool,
    failedUnits: seq<string>,
    diskUsagePercent: real)
}
