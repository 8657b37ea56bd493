/** The entries of a routing snapshot, one per worker and model. */
module RoutingSnapshot {

  datatype WorkerView = WorkerView(id: string, endpoint: string, baseModel: string, adapter: string,
                                   healthy: bool, ready: bool, queueDepth: nat, inFlight: nat, maxContext: nat,
                                   costPerHour: real, costClass: string, runtime: string, vramGB: real, gpu: string,
                                   capabilities: map<string, string>)
}
