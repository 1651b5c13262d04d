/** Messages between actors. Status and metrics reports carry no payload here. */
module Messages {
  import opened Base
  import opened Ids

  datatype Msg<+T> =
    | User(user: T)
    | ClusterStatus
    | ExecutorStatus
    | StartTimer(ms: nat)
    | CancelTimer(timer: Option<CorrelationId>)
    | Timeout
    | Shutdown
    | GetMetrics
    | Metrics

  datatype Envelope<+T> =
    Envelope(to: Pid, from: Pid, msg: Msg<T>, correlationId: Option<CorrelationId>)
}
