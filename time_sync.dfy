/** The clock check: the exchange's server time against the local clock, in milliseconds. */
module TimeSync {
  /** How far apart, in milliseconds, server and local time may be and still count as synchronized
      (the tolerance is strict: a difference of exactly one second is out of sync). */
  const ToleranceMs: int := 1000

  const TestnetUrl: string := "https://testnet.binancefuture.com"
  const MainnetUrl: string := "https://fapi.binance.com"
  const TimePath: string := "/fapi/v1/time"

  /** The server-time endpoint of the testnet or of the main exchange. */
  function TimeEndpoint(testnet: bool): string
  {
    (if testnet then TestnetUrl else MainnetUrl) + TimePath
  }

  /** What the GET request for the server time gave: a `serverTime` field, or an exception
      (a connection failure, a timeout, a body without the field) with its message. */
  datatype TimeReply = ServerTime(ms: int) | Failure(message: string)

  datatype SyncStatus = Ok | OutOfSync | Error

  /** The dictionary `check_time_sync` returns: the measured one, or the one from its handler. */
  datatype SyncReport =
    | Measured(synced: bool, timeDiffMs: int, serverTime: int, localTime: int, status: SyncStatus)
    | Errored(synced: bool, error: string, status: SyncStatus)

  function Abs(x: int): (r: nat)
    ensures r == x || r == -x
  {
    if x < 0 then -x else x
  }

  /** `check_time_sync(testnet)`, when the server answers `fetch(url)` for the requested `url` and
      the local clock reads `localMs` milliseconds after the reply arrived. */
  function CheckTimeSync(testnet: bool, fetch: string -> TimeReply, localMs: int): (r: SyncReport)
    // an exception gives the error report, and only an exception does
    ensures r.Errored? <==> fetch(TimeEndpoint(testnet)).Failure?
    ensures r.Errored? ==> !r.synced && r.status == Error && r.error == fetch(TimeEndpoint(testnet)).message
    // otherwise both times are reported, with their difference
    ensures r.Measured? ==>
      && r.serverTime == fetch(TimeEndpoint(testnet)).ms && r.localTime == localMs
      && r.timeDiffMs == r.serverTime - r.localTime
    // synchronized exactly when the difference is less than one second either way
    ensures r.Measured? ==> (r.synced <==> -ToleranceMs < r.timeDiffMs < ToleranceMs)
    // the status agrees with `synced`
    ensures r.status == Ok <==> r.synced
    ensures r.status == OutOfSync <==> r.Measured? && !r.synced
  {
    match fetch(TimeEndpoint(testnet))
    case Failure(message) => Errored(false, message, Error)
    case ServerTime(serverTime) =>
      var diff := serverTime - localMs;
      Measured(Abs(diff) < ToleranceMs, diff, serverTime, localMs, if Abs(diff) < ToleranceMs then Ok else OutOfSync)
  }
}
