// Constants that the probes of latency.probe share.
module Limits {
  // Handshakes of one launch.
  const SAMPLES: nat := 20

  // Diagnostic records of a rank.
  const RECORDS: nat := 1120

  // Polls after which a wait is given up.
  const POLL_LIMIT: nat := 1048576
}
