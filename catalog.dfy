/**
 * Internet packages: the bandwidth, price and router-side settings a subscription is sold
 * under.
 */
module Catalog {
  import opened Common

  /** A row of the `packages` table; bandwidths and burst values are in Mbps, burst time in seconds. */
  datatype Package = Package(
    name: string,
    download: int,
    upload: int,
    price: Cents,
    queueName: string,
    burstLimitDownload: Option<int>,
    burstLimitUpload: Option<int>,
    burstThresholdDownload: Option<int>,
    burstThresholdUpload: Option<int>,
    burstTime: Option<int>,
    priority: int)
}
