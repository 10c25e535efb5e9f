/**
 The network requests the observer sees and the four categories it counts them by.
 A request is reduced to what classification reads: its identifier, the
 NOT_METERED capability, the WIFI and CELLULAR transports and the requested
 downstream bandwidth in kbps.
 */
module Requests {

  datatype Request = Request(id: int, notMetered: bool, wifi: bool, cellular: bool, downKbps: int)

  datatype Category = Unmetered | HighBandwidth | Wifi | Cellular {
    /** Position of the category in the order the observer tests and reports them. */
    function Rank(): nat {
      match this
      case Unmetered => 0
      case HighBandwidth => 1
      case Wifi => 2
      case Cellular => 3
    }
  }

  /** The categories in rank order. */
  const CategoryOrder: seq<Category> := [Unmetered, HighBandwidth, Wifi, Cellular]

  /** The best bandwidth a Bluetooth proxy offers; strictly more is "high bandwidth". */
  const HIGH_BANDWIDTH_KBPS: int := 200 * 1024

  /** The classification predicate of each category. */
  predicate Matches(c: Category, r: Request) {
    match c
    case Unmetered => r.notMetered
    case HighBandwidth => r.downKbps > HIGH_BANDWIDTH_KBPS
    case Wifi => r.wifi
    case Cellular => r.cellular
  }

  /** CategoryOrder lists every category once, each at the position its rank gives. */
  lemma CategoryOrderIsComplete(c: Category)
    ensures |CategoryOrder| == 4
    ensures c.Rank() < 4 && CategoryOrder[c.Rank()] == c
  {
  }

  /** The bandwidth comparison is strict: 204800 kbps is not high bandwidth, 204801 is. */
  lemma HighBandwidthIsStrict(r: Request)
    ensures r.downKbps == 204800 ==> !Matches(HighBandwidth, r)
    ensures r.downKbps == 204801 ==> Matches(HighBandwidth, r)
  {
  }
}
