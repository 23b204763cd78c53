/** The SystemConfiguration reachability flags (SCNetworkReachabilityFlags) as
    a 32-bit unsigned mask, and the optional answer of one flag query. */
module Flags {

  /** What SCNetworkReachabilityGetFlags hands back: an unsigned 32-bit mask. */
  type Mask = bv32

  /** The answer of one flag query: None when the OS call failed. */
  datatype Option<+T> = None | Some(value: T)

  const TransientConnection: Mask := 1 << 0
  const Reachable: Mask := 1 << 1
  const ConnectionRequired: Mask := 1 << 2
  const ConnectionOnTraffic: Mask := 1 << 3
  const InterventionRequired: Mask := 1 << 4
  const ConnectionOnDemand: Mask := 1 << 5
  const IsLocalAddress: Mask := 1 << 16
  const IsDirect: Mask := 1 << 17
  const IsWWAN: Mask := 1 << 18

  /** Every flag the library looks at, in SystemConfiguration's bit order. */
  const AllFlags: seq<Mask> := [TransientConnection, Reachable, ConnectionRequired,
    ConnectionOnTraffic, InterventionRequired, ConnectionOnDemand,
    IsLocalAddress, IsDirect, IsWWAN]

  /** `(flags and flag) != 0u` */
  predicate Has(flags: Mask, flag: Mask) {
    flags & flag != 0
  }

  /** The named flags are nine distinct single bits, so testing one never
      observes another. */
  lemma FlagsAreDistinctSingleBits()
    ensures |AllFlags| == 9
    ensures forall i :: 0 <= i < |AllFlags| ==> AllFlags[i] != 0 && AllFlags[i] & (AllFlags[i] - 1) == 0
    ensures forall i, j :: 0 <= i < j < |AllFlags| ==> AllFlags[i] & AllFlags[j] == 0
  {
  }
}
