/** The commands of the wire protocol: their numbers, their sizes and which of them carry data. */
module Commands {
  import opened Windows

  const ACKNOWLEDGE: nat := 1
  const CONNECT: nat := 2
  const VERIFY_CONNECT: nat := 3
  const DISCONNECT: nat := 4
  const PING: nat := 5
  const SEND_RELIABLE: nat := 6
  const SEND_UNRELIABLE: nat := 7
  const SEND_FRAGMENT: nat := 8
  const SEND_UNSEQUENCED: nat := 9
  const BANDWIDTH_LIMIT: nat := 10
  const THROTTLE_CONFIGURE: nat := 11
  const SEND_UNRELIABLE_FRAGMENT: nat := 12
  const COMMAND_COUNT: nat := 13

  const HEADER_SIZE: nat := 4
  const CHECKSUM_SIZE: nat := 8

  const MAXIMUM_MTU: nat := 4096
  const MINIMUM_MTU: nat := 576
  const MAXIMUM_COMMANDS: nat := 32
  const MAXIMUM_BUFFERS: nat := 65

  /** The fixed part of each command, in bytes; 0 for what is no command. */
  function SizeOf(kind: nat): (size: nat)
    ensures size <= 48
  {
    match kind
    case 1 => 8
    case 2 => 48
    case 3 => 44
    case 4 => 8
    case 5 => 4
    case 6 => 6
    case 7 => 8
    case 8 => 24
    case 9 => 8
    case 10 => 12
    case 11 => 16
    case 12 => 24
    case _ => 0
  }

  predicate CarriesData(kind: nat) {
    kind in {SEND_RELIABLE, SEND_UNRELIABLE, SEND_FRAGMENT, SEND_UNSEQUENCED, SEND_UNRELIABLE_FRAGMENT}
  }

  /** The most data one command may carry: what is left of a datagram after its header, the
      longest data command and one acknowledgement. */
  function FragmentLimit(mtu: nat, checksum: bool): (limit: nat)
    requires MINIMUM_MTU <= mtu
    ensures 1 <= limit
  {
    mtu - HEADER_SIZE - SizeOf(SEND_FRAGMENT) - SizeOf(ACKNOWLEDGE) - (if checksum then CHECKSUM_SIZE else 0)
  }

  type ChannelId = c: int | 0 <= c < 256

  /** An acknowledgement that waits to be sent; `disconnect` says that it is for a disconnect. */
  datatype Due = Due(channel: ChannelId, number: Word16, sentTime: Word16, disconnect: bool)

  ghost predicate AnyDisconnect(dues: seq<Due>) {
    exists i :: 0 <= i < |dues| && dues[i].disconnect
  }

  lemma OneMoreDue(dues: seq<Due>, i: nat)
    requires i < |dues|
    ensures AnyDisconnect(dues[..i + 1]) <==> AnyDisconnect(dues[..i]) || dues[i].disconnect
  {
    if AnyDisconnect(dues[..i]) {
      var k :| 0 <= k < i && dues[..i][k].disconnect;
      assert dues[..i + 1][k].disconnect;
    }
    if dues[i].disconnect { assert dues[..i + 1][i].disconnect; }
  }
}
