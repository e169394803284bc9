/** Types the single-server topology tracker consumes: snapshots, change events,
    settings, the checked-assertion failure, and the owned server handle. */
module Connection {

  /** An endpoint (host and port); opaque to the tracker. */
  type ServerAddress

  /** A point-in-time report of one server, produced by its monitor; opaque to the tracker. */
  type ServerDescription

  datatype ClusterConnectionMode = Single | ReplicaSet | Sharded

  /** An immutable snapshot of the whole topology. */
  datatype ClusterDescription = ClusterDescription(servers: seq<ServerDescription>, mode: ClusterConnectionMode)

  /** An (old, new) notification about a value of type T. */
  datatype ChangeEvent<T> = ChangeEvent(oldValue: T, newValue: T)

  datatype ClusterSettings = ClusterSettings(hosts: seq<ServerAddress>, mode: ClusterConnectionMode)

  /** The failure `isTrue(name, condition)` raises when its condition is false;
      it carries the name of the condition that was checked. */
  datatype Error = AssertionFailed(name: string)

  datatype Result<T> = Success(value: T) | Failure(error: Error)

  /** The description a direct-mode cluster holds for a server report:
      that one report, in Single mode. */
  function SingleDescription(sd: ServerDescription): ClusterDescription
  {
    ClusterDescription([sd], Single)
  }

  /** A description shaped like a direct-mode cluster's: one server, Single mode. */
  predicate IsSingle(cd: ClusterDescription)
  {
    |cd.servers| == 1 && cd.mode == Single
  }

  /** The monitored server a tracker owns. Its description is updated by its
      monitor, which is not part of this model; `closeCount` counts how often
      its close path ran. */
  class Server {
    const address: ServerAddress
    var description: ServerDescription
    var closeCount: nat

    constructor (address: ServerAddress, reported: ServerDescription)
      ensures this.address == address && description == reported && closeCount == 0
    {
      this.address := address;
      description := reported;
      closeCount := 0;
    }

    /** The last snapshot the monitor observed. */
    method GetDescription() returns (d: ServerDescription)
      ensures d == description
    {
      d := description;
    }

    /** Runs the close path once more. */
    method Close()
      modifies this`closeCount
      ensures closeCount == old(closeCount) + 1
    {
      closeCount := closeCount + 1;
    }
  }
}
