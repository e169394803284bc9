/** The single-node (direct-mode) topology tracker. The members it inherits from
    its abstract base (the description slot, the closed flag, publishing a change
    event, creating a server, the base close) are fields and methods of the same
    class. Construction, the server-change callback and close are each tied to
    their transition in ClusterModel and keep that model's invariant; the
    helpers that change state are building blocks that do not keep it on their
    own. */
module SingleServer {
  import opened Connection
  import opened ClusterModel

  class SingleServerCluster {
    var closed: bool
    /** The current description slot. */
    var description: ClusterDescription
    /** The cluster-level events handed to fireChangeEvent, oldest first. */
    var events: seq<ChangeEvent<ClusterDescription>>
    /** The one server this tracker owns. */
    const server: Server

    /** The tracker's observable state as a value. */
    ghost function State(): ClusterState
      reads this, server
    {
      ClusterState(closed, description, events, server.closeCount)
    }

    ghost predicate Valid()
      reads this, server
    {
      Consistent(State())
    }

    /** The server factory: a fresh server for `address` whose monitor has so far
        reported `reported`. */
    static method CreateServer(address: ServerAddress, reported: ServerDescription) returns (s: Server)
      ensures fresh(s)
      ensures s.address == address && s.description == reported && s.closeCount == 0
    {
      s := new Server(address, reported);
    }

    /** Construction once the settings have passed validation: create the server
        for the one host, then seed the description from what it reports. */
    constructor (settings: ClusterSettings, reported: ServerDescription)
      requires CheckSettings(settings).Success?
      ensures Valid() && State() == Initial(reported)
      ensures fresh(server)
      ensures server.address == settings.hosts[0] && server.description == reported
    {
      closed := false;
      events := [];
      var created := CreateServer(settings.hosts[0], reported);
      server := created;
      new;
      UpdateDescriptionFromServer();
    }

    /** The source's constructor: it fails on settings with other than one host or
        a mode other than Single, and otherwise yields an open tracker whose
        description is the new server's report in Single mode. */
    static method Create(settings: ClusterSettings, reported: ServerDescription) returns (r: Result<SingleServerCluster>)
      ensures r.Failure? <==> !(|settings.hosts| == 1 && settings.mode == Single)
      ensures r.Failure? ==> Failure(r.error) == CheckSettings(settings)
      ensures r.Success? ==> fresh(r.value) && fresh(r.value.server) && r.value.Valid()
      ensures r.Success? ==> r.value.State() == Initial(reported)
      ensures r.Success? ==> r.value.server.address == settings.hosts[0]
      ensures r.Success? ==> r.value.server.description == reported
    {
      var checked := CheckSettings(settings);
      if checked.Failure? {
        r := Failure(checked.error);
      } else {
        var cluster := new SingleServerCluster(settings, reported);
        r := Success(cluster);
      }
    }

    /** The base class's installation of a new description. */
    method UpdateDescription(newDescription: ClusterDescription)
      modifies this`description
      ensures description == newDescription
    {
      description := newDescription;
    }

    /** Installs a server's report as a one-server, Single-mode description. */
    method UpdateServerDescription(sd: ServerDescription)
      modifies this`description
      ensures description == ClusterDescription([sd], Single)
    {
      UpdateDescription(SingleDescription(sd));
    }

    /** Installs what the owned server currently reports. */
    method UpdateDescriptionFromServer()
      modifies this`description
      ensures description == ClusterDescription([server.description], Single)
    {
      var sd := server.GetDescription();
      UpdateServerDescription(sd);
    }

    method GetDescriptionNoWaiting() returns (d: ClusterDescription)
      ensures d == description
    {
      d := description;
    }

    method IsClosed() returns (b: bool)
      ensures b == closed
    {
      b := closed;
    }

    /** The base class's publication of a cluster-level change event. */
    method FireChangeEvent(event: ChangeEvent<ClusterDescription>)
      modifies this`events
      ensures events == old(events) + [event]
    {
      events := events + [event];
    }

    /** The listener the owned server calls when its description changes. The
        published event is built from the cluster descriptions before and after
        the update, not from the server's event. */
    method StateChanged(event: ChangeEvent<ServerDescription>)
      requires Valid()
      modifies this`description, this`events
      ensures Valid()
      ensures State() == OnServerChange(old(State()), event.newValue)
      ensures description == ClusterDescription([event.newValue], Single)
      ensures events == old(events) + [ChangeEvent(old(description), description)]
    {
      var oldDescription := GetDescriptionNoWaiting();
      UpdateServerDescription(event.newValue);
      var newDescription := GetDescriptionNoWaiting();
      FireChangeEvent(ChangeEvent(oldDescription, newDescription));
      ServerChangeConsistent(old(State()), event.newValue);
    }

    /** Fails once the tracker is closed; otherwise the one server, whatever
        address is asked for. */
    method GetServer(address: ServerAddress) returns (r: Result<Server>)
      ensures closed ==> r == Failure(AssertionFailed("open"))
      ensures !closed ==> r == Success(server)
    {
      var isClosed := IsClosed();
      if isClosed {
        r := Failure(AssertionFailed("open"));
      } else {
        r := Success(server);
      }
    }

    /** The base class's close: marks the tracker closed. */
    method BaseClose()
      modifies this`closed
      ensures closed
    {
      closed := true;
    }

    /** Closes the server and then the tracker, on the first call only. */
    method Close()
      requires Valid()
      modifies this`closed, server`closeCount
      ensures Valid()
      ensures State() == OnClose(old(State()))
      ensures closed && server.closeCount == 1
      ensures old(closed) ==> server.closeCount == old(server.closeCount)
    {
      var isClosed := IsClosed();
      if !isClosed {
        server.Close();
        BaseClose();
      }
      CloseEffect(old(State()));
    }
  }
}
