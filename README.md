# SingleServerCluster, modelled in Dafny

This project models the direct-mode (single-node) topology tracker of the MongoDB
Java driver, `SingleServerCluster`. The tracker owns exactly one monitored server
and keeps one current `ClusterDescription`: that server's latest
`ServerDescription` in `Single` connection mode. It republishes every server-level
change as a cluster-level change event built from (old cluster description, new
cluster description). `getServer` fails once the tracker is closed. `close` is
idempotent.

Files:

- `connection.dfy` (module `Connection`): the types the tracker uses.
  `ServerAddress` and `ServerDescription` are opaque. `ClusterDescription`,
  `ChangeEvent<T>`, `ClusterSettings` and the connection mode are datatypes.
  `Error` is the failure `isTrue(name, condition)` raises, with the checked
  condition's name. `Server` is the owned server, which counts how often its
  close path ran.
- `cluster_model.dfy` (module `ClusterModel`): the tracker as a state machine on
  values. It holds the settings check, the state after construction, the
  server-change transition and close. It also holds the invariant `Consistent`
  and lemmas about single steps and about whole runs.
- `single_server_cluster.dfy` (module `SingleServer`): the class
  `SingleServerCluster`. Its fields are the closed flag, the description slot,
  the log of events handed to `fireChangeEvent`, and the owned server. The
  members it inherits from its abstract base are methods of the same class:
  `updateDescription(ClusterDescription)`, `fireChangeEvent`, `isClosed`,
  `createServer` and the base `close`. Construction, the server-change callback
  `StateChanged` and `Close` each state their exact new state as a
  `ClusterModel` transition of the old one, and each keeps `Valid()`, which is
  `Consistent` of the current state. The helpers that change state
  (the base `UpdateDescription`, the two `updateDescription` overloads
  `UpdateServerDescription` and `UpdateDescriptionFromServer`,
  `FireChangeEvent` and `BaseClose`; private or protected in the source) are
  building blocks: each states exactly what it changes, but none keeps
  `Valid()` on its own. The read-only helpers `GetDescriptionNoWaiting` and
  `IsClosed` change nothing.

The functions `ClusterModel.Initial`, `ClusterModel.OnServerChange` and
`ClusterModel.OnClose` are the specifying functions of the constructor,
`StateChanged` and `Close` (SingleServerCluster.java:47-56, 49-53 and 76-81).
Their properties are stated by the lemmas in the table below.

Construction in the source is a throwing constructor. Here it is the static
method `Create`, which returns a `Result`. It validates the settings and, only
if they pass, runs the Dafny constructor. The constructor therefore requires
settings that passed validation. The server factory is `CreateServer`. The
description the new server's monitor has reported so far is a parameter
(`reported`).

The server-change callback is the method `StateChanged`. It is an ordinary
method that can be called at any time after construction.

`BaseCluster.updateDescription(ClusterDescription)` is not part of this model.
The callback publishes its own event (SingleServerCluster.java:52), so the model
takes the base update to publish nothing. The seeding at line 56 therefore leaves
the event log empty, and each server change adds exactly one event.

## Model

| member | source | states |
|---|---|---|
| ClusterModel.CheckSettings | driver/src/main/org/mongodb/connection/impl/SingleServerCluster.java:42-43 | validation passes exactly when there is one host and the mode is Single, and then yields `hosts[0]`; a wrong host count fails with "one server in a direct cluster" and is checked first; otherwise a wrong mode fails with "connection mode is single" |
| SingleServer.SingleServerCluster.Create | driver/src/main/org/mongodb/connection/impl/SingleServerCluster.java:40-58 | construction fails, with the validation's error, exactly when the settings do not name one host in Single mode; on success the tracker is fresh, consistent, open, has an empty event log, holds `ClusterDescription([reported], Single)`, and owns a fresh server created for `hosts[0]` whose current report is `reported`, so the description is that server's report in Single mode |
| SingleServer.SingleServerCluster.constructor | driver/src/main/org/mongodb/connection/impl/SingleServerCluster.java:46-57 | after the server is created for `hosts[0]` and the description is seeded from its report, the state is `ClusterModel.Initial(reported)` and the server is fresh and unclosed |
| SingleServer.SingleServerCluster.CreateServer | driver/src/main/org/mongodb/connection/impl/SingleServerCluster.java:47 | the factory yields a fresh server for the given address that carries the given report and has never been closed |
| SingleServer.SingleServerCluster.UpdateServerDescription | driver/src/main/org/mongodb/connection/impl/SingleServerCluster.java:60-62 | the slot becomes exactly one server, that report, in Single mode; only the slot changes |
| SingleServer.SingleServerCluster.UpdateDescriptionFromServer | driver/src/main/org/mongodb/connection/impl/SingleServerCluster.java:64-66 | the slot becomes the owned server's current report in Single mode; only the slot changes |
| SingleServer.SingleServerCluster.StateChanged | driver/src/main/org/mongodb/connection/impl/SingleServerCluster.java:49-53 | the new state is `OnServerChange` of the old state: the slot becomes `ClusterDescription([event.newValue], Single)`, exactly one event (old slot, new slot) is appended, the closed flag and the server are untouched, and `Valid()` is kept |
| SingleServer.SingleServerCluster.GetServer | driver/src/main/org/mongodb/connection/impl/SingleServerCluster.java:69-73 | on a closed tracker it fails with the "open" assertion; on an open one it returns the owned server, for every address; it changes nothing |
| SingleServer.SingleServerCluster.Close | driver/src/main/org/mongodb/connection/impl/SingleServerCluster.java:76-81 | the new state is `OnClose` of the old state: afterwards the tracker is closed and the server has been closed exactly once; a second call leaves the server's close count as it was |
| SingleServer.SingleServerCluster.GetDescriptionNoWaiting | driver/src/main/org/mongodb/connection/impl/SingleServerCluster.java:50-52 | returns the current description slot and changes nothing; it supplies both values of every published event |
| SingleServer.SingleServerCluster.UpdateDescription | driver/src/main/org/mongodb/connection/impl/SingleServerCluster.java:61 | the base update: the slot becomes exactly the given description; only the slot changes |
| SingleServer.SingleServerCluster.FireChangeEvent | driver/src/main/org/mongodb/connection/impl/SingleServerCluster.java:52 | the given event is appended to the published log, after all earlier events; only the log changes |
| SingleServer.SingleServerCluster.IsClosed | driver/src/main/org/mongodb/connection/impl/SingleServerCluster.java:77 | returns the closed flag and changes nothing |
| SingleServer.SingleServerCluster.BaseClose | driver/src/main/org/mongodb/connection/impl/SingleServerCluster.java:79 | the base close: the tracker is marked closed; only the flag changes |
| Connection.Server.GetDescription | driver/src/main/org/mongodb/connection/impl/SingleServerCluster.java:65 | returns the server's last observed report and changes nothing |
| Connection.Server.Close | driver/src/main/org/mongodb/connection/impl/SingleServerCluster.java:78 | the server's close count goes up by exactly one; nothing else changes |
| ClusterModel.InitialState | driver/src/main/org/mongodb/connection/impl/SingleServerCluster.java:47-56 | right after construction the tracker is open, its server unclosed, its description `ClusterDescription([reported], Single)`, no event published, and the invariant holds |
| ClusterModel.ServerChangeEffect | driver/src/main/org/mongodb/connection/impl/SingleServerCluster.java:50-52 | one server change installs exactly the wrapped report and appends exactly one event whose old value is the slot before and whose new value is the slot after; earlier events, the flag and the server are unchanged |
| ClusterModel.ServerChangeConsistent | driver/src/main/org/mongodb/connection/impl/SingleServerCluster.java:49-53 | a server change keeps the invariant: a one-server Single slot, events between single descriptions that chain, the last event ending at the slot, and the server closed exactly when the tracker is |
| ClusterModel.CloseEffect | driver/src/main/org/mongodb/connection/impl/SingleServerCluster.java:76-81 | close keeps the invariant, leaves the tracker closed with the server closed exactly once, leaves description and events alone, and on a closed tracker changes nothing |
| ClusterModel.CloseIdempotent | driver/src/main/org/mongodb/connection/impl/SingleServerCluster.java:77 | closing twice is the same as closing once |
| ClusterModel.EventsForShape | driver/src/main/org/mongodb/connection/impl/SingleServerCluster.java:50-52 | over N reports, the i-th event goes from the (i-1)-th report (the starting description for i = 0) to the i-th report, each wrapped in Single mode |
| ClusterModel.ApplyChangesEffect | driver/src/main/org/mongodb/connection/impl/SingleServerCluster.java:49-53 | N server changes keep the flag and the server, install the last report, and append exactly the N events `EventsFor` gives |
| ClusterModel.ChangesAfterConstruction | driver/src/main/org/mongodb/connection/impl/SingleServerCluster.java:47-56 | after construction and N server changes, exactly N events were published: the first leaves the seeded description, the i-th reaches the i-th report, each starts where the previous one ended, and the tracker is still open with its server unclosed |
| ClusterModel.RunConsistent | driver/src/main/org/mongodb/connection/impl/SingleServerCluster.java:76-81 | over any sequence of server changes and closes, the invariant holds; the server's close count never exceeds 1 and is 1 exactly when the tracker is closed |
| ClusterModel.ClosedStaysClosed | driver/src/main/org/mongodb/connection/impl/SingleServerCluster.java:77-80 | once the tracker is closed, no later server change or close reopens it or closes the server again |

## Left out

- Locking: the `synchronized (this)` block in the constructor (lines 46-57) and the `synchronized` modifier on `updateDescription` (line 60) exist only for thread safety of the callback that can run during construction. The model is sequential, and the callback is an ordinary method called after construction.
- The base class's blocking `getDescription(timeout)`, its wait/notify and its timeouts are concurrency concerns. That base class is not part of this model.
- Whether the base class suppresses updates or event delivery after close is not modelled either way. The callback (lines 49-53) has no closed check, so `StateChanged` updates the slot and hands the event to `fireChangeEvent` on an open or a closed tracker alike. The `events` field records what was handed to `fireChangeEvent`. It does not record what external listeners received, and listener registration and fan-out are not modelled.
- The server's monitoring loop, the server factory and network behaviour are foreign collaborators. `CreateServer` yields a fresh server with an arbitrary report, given as a parameter. The monitor's updates of the server's own description are not modelled.
- The unseeded description slot (null in the base class) is not modelled. Because re-entrancy is dropped, the callback in the model runs only after construction, so the unseeded slot is never read. In the source it can be: a callback fired inside `createServer` (line 47), before the seeding at line 56, reads the slot at line 50 and can publish an event whose old value is that unseeded placeholder.
- `Error`: `isTrue` is modelled as a failure that carries the checked condition's name. The exact exception class and message text the assertion helper builds are not modelled, because that helper is not part of this model.
- `ClusterConnectionMode` is modelled as Single, ReplicaSet or Sharded. The source's enum is not part of this model. Only the distinction between Single and the other modes matters here.
- driver/src/main/org/mongodb/operation/WriteResult.java is an immutable holder with a constructor and two getters, and it has no logic to verify.
