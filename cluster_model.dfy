/** The direct-mode topology tracker as a state machine on values: the settings
    check, the initial state, the server-change transition, close, and what
    holds over any run of them. The class in module SingleServer is proved to
    follow these transitions exactly. */
module ClusterModel {
  import opened Connection

  /** Everything a direct-mode tracker's operations can observe or change:
      the closed flag, the current description slot, the events handed to
      fireChangeEvent in order, and how often the owned server was closed. */
  datatype ClusterState = ClusterState(
    closed: bool,
    description: ClusterDescription,
    events: seq<ChangeEvent<ClusterDescription>>,
    serverCloseCount: nat)

  /** Construction's validation: exactly one host is checked first, then Single
      mode; on success it yields the host the one server is created for. */
  function CheckSettings(settings: ClusterSettings): (r: Result<ServerAddress>)
    ensures r.Success? <==> |settings.hosts| == 1 && settings.mode == Single
    ensures r.Success? ==> r.value == settings.hosts[0]
    ensures |settings.hosts| != 1 ==> r == Failure(AssertionFailed("one server in a direct cluster"))
    ensures |settings.hosts| == 1 && settings.mode != Single ==> r == Failure(AssertionFailed("connection mode is single"))
  {
    if |settings.hosts| != 1 then Failure(AssertionFailed("one server in a direct cluster"))
    else if settings.mode != Single then Failure(AssertionFailed("connection mode is single"))
    else Success(settings.hosts[0])
  }

  /** The state right after construction, seeded from what the new server reports. */
  function Initial(reported: ServerDescription): ClusterState
  {
    ClusterState(false, SingleDescription(reported), [], 0)
  }

  /** The server-change callback: remember the old description, install the new
      report wrapped in Single mode, then publish (old, new) of the cluster. */
  function OnServerChange(s: ClusterState, sd: ServerDescription): ClusterState
  {
    var oldDescription := s.description;
    var updated := s.(description := SingleDescription(sd));
    updated.(events := updated.events + [ChangeEvent(oldDescription, updated.description)])
  }

  /** close: on an open tracker, close the server and then mark the tracker closed;
      on a closed one, nothing. */
  function OnClose(s: ClusterState): ClusterState
  {
    if s.closed then s
    else
      var serverClosed := s.(serverCloseCount := s.serverCloseCount + 1);
      serverClosed.(closed := true)
  }

  /** Each event starts where the previous one ended. */
  predicate Chained(events: seq<ChangeEvent<ClusterDescription>>)
  {
    forall i :: 0 < i < |events| ==> events[i].oldValue == events[i - 1].newValue
  }

  /** The invariant every reachable state keeps. */
  predicate Consistent(s: ClusterState)
  {
    && IsSingle(s.description)
    && (forall i :: 0 <= i < |s.events| ==> IsSingle(s.events[i].oldValue) && IsSingle(s.events[i].newValue))
    && Chained(s.events)
    && (|s.events| > 0 ==> s.events[|s.events| - 1].newValue == s.description)
    && s.serverCloseCount == (if s.closed then 1 else 0)
  }

  lemma InitialState(reported: ServerDescription)
    ensures Consistent(Initial(reported))
    ensures !Initial(reported).closed && Initial(reported).serverCloseCount == 0
    ensures Initial(reported).description == ClusterDescription([reported], Single)
    ensures Initial(reported).events == []
  {
  }

  /** One server change installs exactly the wrapped report and appends exactly
      one event, from the description before to the description after. */
  lemma ServerChangeEffect(s: ClusterState, sd: ServerDescription)
    ensures OnServerChange(s, sd).description == ClusterDescription([sd], Single)
    ensures |OnServerChange(s, sd).events| == |s.events| + 1
    ensures OnServerChange(s, sd).events[..|s.events|] == s.events
    ensures OnServerChange(s, sd).events[|s.events|] == ChangeEvent(s.description, OnServerChange(s, sd).description)
    ensures OnServerChange(s, sd).closed == s.closed
    ensures OnServerChange(s, sd).serverCloseCount == s.serverCloseCount
  {
  }

  lemma ServerChangeConsistent(s: ClusterState, sd: ServerDescription)
    requires Consistent(s)
    ensures Consistent(OnServerChange(s, sd))
  {
  }

  /** close leaves the tracker closed with its server closed exactly once, and
      touches neither the description nor the events. */
  lemma CloseEffect(s: ClusterState)
    requires Consistent(s)
    ensures Consistent(OnClose(s))
    ensures OnClose(s).closed && OnClose(s).serverCloseCount == 1
    ensures OnClose(s).description == s.description && OnClose(s).events == s.events
    ensures s.closed ==> OnClose(s) == s
  {
  }

  lemma CloseIdempotent(s: ClusterState)
    ensures OnClose(OnClose(s)) == OnClose(s)
  {
  }

  /** N server changes delivered one after another. */
  function ApplyChanges(s: ClusterState, sds: seq<ServerDescription>): ClusterState
    decreases |sds|
  {
    if sds == [] then s else ApplyChanges(OnServerChange(s, sds[0]), sds[1..])
  }

  /** The events N server changes publish when the description starts at `prev`. */
  function EventsFor(prev: ClusterDescription, sds: seq<ServerDescription>): seq<ChangeEvent<ClusterDescription>>
    decreases |sds|
  {
    if sds == [] then []
    else [ChangeEvent(prev, SingleDescription(sds[0]))] + EventsFor(SingleDescription(sds[0]), sds[1..])
  }

  /** The i-th of N events goes from the (i-1)-th report (or the starting
      description) to the i-th report. */
  lemma {:induction false} EventsForShape(prev: ClusterDescription, sds: seq<ServerDescription>)
    ensures |EventsFor(prev, sds)| == |sds|
    ensures forall i :: 0 <= i < |sds| ==> EventsFor(prev, sds)[i].newValue == SingleDescription(sds[i])
    ensures forall i :: 0 <= i < |sds| ==>
      EventsFor(prev, sds)[i].oldValue == (if i == 0 then prev else SingleDescription(sds[i - 1]))
    decreases |sds|
  {
    if sds != [] {
      var rest := EventsFor(SingleDescription(sds[0]), sds[1..]);
      EventsForShape(SingleDescription(sds[0]), sds[1..]);
      assert EventsFor(prev, sds) == [ChangeEvent(prev, SingleDescription(sds[0]))] + rest;
      forall i | 0 < i < |sds|
        ensures EventsFor(prev, sds)[i].newValue == SingleDescription(sds[i])
        ensures EventsFor(prev, sds)[i].oldValue == SingleDescription(sds[i - 1])
      {
        assert EventsFor(prev, sds)[i] == rest[i - 1];
        assert sds[1..][i - 1] == sds[i];
        if i > 1 {
          assert sds[1..][i - 2] == sds[i - 1];
        }
      }
    }
  }

  /** N server changes leave the flag and the server alone, install the last
      report, and append exactly the events EventsFor describes. */
  lemma {:induction false} ApplyChangesEffect(s: ClusterState, sds: seq<ServerDescription>)
    ensures ApplyChanges(s, sds).closed == s.closed
    ensures ApplyChanges(s, sds).serverCloseCount == s.serverCloseCount
    ensures ApplyChanges(s, sds).description ==
      (if sds == [] then s.description else SingleDescription(sds[|sds| - 1]))
    ensures ApplyChanges(s, sds).events == s.events + EventsFor(s.description, sds)
    decreases |sds|
  {
    if sds != [] {
      var next := OnServerChange(s, sds[0]);
      ApplyChangesEffect(next, sds[1..]);
      assert next.events == s.events + [ChangeEvent(s.description, SingleDescription(sds[0]))];
      if |sds| > 1 {
        assert sds[1..][|sds[1..]| - 1] == sds[|sds| - 1];
      }
    }
  }

  /** Starting from construction, N server changes publish exactly N events:
      the first leaves the seeded description, the i-th arrives at the i-th
      report, and each starts where the previous one ended. */
  lemma ChangesAfterConstruction(reported: ServerDescription, sds: seq<ServerDescription>)
    ensures |ApplyChanges(Initial(reported), sds).events| == |sds|
    ensures Chained(ApplyChanges(Initial(reported), sds).events)
    ensures |sds| > 0 ==> ApplyChanges(Initial(reported), sds).events[0].oldValue == SingleDescription(reported)
    ensures forall i :: 0 <= i < |sds| ==> ApplyChanges(Initial(reported), sds).events[i].newValue == SingleDescription(sds[i])
    ensures !ApplyChanges(Initial(reported), sds).closed
    ensures ApplyChanges(Initial(reported), sds).serverCloseCount == 0
  {
    var start := SingleDescription(reported);
    ApplyChangesEffect(Initial(reported), sds);
    EventsForShape(start, sds);
    var events := EventsFor(start, sds);
    assert ApplyChanges(Initial(reported), sds).events == events;
    forall i | 0 < i < |events|
      ensures events[i].oldValue == events[i - 1].newValue
    {
    }
  }

  /** The operations that change a tracker after construction. */
  datatype Op = ServerChanged(sd: ServerDescription) | Close

  function Step(s: ClusterState, op: Op): ClusterState
  {
    match op
    case ServerChanged(sd) => OnServerChange(s, sd)
    case Close => OnClose(s)
  }

  function Run(s: ClusterState, ops: seq<Op>): ClusterState
    decreases |ops|
  {
    if ops == [] then s else Run(Step(s, ops[0]), ops[1..])
  }

  /** Every state reachable from construction is consistent; in particular the
      server is closed at most once, and exactly once when the tracker is closed. */
  lemma {:induction false} RunConsistent(s: ClusterState, ops: seq<Op>)
    requires Consistent(s)
    ensures Consistent(Run(s, ops))
    ensures Run(s, ops).serverCloseCount <= 1
    ensures Run(s, ops).closed <==> Run(s, ops).serverCloseCount == 1
    decreases |ops|
  {
    if ops != [] {
      match ops[0] {
        case ServerChanged(sd) => ServerChangeConsistent(s, sd);
        case Close => CloseEffect(s);
      }
      RunConsistent(Step(s, ops[0]), ops[1..]);
    }
  }

  /** Once closed, a tracker stays closed with its server closed once, whatever follows. */
  lemma {:induction false} ClosedStaysClosed(s: ClusterState, ops: seq<Op>)
    requires Consistent(s) && s.closed
    ensures Run(s, ops).closed && Run(s, ops).serverCloseCount == 1
    decreases |ops|
  {
    if ops != [] {
      match ops[0] {
        case ServerChanged(sd) => ServerChangeConsistent(s, sd);
        case Close => CloseEffect(s);
      }
      ClosedStaysClosed(Step(s, ops[0]), ops[1..]);
    }
  }
}
