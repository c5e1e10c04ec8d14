/** The heartbeat callback's database update: the reporting server is found
    by uuid (renamed or inserted as needed), a system-info row is added, each
    reported container with both a mount and a pid namespace is ingested
    (a `Container` row when its name is new on the server, an id row unless
    the same ids are already recorded, a stats row), containers that
    disappeared are marked removed, and a `Heartbeat` row counts the report's
    containers. The tables are in-memory sequences; a row's position fixes
    its autoincrement id and the order queries return it in. */
module Heartbeat {
  import opened Values

  datatype ServerRow = ServerRow(id: nat, uuid: Value, name: Value)
  datatype SystemInfoRow = SystemInfoRow(serverId: nat, host: Value, timestamp: Value)
  datatype ContainerRow = ContainerRow(id: nat, hostServer: nat, runtime: Value, name: string, removed: bool)
  datatype IdRow = IdRow(containerIdx: nat, containerId: Value, pid: Value, mnt: Value, cgroup: Value, image: Value)
  datatype StatsRow = StatsRow(containerId: nat, stats: Value, ip: Value)
  datatype HeartbeatRow = HeartbeatRow(uuid: Value, containerCount: nat)

  /** One entry of the heartbeat's `containers` list. */
  datatype ContainerReport = ContainerReport(
    name: string, runtime: Value, pid: Value, mnt: Value, cgroup: Value,
    containerId: Value, image: Value, stats: Value, ip: Value)

  /** The heartbeat message. */
  datatype HeartbeatReport = HeartbeatReport(
    hostUuid: Value, serverName: Value, host: Value, timestamp: Value, containers: seq<ContainerReport>)

  /** The container-side tables. */
  datatype Store = Store(containers: seq<ContainerRow>, ids: seq<IdRow>, stats: seq<StatsRow>)

  /** All tables. */
  datatype Db = Db(servers: seq<ServerRow>, systemInfos: seq<SystemInfoRow>, store: Store, heartbeats: seq<HeartbeatRow>)

  /** What the unique constraint on (host_server, name) raises. */
  const DuplicateContainer := "IntegrityError: Container_host_server_name_key"

  /** What `server.id` raises when `_get_or_create_server` returned None. */
  const NoServerId := "'NoneType' object has no attribute 'id'"

  // ---------------------------------------------------------------- servers

  /** The first server row with this uuid. */
  function FindServer(servers: seq<ServerRow>, uuid: Value): (r: Option<ServerRow>)
    ensures r.Some? ==> r.value in servers && r.value.uuid == uuid
    ensures r.None? ==> forall s :: s in servers ==> s.uuid != uuid
  {
    if servers == [] then None
    else if servers[0].uuid == uuid then Some(servers[0])
    else FindServer(servers[1..], uuid)
  }

  /** `update({"name": name})` on the rows with this id. */
  function Rename(servers: seq<ServerRow>, id: nat, name: Value): (r: seq<ServerRow>)
    ensures |r| == |servers|
    ensures forall i :: 0 <= i < |r| ==> r[i] == if servers[i].id == id then servers[i].(name := name) else servers[i]
  {
    seq(|servers|, i requires 0 <= i < |servers| => if servers[i].id == id then servers[i].(name := name) else servers[i])
  }

  /** What `_get_or_create_server` hands back, and the server table after it. */
  datatype ServerStep = ServerStep(server: Option<ServerRow>, servers: seq<ServerRow>)

  /** `_get_or_create_server` as written: a new uuid is inserted, but the
      function still returns the None its lookup found. */
  function GetOrCreateServerAsWritten(servers: seq<ServerRow>, uuid: Value, name: Value): (r: ServerStep)
    ensures r.server.None? <==> FindServer(servers, uuid).None?
    ensures FindServer(servers, uuid).None? ==> r.servers == servers + [ServerRow(|servers| + 1, uuid, name)]
    ensures r.server.Some? ==> r.server.value.uuid == uuid && r.server.value.name == name
  {
    match FindServer(servers, uuid)
    case Some(s) =>
      if s.name != name then ServerStep(Some(s.(name := name)), Rename(servers, s.id, name))
      else ServerStep(Some(s), servers)
    case None => ServerStep(None, servers + [ServerRow(|servers| + 1, uuid, name)])
  }

  /** `_get_or_create_server` as evidently intended: the inserted row is
      returned. */
  function GetOrCreateServer(servers: seq<ServerRow>, uuid: Value, name: Value): (r: ServerStep)
    ensures r.server.Some? && r.server.value in r.servers
    ensures r.server.value.uuid == uuid && r.server.value.name == name
    ensures |r.servers| == |servers| + (if FindServer(servers, uuid).None? then 1 else 0)
    ensures FindServer(servers, uuid).None? ==>
      && r.servers[..|servers|] == servers
      && r.server == Some(r.servers[|servers|])
      && r.server.value.id == |servers| + 1
    ensures FindServer(servers, uuid).Some? ==>
      var found := FindServer(servers, uuid).value;
      && r.server == Some(found.(name := name))
      && r.servers == if found.name == name then servers else Rename(servers, found.id, name)
  {
    match FindServer(servers, uuid)
    case Some(s) =>
      if s.name != name then
        var i :| 0 <= i < |servers| && servers[i] == s;
        assert Rename(servers, s.id, name)[i] == s.(name := name);
        ServerStep(Some(s.(name := name)), Rename(servers, s.id, name))
      else ServerStep(Some(s), servers)
    case None =>
      var row := ServerRow(|servers| + 1, uuid, name);
      assert (servers + [row])[|servers|] == row;
      ServerStep(Some(row), servers + [row])
  }

  /** The two agree on known servers; on an unknown uuid both insert the
      same row, and only the written one loses it. */
  lemma {:induction false} ServerLookupDiscrepancy(servers: seq<ServerRow>, uuid: Value, name: Value)
    ensures GetOrCreateServerAsWritten(servers, uuid, name).servers == GetOrCreateServer(servers, uuid, name).servers
    ensures FindServer(servers, uuid).Some? ==>
      GetOrCreateServerAsWritten(servers, uuid, name) == GetOrCreateServer(servers, uuid, name)
    ensures FindServer(servers, uuid).None? ==> GetOrCreateServerAsWritten(servers, uuid, name).server.None?
  {
    match FindServer(servers, uuid)
    case Some(s) =>
    case None =>
  }

  // ---------------------------------------------------------- container ids

  /** `_should_update_container_id` */
  predicate ShouldUpdate(latest: Option<IdRow>, c: ContainerReport)
  {
    latest.None? || latest.value.pid != c.pid || latest.value.mnt != c.mnt || latest.value.cgroup != c.cgroup
  }

  /** A row recording exactly these ids for this container. */
  predicate Matches(r: IdRow, containerIdx: nat, c: ContainerReport)
  {
    r.containerIdx == containerIdx && r.pid == c.pid && r.mnt == c.mnt && r.cgroup == c.cgroup
  }

  predicate HasExact(ids: seq<IdRow>, containerIdx: nat, c: ContainerReport)
  {
    exists i :: 0 <= i < |ids| && Matches(ids[i], containerIdx, c)
  }

  /** The most recent id row of a container. */
  function Latest(ids: seq<IdRow>, containerIdx: nat): (r: Option<IdRow>)
    ensures r.Some? ==> r.value in ids && r.value.containerIdx == containerIdx
    ensures r.None? ==> forall i :: 0 <= i < |ids| ==> ids[i].containerIdx != containerIdx
  {
    if ids == [] then None
    else if ids[|ids| - 1].containerIdx == containerIdx then Some(ids[|ids| - 1])
    else Latest(ids[..|ids| - 1], containerIdx)
  }

  function NewIdRow(containerIdx: nat, c: ContainerReport): IdRow
  {
    IdRow(containerIdx, c.containerId, c.pid, c.mnt, c.cgroup, c.image)
  }

  /** `_update_container_ids` on the id table. */
  function UpdateIds(ids: seq<IdRow>, containerIdx: nat, c: ContainerReport): (r: seq<IdRow>)
    ensures ids <= r && |r| <= |ids| + 1
    ensures |r| == |ids| + 1 ==> r[|ids|] == NewIdRow(containerIdx, c) && !HasExact(ids, containerIdx, c)
  {
    if HasExact(ids, containerIdx, c) then ids
    else if ShouldUpdate(Latest(ids, containerIdx), c) then ids + [NewIdRow(containerIdx, c)]
    else ids
  }

  /** When no row holds exactly these ids, every row of the container (the
      latest one whatever the timestamps say) differs from them, so the
      second check always passes: a row is added exactly when no identical
      one exists. */
  lemma {:induction false} IdsAddedUnlessRecorded(ids: seq<IdRow>, containerIdx: nat, c: ContainerReport)
    ensures forall r :: r in ids && r.containerIdx == containerIdx && !HasExact(ids, containerIdx, c) ==> ShouldUpdate(Some(r), c)
    ensures UpdateIds(ids, containerIdx, c) == if HasExact(ids, containerIdx, c) then ids else ids + [NewIdRow(containerIdx, c)]
  {
    forall r | r in ids && r.containerIdx == containerIdx && !HasExact(ids, containerIdx, c)
      ensures ShouldUpdate(Some(r), c)
    {
      var i :| 0 <= i < |ids| && ids[i] == r;
      assert !Matches(ids[i], containerIdx, c);
    }
  }

  /** After the update the ids are recorded, and a second identical report
      checked against the updated table adds nothing. In the source that
      table is what the database holds: rows still pending in the session
      are not seen by the query. */
  lemma {:induction false} UpdateIdsIdempotent(ids: seq<IdRow>, containerIdx: nat, c: ContainerReport)
    ensures HasExact(UpdateIds(ids, containerIdx, c), containerIdx, c)
    ensures UpdateIds(UpdateIds(ids, containerIdx, c), containerIdx, c) == UpdateIds(ids, containerIdx, c)
  {
    IdsAddedUnlessRecorded(ids, containerIdx, c);
    var after := UpdateIds(ids, containerIdx, c);
    if !HasExact(ids, containerIdx, c) {
      assert Matches(after[|ids|], containerIdx, c);
    }
  }

  // ------------------------------------------------------------- containers

  /** The namespace test: a container lacking a mount or pid namespace is
      skipped. */
  predicate Kept(c: ContainerReport)
  {
    Truthy(c.mnt) && Truthy(c.pid)
  }

  function KeptOnly(reports: seq<ContainerReport>): (r: seq<ContainerReport>)
    ensures |r| <= |reports|
  {
    if reports == [] then []
    else KeptOnly(reports[..|reports| - 1]) + (if Kept(reports[|reports| - 1]) then [reports[|reports| - 1]] else [])
  }

  /** `active_container_names` */
  function ActiveNames(reports: seq<ContainerReport>): set<string>
  {
    if reports == [] then {}
    else ActiveNames(reports[..|reports| - 1]) + (if Kept(reports[|reports| - 1]) then {reports[|reports| - 1].name} else {})
  }

  /** `existing_containers`: the server's containers by name. */
  function Existing(containers: seq<ContainerRow>, serverId: nat): (m: map<string, ContainerRow>)
    ensures forall n :: n in m ==> m[n] in containers && m[n].hostServer == serverId && m[n].name == n
    ensures forall r :: r in containers && r.hostServer == serverId ==> r.name in m
  {
    if containers == [] then map[]
    else
      var init := containers[..|containers| - 1];
      var last := containers[|containers| - 1];
      assert containers == init + [last];
      var m := Existing(init, serverId);
      if last.hostServer == serverId then m[last.name := last] else m
  }

  /** Whether the server already has a container of this name. */
  predicate NameTaken(containers: seq<ContainerRow>, serverId: nat, name: string)
  {
    exists i :: 0 <= i < |containers| && containers[i].hostServer == serverId && containers[i].name == name
  }

  /** One iteration of the loop of `_handle_containers`. A name new on the
      server gets a `Container` row first; if the report repeats a new name,
      the second insert breaks the (host_server, name) constraint. */
  function Ingest1(s: Store, serverId: nat, existing: map<string, ContainerRow>, c: ContainerReport): (r: Outcome<Store>)
    ensures !Kept(c) ==> r == Done(s)
    ensures r.Raised? <==> Kept(c) && c.name !in existing && NameTaken(s.containers, serverId, c.name)
    ensures r.Done? ==> s.containers <= r.value.containers && s.ids <= r.value.ids && s.stats <= r.value.stats
    ensures r.Done? && Kept(c) ==> |r.value.stats| == |s.stats| + 1 && r.value.stats[|s.stats|].stats == c.stats
  {
    if !Kept(c) then Done(s)
    else if c.name in existing then
      var info := existing[c.name];
      Done(Store(s.containers, UpdateIds(s.ids, info.id, c), s.stats + [StatsRow(info.id, c.stats, c.ip)]))
    else if NameTaken(s.containers, serverId, c.name) then Raised(External(DuplicateContainer))
    else
      var info := ContainerRow(|s.containers| + 1, serverId, c.runtime, c.name, false);
      Done(Store(s.containers + [info], UpdateIds(s.ids, info.id, c), s.stats + [StatsRow(info.id, c.stats, c.ip)]))
  }

  /** The loop of `_handle_containers` over the reported containers. */
  function Ingest(s: Store, serverId: nat, existing: map<string, ContainerRow>, reports: seq<ContainerReport>): Outcome<Store>
  {
    if reports == [] then Done(s)
    else
      match Ingest(s, serverId, existing, reports[..|reports| - 1])
      case Raised(e) => Raised(e)
      case Done(s') => Ingest1(s', serverId, existing, reports[|reports| - 1])
  }

  /** Skipped containers leave no trace: ingesting the report equals
      ingesting only its kept containers, and they add no active name. */
  lemma {:induction false} SkippedContainersIgnored(s: Store, serverId: nat, existing: map<string, ContainerRow>, reports: seq<ContainerReport>)
    ensures Ingest(s, serverId, existing, reports) == Ingest(s, serverId, existing, KeptOnly(reports))
    ensures ActiveNames(reports) == ActiveNames(KeptOnly(reports))
  {
    if reports != [] {
      var init := reports[..|reports| - 1];
      var last := reports[|reports| - 1];
      SkippedContainersIgnored(s, serverId, existing, init);
      if Kept(last) {
        var kept := KeptOnly(init) + [last];
        assert KeptOnly(reports) == kept;
        assert kept[..|kept| - 1] == KeptOnly(init) && kept[|kept| - 1] == last;
      } else {
        assert KeptOnly(reports) == KeptOnly(init);
      }
    }
  }

  /** Ingestion only appends; each kept container adds exactly one stats
      row, and every new stats row points at a container of this server
      (an existing one or one inserted before it). */
  lemma {:induction false} IngestAppends(s: Store, serverId: nat, existing: map<string, ContainerRow>, reports: seq<ContainerReport>)
    requires forall n :: n in existing ==> existing[n] in s.containers && existing[n].hostServer == serverId
    ensures Ingest(s, serverId, existing, reports).Done? ==>
      var t := Ingest(s, serverId, existing, reports).value;
      && s.containers <= t.containers && s.ids <= t.ids && s.stats <= t.stats
      && |t.stats| == |s.stats| + |KeptOnly(reports)|
      && forall k :: |s.stats| <= k < |t.stats| ==>
           exists r :: r in t.containers && r.id == t.stats[k].containerId && r.hostServer == serverId
  {
    if reports != [] {
      var init := reports[..|reports| - 1];
      var last := reports[|reports| - 1];
      IngestAppends(s, serverId, existing, init);
      var before := Ingest(s, serverId, existing, init);
      if before.Done? && Ingest1(before.value, serverId, existing, last).Done? {
        var m := before.value;
        var t := Ingest1(m, serverId, existing, last).value;
        IdsAddedUnlessRecorded(m.ids, if last.name in existing then existing[last.name].id else |m.containers| + 1, last);
        assert m.containers <= t.containers;
        forall k | |s.stats| <= k < |t.stats|
          ensures exists r :: r in t.containers && r.id == t.stats[k].containerId && r.hostServer == serverId
        {
          if k < |m.stats| {
            assert t.stats[k] == m.stats[k];
            var r :| r in m.containers && r.id == m.stats[k].containerId && r.hostServer == serverId;
            assert r in t.containers;
          } else if last.name in existing {
            assert existing[last.name] in t.containers;
          } else {
            assert t.containers == m.containers + [ContainerRow(|m.containers| + 1, serverId, last.runtime, last.name, false)];
            assert t.containers[|m.containers|].id == t.stats[k].containerId;
          }
        }
      }
    }
  }

  /** The two `removed_at` updates as written: rows are selected by name
      alone, on every server. */
  function MarkByName(rows: seq<ContainerRow>, removedNames: set<string>, active: set<string>): (r: seq<ContainerRow>)
    ensures |r| == |rows|
    ensures forall i :: 0 <= i < |rows| ==>
      r[i] == if rows[i].name in active then rows[i].(removed := false)
              else if rows[i].name in removedNames then rows[i].(removed := true)
              else rows[i]
  {
    seq(|rows|, i requires 0 <= i < |rows| =>
      if rows[i].name in active then rows[i].(removed := false)
      else if rows[i].name in removedNames then rows[i].(removed := true)
      else rows[i])
  }

  /** The two updates restricted to the reporting server. */
  function MarkOnServer(rows: seq<ContainerRow>, serverId: nat, active: set<string>): (r: seq<ContainerRow>)
    ensures |r| == |rows|
    ensures forall i :: 0 <= i < |rows| && rows[i].hostServer != serverId ==> r[i] == rows[i]
    ensures forall i :: 0 <= i < |rows| && rows[i].hostServer == serverId ==>
      r[i] == rows[i].(removed := rows[i].name !in active)
  {
    seq(|rows|, i requires 0 <= i < |rows| =>
      if rows[i].hostServer == serverId then rows[i].(removed := rows[i].name !in active) else rows[i])
  }

  /** `_handle_containers` as written. */
  function HandleContainersAsWritten(s: Store, serverId: nat, reports: seq<ContainerReport>): (r: Outcome<Store>)
    ensures r.Raised? <==> Ingest(s, serverId, Existing(s.containers, serverId), reports).Raised?
    ensures r.Done? ==>
      var t := Ingest(s, serverId, Existing(s.containers, serverId), reports).value;
      && |r.value.containers| == |t.containers| && r.value.ids == t.ids && r.value.stats == t.stats
  {
    var existing := Existing(s.containers, serverId);
    match Ingest(s, serverId, existing, reports)
    case Raised(e) => Raised(e)
    case Done(t) =>
      var active := ActiveNames(reports);
      Done(t.(containers := MarkByName(t.containers, existing.Keys - active, active)))
  }

  /** `_handle_containers` with both updates filtered by the server too. */
  function HandleContainers(s: Store, serverId: nat, reports: seq<ContainerReport>): (r: Outcome<Store>)
    ensures r.Raised? <==> Ingest(s, serverId, Existing(s.containers, serverId), reports).Raised?
    ensures r.Done? ==>
      var t := Ingest(s, serverId, Existing(s.containers, serverId), reports).value;
      && |r.value.containers| == |t.containers| && r.value.ids == t.ids && r.value.stats == t.stats
  {
    var existing := Existing(s.containers, serverId);
    match Ingest(s, serverId, existing, reports)
    case Raised(e) => Raised(e)
    case Done(t) => Done(t.(containers := MarkOnServer(t.containers, serverId, ActiveNames(reports))))
  }

  /** After the intended update, a container of the reporting server is
      marked removed exactly when its name was not among the kept reports,
      and other servers' containers are untouched. */
  lemma RemovalScopedToServer(s: Store, serverId: nat, reports: seq<ContainerReport>)
    ensures HandleContainers(s, serverId, reports).Done? ==>
      var t := HandleContainers(s, serverId, reports).value;
      var u := Ingest(s, serverId, Existing(s.containers, serverId), reports).value;
      && (forall i :: 0 <= i < |t.containers| && t.containers[i].hostServer == serverId ==>
            (t.containers[i].removed <==> t.containers[i].name !in ActiveNames(reports)))
      && (forall i :: 0 <= i < |t.containers| && t.containers[i].hostServer != serverId ==>
            t.containers[i] == u.containers[i])
  {
  }

  /** Two servers each run a container named "web"; server 1 reports no
      containers. The written update marks server 2's running "web" as
      removed; the intended one leaves it alone. */
  lemma RemovalCrossesServers()
    ensures var s := Store([ContainerRow(1, 1, VNone, "web", false), ContainerRow(2, 2, VNone, "web", false)], [], []);
      && HandleContainersAsWritten(s, 1, []).Done?
      && HandleContainersAsWritten(s, 1, []).value.containers[1].removed
      && HandleContainers(s, 1, []).Done?
      && !HandleContainers(s, 1, []).value.containers[1].removed
  {
    var s := Store([ContainerRow(1, 1, VNone, "web", false), ContainerRow(2, 2, VNone, "web", false)], [], []);
    assert "web" in Existing(s.containers, 1);
  }

  // -------------------------------------------------------------- heartbeat

  /** `add_heartbeat` as written, on the whole database. */
  function AddHeartbeatAsWritten(db: Db, hb: HeartbeatReport): (r: (Outcome<()>, Db))
    ensures r.1.servers == GetOrCreateServerAsWritten(db.servers, hb.hostUuid, hb.serverName).servers
    ensures FindServer(db.servers, hb.hostUuid).None? ==> r.0 == Raised(AttributeError(NoServerId))
    ensures r.0.Raised? ==> r.1.systemInfos == db.systemInfos && r.1.store == db.store && r.1.heartbeats == db.heartbeats
    ensures r.0.Done? ==> r.1.heartbeats == db.heartbeats + [HeartbeatRow(hb.hostUuid, |hb.containers|)]
  {
    var step := GetOrCreateServerAsWritten(db.servers, hb.hostUuid, hb.serverName);
    var db1 := db.(servers := step.servers);
    if step.server.None? then (Raised(AttributeError(NoServerId)), db1)
    else
      var id := step.server.value.id;
      var db2 := db1.(systemInfos := db1.systemInfos + [SystemInfoRow(id, hb.host, hb.timestamp)]);
      match HandleContainersAsWritten(db2.store, id, hb.containers)
      case Raised(e) => (Raised(e), db1)
      case Done(store) => (Done(()), db2.(store := store, heartbeats := db2.heartbeats + [HeartbeatRow(hb.hostUuid, |hb.containers|)]))
  }

  /** `add_heartbeat` with both corrections. */
  function AddHeartbeat(db: Db, hb: HeartbeatReport): (r: (Outcome<()>, Db))
    ensures r.1.servers == GetOrCreateServer(db.servers, hb.hostUuid, hb.serverName).servers
    ensures r.0.Raised? <==> HandleContainers(db.store, GetOrCreateServer(db.servers, hb.hostUuid, hb.serverName).server.value.id, hb.containers).Raised?
    ensures r.0.Raised? ==> r.1.systemInfos == db.systemInfos && r.1.store == db.store && r.1.heartbeats == db.heartbeats
    ensures r.0.Done? ==>
      && r.1.heartbeats == db.heartbeats + [HeartbeatRow(hb.hostUuid, |hb.containers|)]
      && r.1.systemInfos == db.systemInfos + [SystemInfoRow(GetOrCreateServer(db.servers, hb.hostUuid, hb.serverName).server.value.id, hb.host, hb.timestamp)]
  {
    var step := GetOrCreateServer(db.servers, hb.hostUuid, hb.serverName);
    var db1 := db.(servers := step.servers);
    var id := step.server.value.id;
    var db2 := db1.(systemInfos := db1.systemInfos + [SystemInfoRow(id, hb.host, hb.timestamp)]);
    match HandleContainers(db2.store, id, hb.containers)
    case Raised(e) => (Raised(e), db1)
    case Done(store) => (Done(()), db2.(store := store, heartbeats := db2.heartbeats + [HeartbeatRow(hb.hostUuid, |hb.containers|)]))
  }

  /** The first heartbeat of a new host, with no containers: as written it
      inserts the server and then fails on `server.id`, storing nothing else;
      the intended version stores the system info and the heartbeat. */
  lemma FirstHeartbeatLost()
    ensures var hb := HeartbeatReport(VStr("host-1"), VStr("alpha"), VNone, VNone, []);
      var empty := Db([], [], Store([], [], []), []);
      && AddHeartbeatAsWritten(empty, hb) == (Raised(AttributeError(NoServerId)), empty.(servers := [ServerRow(1, VStr("host-1"), VStr("alpha"))]))
      && AddHeartbeat(empty, hb).0 == Done(())
      && AddHeartbeat(empty, hb).1.heartbeats == [HeartbeatRow(VStr("host-1"), 0)]
      && AddHeartbeat(empty, hb).1.systemInfos == [SystemInfoRow(1, VNone, VNone)]
  {
    var none := Store([], [], []);
    var row := ServerRow(1, VStr("host-1"), VStr("alpha"));
    assert FindServer([], VStr("host-1")).None?;
    assert [] + [row] == [row];
    assert GetOrCreateServer([], VStr("host-1"), VStr("alpha")) == ServerStep(Some(row), [row]);
    assert GetOrCreateServerAsWritten([], VStr("host-1"), VStr("alpha")) == ServerStep(None, [row]);
    assert Existing([], 1) == map[];
    assert Ingest(none, 1, map[], []) == Done(none);
    assert MarkOnServer([], 1, {}) == [];
    assert HandleContainers(none, 1, []) == Done(none);
  }

  /** A stored heartbeat counts every reported container, skipped ones
      included, while only the kept ones get stats rows; the server row of
      the uuid carries the reported name. */
  lemma {:induction false} HeartbeatCountsAllContainers(db: Db, hb: HeartbeatReport)
    ensures AddHeartbeat(db, hb).0.Done? ==>
      var after := AddHeartbeat(db, hb).1;
      && after.heartbeats == db.heartbeats + [HeartbeatRow(hb.hostUuid, |hb.containers|)]
      && |after.store.stats| == |db.store.stats| + |KeptOnly(hb.containers)|
      && |KeptOnly(hb.containers)| <= |hb.containers|
    ensures FindServer(AddHeartbeat(db, hb).1.servers, hb.hostUuid).Some?
  {
    var step := GetOrCreateServer(db.servers, hb.hostUuid, hb.serverName);
    var id := step.server.value.id;
    var s := db.store;
    IngestAppends(s, id, Existing(s.containers, id), hb.containers);
    assert step.server.value in step.servers;
  }

  /** The session's tables. */
  class Database {
    var servers: seq<ServerRow>
    var systemInfos: seq<SystemInfoRow>
    var containers: seq<ContainerRow>
    var ids: seq<IdRow>
    var stats: seq<StatsRow>
    var heartbeats: seq<HeartbeatRow>

    function Snapshot(): Db
      reads this
    {
      Db(servers, systemInfos, Store(containers, ids, stats), heartbeats)
    }

    constructor (db: Db)
      ensures Snapshot() == db
    {
      servers := db.servers;
      systemInfos := db.systemInfos;
      containers := db.store.containers;
      ids := db.store.ids;
      stats := db.store.stats;
      heartbeats := db.heartbeats;
    }

    /** The session's rollback when the transaction block fails: work not
        yet committed is discarded. */
    method Rollback(saved: Db)
      modifies this
      ensures Snapshot() == saved
    {
      servers := saved.servers;
      systemInfos := saved.systemInfos;
      containers := saved.store.containers;
      ids := saved.store.ids;
      stats := saved.store.stats;
      heartbeats := saved.heartbeats;
    }

    /** `_update_container_ids` */
    method UpdateContainerIds(containerIdx: nat, c: ContainerReport)
      modifies this
      ensures ids == UpdateIds(old(ids), containerIdx, c)
      ensures servers == old(servers) && systemInfos == old(systemInfos) && containers == old(containers)
      ensures stats == old(stats) && heartbeats == old(heartbeats)
    {
      if !HasExact(ids, containerIdx, c) {
        var latest := Latest(ids, containerIdx);
        if ShouldUpdate(latest, c) {
          ids := ids + [NewIdRow(containerIdx, c)];
        }
      }
    }

    /** The loop of `_handle_containers`, which also collects the active names. */
    method IngestReports(serverId: nat, existing: map<string, ContainerRow>, reports: seq<ContainerReport>)
      returns (r: Outcome<set<string>>)
      modifies this
      ensures var spec := Ingest(old(Snapshot()).store, serverId, existing, reports);
        && r.Done? == spec.Done?
        && (r.Raised? ==> r.exc == spec.exc)
        && (r.Done? ==> r.value == ActiveNames(reports) && Snapshot().store == spec.value)
      ensures servers == old(servers) && systemInfos == old(systemInfos) && heartbeats == old(heartbeats)
    {
      var active: set<string> := {};
      var n := 0;
      while n < |reports|
        invariant 0 <= n <= |reports|
        invariant Ingest(old(Snapshot()).store, serverId, existing, reports[..n]) == Done(Snapshot().store)
        invariant active == ActiveNames(reports[..n])
        invariant servers == old(servers) && systemInfos == old(systemInfos) && heartbeats == old(heartbeats)
      {
        var c := reports[n];
        assert reports[..n + 1][..n] == reports[..n];
        if Kept(c) {
          var info: ContainerRow;
          if c.name in existing {
            info := existing[c.name];
          } else {
            if NameTaken(containers, serverId, c.name) {
              IngestRaisesFrom(old(Snapshot()).store, serverId, existing, reports, n);
              return Raised(External(DuplicateContainer));
            }
            info := ContainerRow(|containers| + 1, serverId, c.runtime, c.name, false);
            containers := containers + [info];
          }
          active := active + {c.name};
          UpdateContainerIds(info.id, c);
          stats := stats + [StatsRow(info.id, c.stats, c.ip)];
        }
        n := n + 1;
      }
      assert reports[..n] == reports;
      r := Done(active);
    }

    /** `_handle_containers` as written. */
    method ReconcileAsWritten(serverId: nat, reports: seq<ContainerReport>) returns (r: Outcome<()>)
      modifies this
      ensures var spec := HandleContainersAsWritten(old(Snapshot()).store, serverId, reports);
        && r.Done? == spec.Done?
        && (r.Raised? ==> r.exc == spec.exc)
        && (r.Done? ==> Snapshot().store == spec.value)
      ensures servers == old(servers) && systemInfos == old(systemInfos) && heartbeats == old(heartbeats)
    {
      var existing := Existing(containers, serverId);
      var active := IngestReports(serverId, existing, reports);
      if active.Raised? {
        return Raised(active.exc);
      }
      containers := MarkByName(containers, existing.Keys - active.value, active.value);
      r := Done(());
    }

    /** `_handle_containers` with server-scoped `removed_at` updates. */
    method Reconcile(serverId: nat, reports: seq<ContainerReport>) returns (r: Outcome<()>)
      modifies this
      ensures var spec := HandleContainers(old(Snapshot()).store, serverId, reports);
        && r.Done? == spec.Done?
        && (r.Raised? ==> r.exc == spec.exc)
        && (r.Done? ==> Snapshot().store == spec.value)
      ensures servers == old(servers) && systemInfos == old(systemInfos) && heartbeats == old(heartbeats)
    {
      var existing := Existing(containers, serverId);
      var active := IngestReports(serverId, existing, reports);
      if active.Raised? {
        return Raised(active.exc);
      }
      containers := MarkOnServer(containers, serverId, active.value);
      r := Done(());
    }

    /** `add_heartbeat` as written. */
    method RecordAsWritten(hb: HeartbeatReport) returns (r: Outcome<()>)
      modifies this
      ensures (r, Snapshot()) == AddHeartbeatAsWritten(old(Snapshot()), hb)
    {
      var step := GetOrCreateServerAsWritten(servers, hb.hostUuid, hb.serverName);
      servers := step.servers;
      if step.server.None? {
        return Raised(AttributeError(NoServerId));
      }
      var id := step.server.value.id;
      var saved := Snapshot();
      systemInfos := systemInfos + [SystemInfoRow(id, hb.host, hb.timestamp)];
      r := ReconcileAsWritten(id, hb.containers);
      if r.Raised? {
        Rollback(saved);
        return;
      }
      heartbeats := heartbeats + [HeartbeatRow(hb.hostUuid, |hb.containers|)];
      r := Done(());
    }

    /** `add_heartbeat` with both corrections. */
    method Record(hb: HeartbeatReport) returns (r: Outcome<()>)
      modifies this
      ensures (r, Snapshot()) == AddHeartbeat(old(Snapshot()), hb)
    {
      var step := GetOrCreateServer(servers, hb.hostUuid, hb.serverName);
      servers := step.servers;
      var id := step.server.value.id;
      var saved := Snapshot();
      systemInfos := systemInfos + [SystemInfoRow(id, hb.host, hb.timestamp)];
      r := Reconcile(id, hb.containers);
      if r.Raised? {
        Rollback(saved);
        return;
      }
      heartbeats := heartbeats + [HeartbeatRow(hb.hostUuid, |hb.containers|)];
      r := Done(());
    }
  }

  /** A failing iteration fails the whole loop. */
  lemma {:induction false} IngestRaisesFrom(s: Store, serverId: nat, existing: map<string, ContainerRow>, reports: seq<ContainerReport>, n: nat)
    requires n < |reports| && Ingest(s, serverId, existing, reports[..n + 1]).Raised?
    ensures Ingest(s, serverId, existing, reports) == Ingest(s, serverId, existing, reports[..n + 1])
    decreases |reports| - n
  {
    if n + 1 < |reports| {
      assert reports[..n + 2][..n + 1] == reports[..n + 1];
      IngestRaisesFrom(s, serverId, existing, reports, n + 1);
    } else {
      assert reports[..n + 1] == reports;
    }
  }
}
